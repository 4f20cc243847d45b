/**
 * Resource handles, the shader-side records the core fills, and the log of
 * GPU calls that stands for the renderer's side effects.
 */
module Gpu {
  import opened Geometry

  datatype Option<T> = None | Some(value: T)

  /** The unsigned 32-bit integers of the shader interface. */
  newtype u32 = x: int | 0 <= x < 0x1_0000_0000

  const U32Modulus: int := 0x1_0000_0000

  /** `u32(n)` in C++: keeps the low 32 bits. */
  function ToU32(n: nat): (r: u32)
    ensures r as int == n % U32Modulus
    ensures n < U32Modulus ==> r as int == n
  {
    (n % U32Modulus) as u32
  }

  // Identities of shared resources: equal handles mean the same object.
  datatype MaterialId = MaterialId(id: nat)
  datatype MeshId = MeshId(id: nat)
  datatype ProgramId = ProgramId(id: nat)
  datatype TextureId = TextureId(id: nat)

  /** shader::PointLight: one entry of the light storage buffer. */
  datatype ShaderPointLight = ShaderPointLight(position: Vec3, radius: real, color: Vec3, padding: real)

  /** The fields of shader::FrameData this model fills. */
  datatype FrameData = FrameData(viewProj: Mat4, pointLightCount: u32, sunColor: Vec3)

  /** One GPU call issued while rendering a frame. */
  datatype GpuEvent =
    | BindFrameData(slot: nat, data: FrameData)
    | BindLights(slot: nat, lights: seq<ShaderPointLight>)
    | SetModelUniform(material: MaterialId, model: Mat4)
    | BindMaterial(material: MaterialId)
    | DrawMesh(mesh: MeshId)
}
