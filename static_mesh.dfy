/** StaticMesh: vertex and index buffers and the bounding radius computed at construction. */
module StaticMeshes {
  import opened Geometry
  import opened Gpu

  /** One vertex of a mesh (Vertex.h). Only the position takes part in the radius. */
  datatype Vertex = Vertex(position: Vec3, normal: Vec3, uv: (real, real),
                           tangentBitangentSign: Vec4, color: Vec3)

  datatype MeshData = MeshData(vertices: seq<Vertex>, indices: seq<u32>)

  /** A constructed mesh: the two GPU buffers, modelled by their contents, and the radius. */
  datatype StaticMesh = StaticMesh(vertexBuffer: seq<Vertex>, indexBuffer: seq<u32>, radius: real)

  /**
   * std::max_element with the comparator `key(a) < key(b)`: it scans left to right
   * and moves to a new element only when that one is strictly larger, so the index
   * it returns is the FIRST one holding the maximum.
   */
  function MaxElement<T>(s: seq<T>, key: T -> real): (k: nat)
    requires |s| > 0
    ensures k < |s|
    ensures forall j :: 0 <= j < |s| ==> key(s[j]) <= key(s[k])
    ensures forall j :: 0 <= j < k ==> key(s[j]) < key(s[k])
  {
    if |s| == 1 then 0
    else
      var k := MaxElement(s[..|s| - 1], key);
      assert forall j :: 0 <= j < |s| - 1 ==> s[..|s| - 1][j] == s[j];
      if key(s[k]) < key(s[|s| - 1]) then |s| - 1 else k
  }

  /** Distance of a vertex from the mesh's local origin, `length(position - center)`. */
  function Distance(v: Vertex, length: Vec3 -> real): real {
    length(Sub(v.position, Origin))
  }

  /**
   * StaticMesh(const MeshData&): uploads both buffers and sets `radius` to the
   * distance of the farthest vertex. `length` stands for glm::length. The source
   * dereferences the result of max_element, so it needs at least one vertex.
   */
  function NewStaticMesh(data: MeshData, length: Vec3 -> real): (m: StaticMesh)
    requires |data.vertices| > 0
    ensures m.vertexBuffer == data.vertices && m.indexBuffer == data.indices
    ensures forall v :: v in data.vertices ==> Distance(v, length) <= m.radius
    ensures exists i :: 0 <= i < |data.vertices| && Distance(data.vertices[i], length) == m.radius
  {
    var k := MaxElement(data.vertices, v => Distance(v, length));
    StaticMesh(data.vertices, data.indices, Distance(data.vertices[k], length))
  }
}
