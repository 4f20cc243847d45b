/** SceneObject: a mesh and a material shared with other objects, and a transform. */
module SceneObjects {
  import opened Geometry
  import opened Gpu
  import opened Cameras
  import opened StaticMeshes

  /** A shared mesh handle: its identity and the mesh it points to. */
  datatype MeshHandle = MeshHandle(id: MeshId, mesh: StaticMesh)

  /**
   * The value of a SceneObject. Scene keeps its objects by value
   * (`std::vector<SceneObject>`), so the scene stores these. Either handle may be null.
   */
  datatype SceneObjectData = SceneObjectData(mesh: Option<MeshHandle>, material: Option<MaterialId>, transform: Mat4)

  /** The calls of `SceneObject::render`: nothing for an incomplete object. */
  function RenderEvents(o: SceneObjectData): (r: seq<GpuEvent>)
    ensures r == [] <==> o.material.None? || o.mesh.None?
  {
    if o.material.None? || o.mesh.None? then []
    else [SetModelUniform(o.material.value, o.transform), BindMaterial(o.material.value), DrawMesh(o.mesh.value.id)]
  }

  /** The planes `in_frustum` tests, in its order. The far plane is not among them. */
  function TestedNormals(f: Frustum): (r: seq<Vec3>)
    ensures |r| == 5
  {
    [f.near, f.top, f.bottom, f.right, f.left]
  }

  /** The largest of the three basis-column lengths of the transform. */
  function ScaleFactor(transform: Mat4, length: Vec3 -> real): (s: real)
    ensures s >= length(Xyz(transform.c0)) && s >= length(Xyz(transform.c1)) && s >= length(Xyz(transform.c2))
    ensures s == length(Xyz(transform.c0)) || s == length(Xyz(transform.c1)) || s == length(Xyz(transform.c2))
  {
    Max(Max(length(Xyz(transform.c0)), length(Xyz(transform.c1))), length(Xyz(transform.c2)))
  }

  /** One plane of `in_frustum`: the point pushed along the normal by radius*scale is on the inner side. */
  predicate PlanePasses(toObject: Vec3, normal: Vec3, radius: real, scale: real) {
    Dot(Add(toObject, Scale(Scale(normal, radius), scale)), normal) >= 0.0
  }

  /** The vector from the camera to the object's translation. */
  function ToObject(o: SceneObjectData, camera: Camera): Vec3 {
    Sub(Xyz(o.transform.c3), camera.position)
  }

  /** What `in_frustum` decides: every tested plane passes. */
  predicate InFrustum(o: SceneObjectData, camera: Camera, length: Vec3 -> real)
    requires o.mesh.Some?
  {
    var normals := TestedNormals(camera.frustum);
    forall i :: 0 <= i < |normals| ==>
      PlanePasses(ToObject(o, camera), normals[i], o.mesh.value.mesh.radius, ScaleFactor(o.transform, length))
  }

  /**
   * The loop of `in_frustum`, which returns false at the first failing plane.
   * `length` stands for glm::length. The source dereferences the mesh.
   */
  method InFrustumCheck(o: SceneObjectData, camera: Camera, length: Vec3 -> real) returns (inside: bool)
    requires o.mesh.Some?
    ensures inside == InFrustum(o, camera, length)
  {
    var toObject := Sub(Xyz(o.transform.c3), camera.position);
    var scale := Max(Max(length(Xyz(o.transform.c0)), length(Xyz(o.transform.c1))), length(Xyz(o.transform.c2)));
    var radius := o.mesh.value.mesh.radius;
    var normals := [camera.frustum.near, camera.frustum.top, camera.frustum.bottom,
                    camera.frustum.right, camera.frustum.left];
    var i := 0;
    while i < |normals|
      invariant i <= |normals|
      invariant forall j :: 0 <= j < i ==> PlanePasses(toObject, normals[j], radius, scale)
    {
      var offsetPoint := Add(toObject, Scale(Scale(normals[i], radius), scale));
      if Dot(offsetPoint, normals[i]) < 0.0 {
        assert normals == TestedNormals(camera.frustum) && !PlanePasses(toObject, normals[i], radius, scale);
        return false;
      }
      i := i + 1;
    }
    return true;
  }

  /** `in_frustum` is the conjunction of the near, top, bottom, right and left planes. */
  lemma {:induction false} InFrustumFivePlanes(o: SceneObjectData, camera: Camera, length: Vec3 -> real)
    requires o.mesh.Some?
    ensures var v, f, r, s := ToObject(o, camera), camera.frustum, o.mesh.value.mesh.radius, ScaleFactor(o.transform, length);
      InFrustum(o, camera, length) <==>
        PlanePasses(v, f.near, r, s) && PlanePasses(v, f.top, r, s) && PlanePasses(v, f.bottom, r, s)
        && PlanePasses(v, f.right, r, s) && PlanePasses(v, f.left, r, s)
  {
    var normals := TestedNormals(camera.frustum);
    assert normals[0] == camera.frustum.near && normals[1] == camera.frustum.top;
    assert normals[2] == camera.frustum.bottom && normals[3] == camera.frustum.right;
    assert normals[4] == camera.frustum.left;
  }

  /** The far plane is never consulted: replacing it never changes the answer. */
  lemma FarPlaneIgnored(o: SceneObjectData, camera: Camera, far: Vec3, length: Vec3 -> real)
    requires o.mesh.Some?
    ensures InFrustum(o, camera, length) == InFrustum(o, camera.(frustum := camera.frustum.(far := far)), length)
  {
    assert TestedNormals(camera.frustum) == TestedNormals(camera.frustum.(far := far));
  }

  /** The plane test is linear in the offset: `dot(v, n) + radius*scale*dot(n, n) >= 0`. */
  lemma PlaneTestExpanded(toObject: Vec3, normal: Vec3, radius: real, scale: real)
    ensures PlanePasses(toObject, normal, radius, scale)
            <==> Dot(toObject, normal) + (radius * scale) * Dot(normal, normal) >= 0.0
  {
    ScaleScale(normal, radius, scale);
    DotAddScaled(toObject, normal, radius * scale);
  }

  /**
   * For a unit normal the plane test is the sphere test: the signed distance of the
   * centre from the plane is at least minus the scaled radius.
   */
  lemma UnitNormalPlaneTest(toObject: Vec3, normal: Vec3, radius: real, scale: real)
    requires Dot(normal, normal) == 1.0
    ensures PlanePasses(toObject, normal, radius, scale) <==> Dot(toObject, normal) >= -(radius * scale)
  {
    PlaneTestExpanded(toObject, normal, radius, scale);
  }

  /** With a zero radius the plane test is a point test, whatever the normal's length. */
  lemma ZeroRadiusIsPointTest(toObject: Vec3, normal: Vec3, scale: real)
    ensures PlanePasses(toObject, normal, 0.0, scale) <==> Dot(toObject, normal) >= 0.0
  {
    PlaneTestExpanded(toObject, normal, 0.0, scale);
  }

  lemma MulNonNegative(a: real, b: real)
    requires a >= 0.0 && b >= 0.0
    ensures a * b >= 0.0
  {
  }

  /** A larger sphere (non-negative scale) passes every plane a smaller one passes. */
  lemma PlaneTestMonotonic(toObject: Vec3, normal: Vec3, radius: real, radius': real, scale: real)
    requires radius <= radius' && scale >= 0.0
    requires PlanePasses(toObject, normal, radius, scale)
    ensures PlanePasses(toObject, normal, radius', scale)
  {
    PlaneTestExpanded(toObject, normal, radius, scale);
    PlaneTestExpanded(toObject, normal, radius', scale);
    var d := Dot(normal, normal);
    assert d >= 0.0;
    MulNonNegative(radius' - radius, scale);
    MulNonNegative(radius' * scale - radius * scale, d);
  }

  class SceneObject {
    const mesh: Option<MeshHandle>
    const material: Option<MaterialId>
    var transform: Mat4

    /** The object's value, as `Scene::add_object` copies it. */
    function Data(): (d: SceneObjectData)
      reads this
      ensures d.mesh == mesh && d.material == material && d.transform == transform
    {
      SceneObjectData(mesh, material, transform)
    }

    /** Stores both handles as given. The constructor does not initialise `_transform`; the model sets `Identity` and promises nothing about it. */
    constructor (mesh: Option<MeshHandle>, material: Option<MaterialId>)
      ensures this.mesh == mesh && this.material == material
    {
      this.mesh := mesh;
      this.material := material;
      this.transform := Identity;
    }

    method SetTransform(tr: Mat4)
      modifies this
      ensures Transform() == tr
    {
      transform := tr;
    }

    /** `transform()`: the transform last set. */
    function Transform(): (t: Mat4)
      reads this
      ensures t == transform
    {
      transform
    }

    /** `render()`: skipped when a handle is null; otherwise model uniform, material bind, mesh draw. */
    method Render() returns (events: seq<GpuEvent>)
      ensures events == RenderEvents(Data())
      ensures events == [] <==> material.None? || mesh.None?
    {
      if material.None? || mesh.None? {
        return [];
      }
      events := [SetModelUniform(material.value, Transform())];
      events := events + [BindMaterial(material.value)];
      events := events + [DrawMesh(mesh.value.id)];
    }

    method InFrustumOf(camera: Camera, length: Vec3 -> real) returns (inside: bool)
      requires mesh.Some?
      ensures inside == InFrustum(Data(), camera, length)
    {
      inside := InFrustumCheck(Data(), camera, length);
    }
  }
}
