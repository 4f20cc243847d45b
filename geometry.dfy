/** Vector and matrix values of the renderer (glm::vec3, glm::vec4, glm::mat4), over `real`. */
module Geometry {

  datatype Vec3 = Vec3(x: real, y: real, z: real)
  datatype Vec4 = Vec4(x: real, y: real, z: real, w: real)

  /** A column-major 4x4 matrix: `c3` holds the translation of an affine transform. */
  datatype Mat4 = Mat4(c0: Vec4, c1: Vec4, c2: Vec4, c3: Vec4)

  const Origin := Vec3(0.0, 0.0, 0.0)

  const Identity := Mat4(Vec4(1.0, 0.0, 0.0, 0.0), Vec4(0.0, 1.0, 0.0, 0.0),
                         Vec4(0.0, 0.0, 1.0, 0.0), Vec4(0.0, 0.0, 0.0, 1.0))

  /** glm::vec3(v4): drops the fourth component. */
  function Xyz(v: Vec4): Vec3 { Vec3(v.x, v.y, v.z) }

  function Add(a: Vec3, b: Vec3): Vec3 { Vec3(a.x + b.x, a.y + b.y, a.z + b.z) }

  function Sub(a: Vec3, b: Vec3): Vec3 { Vec3(a.x - b.x, a.y - b.y, a.z - b.z) }

  function Scale(a: Vec3, k: real): Vec3 { Vec3(a.x * k, a.y * k, a.z * k) }

  function Dot(a: Vec3, b: Vec3): real { a.x * b.x + a.y * b.y + a.z * b.z }

  /** std::max(a, b): `b` when `a < b`, otherwise `a`. */
  function Max(a: real, b: real): (r: real)
    ensures r >= a && r >= b && (r == a || r == b)
  {
    if a < b then b else a
  }

  /** Moving a point along a direction changes its dot product with that direction linearly. */
  lemma DotAddScaled(v: Vec3, n: Vec3, k: real)
    ensures Dot(Add(v, Scale(n, k)), n) == Dot(v, n) + k * Dot(n, n)
  {
    calc {
      Dot(Add(v, Scale(n, k)), n);
      (v.x + n.x * k) * n.x + (v.y + n.y * k) * n.y + (v.z + n.z * k) * n.z;
      v.x * n.x + v.y * n.y + v.z * n.z + k * (n.x * n.x + n.y * n.y + n.z * n.z);
    }
  }

  /** Scaling twice is scaling by the product. */
  lemma ScaleScale(n: Vec3, a: real, b: real)
    ensures Scale(Scale(n, a), b) == Scale(n, a * b)
  {
    assert (n.x * a) * b == n.x * (a * b);
    assert (n.y * a) * b == n.y * (a * b);
    assert (n.z * a) * b == n.z * (a * b);
  }
}

/** What the core reads from a camera. Camera.h is not part of this model. */
module Cameras {
  import opened Geometry

  /**
   * The world-space plane normals built by `Camera::build_frustum`; a point `p`
   * is on the inner side of a plane when `Dot(p - camera position, normal) >= 0`.
   */
  datatype Frustum = Frustum(near: Vec3, far: Vec3, top: Vec3, bottom: Vec3, right: Vec3, left: Vec3)

  /**
   * A camera, represented by the values the core takes from it: its position,
   * its view-projection matrix and the frustum it builds.
   */
  datatype Camera = Camera(position: Vec3, viewProj: Mat4, frustum: Frustum)
}
