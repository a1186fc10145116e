/** Value types shared by the animation, transform and terrain code: glm's
    vec2/vec3 as records over `real`, and quaternions and 4x4 matrices as
    free terms. The terms record how a rotation or a matrix was built
    (which product, which slerp, which translate-rotate-scale) without
    evaluating glm's floating-point arithmetic. */
module Geometry {

  datatype Vec2 = Vec2(x: real, y: real)

  datatype Vec3 = Vec3(x: real, y: real, z: real)

  /** Component-wise vector arithmetic, as glm's operators on vec3. */
  function Add(a: Vec3, b: Vec3): Vec3 {
    Vec3(a.x + b.x, a.y + b.y, a.z + b.z)
  }

  function Sub(a: Vec3, b: Vec3): Vec3 {
    Vec3(a.x - b.x, a.y - b.y, a.z - b.z)
  }

  function Scale(k: real, v: Vec3): Vec3 {
    Vec3(k * v.x, k * v.y, k * v.z)
  }

  /** glm::vec3(s): all three components equal to `s`. */
  function Splat(s: real): Vec3 {
    Vec3(s, s, s)
  }

  const Zero := Vec3(0.0, 0.0, 0.0)

  /** Cross product, the polynomial glm::cross computes. */
  function Cross(a: Vec3, b: Vec3): Vec3 {
    Vec3(a.y * b.z - a.z * b.y, a.z * b.x - a.x * b.z, a.x * b.y - a.y * b.x)
  }

  /** A rotation. `Components` is a literal quaternion (w, x, y, z); the other
      constructors stand for the glm operation that produced the rotation. */
  datatype Quat =
    | Components(w: real, x: real, y: real, z: real)
    | Product(lhs: Quat, rhs: Quat)              // lhs * rhs
    | Slerp(from: Quat, to: Quat, t: real)       // glm::slerp(from, to, t)
    | FromEuler(angles: Vec3)                    // glm::quat(eulerAngles)
    | AngleAxis(angle: real, axis: Vec3)         // glm::angleAxis(angle, normalize(axis))

  /** The identity rotation, quat(1, 0, 0, 0). */
  const Identity := Components(1.0, 0.0, 0.0, 0.0)

  /** A 4x4 matrix, built either as translate * rotate * scale or as a
      product of two matrices. */
  datatype Mat4 =
    | IdentityMatrix
    | TRS(translation: Vec3, rotation: Quat, scale: Vec3)
    | Compose(outer: Mat4, inner: Mat4)          // outer * inner
}
