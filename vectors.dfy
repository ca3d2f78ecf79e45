/** Three-component vectors standing for glm::vec3 and b3Vector3.

    Components are exact reals: float rounding is not modelled. The operations
    the core needs are the ones it writes with `+`, `-`, `*` and glm::cross;
    normalisation and rotation matrices need square roots and trigonometry and
    are supplied by the caller as functions (see Normalizer and Rotator). */
module Vectors {

  datatype Vec3 = Vec3(x: real, y: real, z: real)

  /** glm::vec2, the texture coordinate of a vertex. */
  datatype Vec2 = Vec2(u: real, v: real)

  const Zero: Vec3 := Vec3(0.0, 0.0, 0.0)

  /** The world-up vector glm::vec3(0, 1, 0). */
  const WorldUp: Vec3 := Vec3(0.0, 1.0, 0.0)

  /** glm::normalize, left to the caller (it needs a square root). */
  type Normalizer = Vec3 -> Vec3

  /** The rotation Camera::Rotate applies to its direction: the vector, the pitch
      axis, the pitch angle and the yaw angle (about world-up), followed by
      glm::normalize. Trigonometry is left to the caller. */
  type Rotator = (Vec3, Vec3, real, real) -> Vec3

  function Add(a: Vec3, b: Vec3): Vec3 {
    Vec3(a.x + b.x, a.y + b.y, a.z + b.z)
  }

  function Sub(a: Vec3, b: Vec3): Vec3 {
    Vec3(a.x - b.x, a.y - b.y, a.z - b.z)
  }

  function Neg(a: Vec3): Vec3 {
    Vec3(-a.x, -a.y, -a.z)
  }

  function Scale(a: Vec3, k: real): Vec3 {
    Vec3(a.x * k, a.y * k, a.z * k)
  }

  function Cross(a: Vec3, b: Vec3): Vec3 {
    Vec3(a.y * b.z - a.z * b.y, a.z * b.x - a.x * b.z, a.x * b.y - a.y * b.x)
  }

  /** Adding a difference back gives the original point: (p + d) - p == d. */
  lemma AddSubCancel(p: Vec3, d: Vec3)
    ensures Sub(Add(p, d), p) == d
  {
  }

  /** cross(-d, up) == -cross(d, up): A moves exactly opposite to D. */
  lemma CrossNegLeft(a: Vec3, b: Vec3)
    ensures Cross(Neg(a), b) == Neg(Cross(a, b))
  {
  }
}
