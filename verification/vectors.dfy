/**
 * Three-component vectors over the reals, axis-aligned boxes and an Option
 * type: the value types that the lander simulation is built from.
 * Floating-point rounding is not modelled; every component is a `real`.
 */
module Vectors {

  datatype Option<+T> = None | Some(value: T)

  /** A point or a vector in world space (glm::vec3 / ofVec3f). */
  datatype Vec3 = Vec3(x: real, y: real, z: real)

  const Zero: Vec3 := Vec3(0.0, 0.0, 0.0)

  function Add(a: Vec3, b: Vec3): Vec3 {
    Vec3(a.x + b.x, a.y + b.y, a.z + b.z)
  }

  function Sub(a: Vec3, b: Vec3): Vec3 {
    Vec3(a.x - b.x, a.y - b.y, a.z - b.z)
  }

  function Scale(v: Vec3, k: real): Vec3 {
    Vec3(v.x * k, v.y * k, v.z * k)
  }

  function Dot(a: Vec3, b: Vec3): real {
    a.x * b.x + a.y * b.y + a.z * b.z
  }

  /** Squared Euclidean length. */
  function Norm2(v: Vec3): real {
    Dot(v, v)
  }

  function Abs(r: real): real {
    if r < 0.0 then -r else r
  }

  /** An axis-aligned box given by its minimum and maximum corners. */
  datatype Box = Box(min: Vec3, max: Vec3)

  /** The box invariant: min <= max componentwise. */
  predicate WellFormed(b: Box) {
    b.min.x <= b.max.x && b.min.y <= b.max.y && b.min.z <= b.max.z
  }
}
