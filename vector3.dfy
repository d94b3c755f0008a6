/** Unity's `Vector3` value type, with exact `real` components in place of
    32-bit floats, and the component-wise product `Vector3.Scale`. */
module Vectors {

  datatype Vector3 = Vector3(x: real, y: real, z: real)

  /** The zero vector, `Vector3.zero`. */
  const Zero: Vector3 := Vector3(0.0, 0.0, 0.0)

  /** `Vector3.Scale(a, b)`: every component of `a` multiplied by the
      matching component of `b`. */
  function Scale(a: Vector3, b: Vector3): Vector3 {
    Vector3(a.x * b.x, a.y * b.y, a.z * b.z)
  }

  /** The sign of a component: 1 if strictly positive, -1 if strictly
      negative, 0 if zero. */
  function Sign(c: real): int {
    if c > 0.0 then 1 else if c < 0.0 then -1 else 0
  }

  /** Every component of `a` has the same sign as the matching one of `b`. */
  predicate SameSigns(a: Vector3, b: Vector3) {
    Sign(a.x) == Sign(b.x) && Sign(a.y) == Sign(b.y) && Sign(a.z) == Sign(b.z)
  }
}
