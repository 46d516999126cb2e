/** Two- and three-component vectors over the reals: the pointer deltas and the
    vec3 points and displacements the orbit controller works with. */
module Vectors {

  /** A screen-space pointer delta. */
  datatype Vec2 = Vec2(x: real, y: real)

  /** A point or displacement in world space. */
  datatype Vec3 = Vec3(x: real, y: real, z: real)

  const Zero: Vec3 := Vec3(0.0, 0.0, 0.0)

  function Add(a: Vec3, b: Vec3): Vec3 {
    Vec3(a.x + b.x, a.y + b.y, a.z + b.z)
  }

  function Sub(a: Vec3, b: Vec3): Vec3 {
    Vec3(a.x - b.x, a.y - b.y, a.z - b.z)
  }

  /** The vector `a` multiplied by the scalar `k`. */
  function Scale(a: Vec3, k: real): Vec3 {
    Vec3(a.x * k, a.y * k, a.z * k)
  }
}
