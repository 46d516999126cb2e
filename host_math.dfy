/** The math library the controller calls into. Its transcendental functions
    are not modelled: they are handed in as uninterpreted function values, and
    its two constants PI and EPSILON are handed in with them. */
module HostMath {
  import opened Vectors

  datatype MathOps = MathOps(
    pi: real,
    epsilon: real,
    atan2: (real, real) -> real,
    sqrt: real -> real,
    sin: real -> real,
    cos: real -> real,
    tan: real -> real,
    pow: (real, real) -> real,
    degsToRads: real -> real)
  {
    /** What the model assumes of the constants: a positive epsilon, small
        enough that the polar band [epsilon, pi - epsilon] is not empty. */
    predicate Valid() {
      0.0 < epsilon && epsilon < pi / 2.0
    }
  }

  function Max(a: real, b: real): (r: real)
    ensures a <= r && b <= r
    ensures r == a || r == b
  {
    if a < b then b else a
  }

  function Min(a: real, b: real): (r: real)
    ensures r <= a && r <= b
    ensures r == a || r == b
  {
    if a < b then a else b
  }

  /** Euclidean length of a vector, through the library's square root. */
  function Length(v: Vec3, m: MathOps): real {
    m.sqrt(v.x * v.x + v.y * v.y + v.z * v.z)
  }
}
