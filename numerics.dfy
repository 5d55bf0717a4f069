/** The elementary functions the three programs call (`Foam::exp`, `sin`,
    `cos`, `atan`, `sqrt`), passed in as a record of total functions on the
    reals. None of them is constrained, so every property proved here holds
    whatever they compute. */
module Numerics {
  import opened Vectors

  datatype Math = Math(
    exp: real -> real,
    sin: real -> real,
    cos: real -> real,
    atan: real -> real,
    sqrt: real -> real)

  /** `constant::mathematical::pi`, the value of M_PI. */
  const Pi: real := 3.14159265358979323846

  /** `sqr`. */
  function Sqr(t: real): real
  {
    t * t
  }

  /** `mag(v)`, the length of `v`: the square root of `v & v`. */
  function Mag(m: Math, v: V3): real
  {
    m.sqrt(Dot(v, v))
  }
}
