/** Three-component vectors of reals, standing for OpenFOAM's `vector`, with
    component access by `direction` index, the inner product `&` and the
    cross product `^`. */
module Vectors {

  datatype V3 = V3(x: real, y: real, z: real)

  const Zero: V3 := V3(0.0, 0.0, 0.0)

  /** Component `d` of `v`, written `v[d]` in the source. */
  function Get(v: V3, d: nat): real
    requires d < 3
  {
    if d == 0 then v.x else if d == 1 then v.y else v.z
  }

  /** `v` after the assignment `v[d] = r`: component `d` is `r`, the other two
      are those of `v`. */
  function Set(v: V3, d: nat, r: real): (w: V3)
    requires d < 3
    ensures Get(w, d) == r
    ensures forall e :: 0 <= e < 3 && e != d ==> Get(w, e) == Get(v, e)
  {
    if d == 0 then v.(x := r) else if d == 1 then v.(y := r) else v.(z := r)
  }

  function Add(a: V3, b: V3): V3
  {
    V3(a.x + b.x, a.y + b.y, a.z + b.z)
  }

  function Sub(a: V3, b: V3): V3
  {
    V3(a.x - b.x, a.y - b.y, a.z - b.z)
  }

  /** The product of a scalar and a vector. */
  function Scale(k: real, v: V3): V3
  {
    V3(k * v.x, k * v.y, k * v.z)
  }

  /** A vector divided by a scalar, `v/k`. */
  function Div(v: V3, k: real): V3
    requires k != 0.0
  {
    V3(v.x / k, v.y / k, v.z / k)
  }

  /** The inner product, `a & b`. */
  function Dot(a: V3, b: V3): real
  {
    a.x * b.x + a.y * b.y + a.z * b.z
  }

  /** The cross product, `a ^ b`. */
  function Cross(a: V3, b: V3): V3
  {
    V3(a.y * b.z - a.z * b.y, a.z * b.x - a.x * b.z, a.x * b.y - a.y * b.x)
  }

  /** A cross product is orthogonal to both of its factors. */
  lemma CrossOrthogonal(a: V3, b: V3)
    ensures Dot(Cross(a, b), a) == 0.0
    ensures Dot(Cross(a, b), b) == 0.0
  {
  }

  lemma DotScale(k: real, v: V3, w: V3)
    ensures Dot(Scale(k, v), w) == k * Dot(v, w)
  {
  }

  lemma DotDiv(v: V3, k: real, w: V3)
    requires k != 0.0
    ensures Dot(Div(v, k), w) == Dot(v, w) / k
  {
    assert Div(v, k) == Scale(1.0 / k, v);
    DotScale(1.0 / k, v, w);
  }
}
