// The two engine math helpers the time-scale transition relies on, over `real`
// instead of single-precision floats.

module Mathf {

  /** `x` lies on the closed segment between `a` and `b`, in either order. */
  predicate Between(a: real, b: real, x: real) {
    (a <= x <= b) || (b <= x <= a)
  }

  /** `x` lies strictly inside the open segment between `a` and `b`. */
  predicate StrictlyBetween(a: real, b: real, x: real) {
    (a < x < b) || (b < x < a)
  }

  /** Mathf.Clamp01: saturates `x` into the unit interval. */
  function Clamp01(x: real): (r: real)
    ensures 0.0 <= r <= 1.0
    ensures 0.0 <= x <= 1.0 ==> r == x
    ensures x <= 0.0 ==> r == 0.0
    ensures 1.0 <= x ==> r == 1.0
  {
    if x < 0.0 then 0.0 else if x > 1.0 then 1.0 else x
  }

  /** Mathf.Lerp: linear interpolation from `a` to `b`; the engine clamps `t`
      into [0, 1] itself, so the result never leaves the segment. */
  function Lerp(a: real, b: real, t: real): (r: real)
    ensures Between(a, b, r)
    ensures t <= 0.0 ==> r == a
    ensures 1.0 <= t ==> r == b
  {
    AffineBetween(a, b, Clamp01(t));
    a + (b - a) * Clamp01(t)
  }

  /** Moving `t` forward moves the interpolated value towards `b`, never back. */
  lemma LerpMonotone(a: real, b: real, t1: real, t2: real)
    requires t1 <= t2
    ensures a <= b ==> Lerp(a, b, t1) <= Lerp(a, b, t2)
    ensures b <= a ==> Lerp(a, b, t2) <= Lerp(a, b, t1)
  {
    Clamp01Monotone(t1, t2);
    AffineMonotone(a, b, Clamp01(t1), Clamp01(t2));
  }

  /** Strictly inside the unit interval, the interpolated value is strictly
      between two distinct end points. */
  lemma LerpStrictlyBetween(a: real, b: real, t: real)
    requires a != b && 0.0 < t < 1.0
    ensures StrictlyBetween(a, b, Lerp(a, b, t))
  {
    AffineStrictlyBetween(a, b, Clamp01(t));
  }

  /** Clamp01 never reverses the order of its arguments. */
  lemma Clamp01Monotone(x: real, y: real)
    requires x <= y
    ensures Clamp01(x) <= Clamp01(y)
  {
  }

  // The interpolation formula a + (b - a) * u for an already clamped u. Each
  // proof names the factors, states the difference it needs as their product,
  // and takes the product's sign from ProductSign.

  lemma AffineBetween(a: real, b: real, u: real)
    requires 0.0 <= u <= 1.0
    ensures Between(a, b, a + (b - a) * u)
  {
    var d, v := b - a, 1.0 - u;
    ProductSign(d, u);
    ProductSign(d, v);
    assert (a + (b - a) * u) - a == d * u;
    assert b - (a + (b - a) * u) == d * v;
  }

  lemma AffineMonotone(a: real, b: real, u1: real, u2: real)
    requires u1 <= u2
    ensures a <= b ==> a + (b - a) * u1 <= a + (b - a) * u2
    ensures b <= a ==> a + (b - a) * u2 <= a + (b - a) * u1
  {
    var d, w := b - a, u2 - u1;
    ProductSign(d, w);
    assert (a + (b - a) * u2) - (a + (b - a) * u1) == d * w;
  }

  lemma AffineStrictlyBetween(a: real, b: real, u: real)
    requires a != b && 0.0 < u < 1.0
    ensures StrictlyBetween(a, b, a + (b - a) * u)
  {
    var d, v := b - a, 1.0 - u;
    ProductStrictSign(d, u);
    ProductStrictSign(d, v);
    assert (a + (b - a) * u) - a == d * u;
    assert b - (a + (b - a) * u) == d * v;
  }

  /** A product with a non-negative factor has the sign of the other factor. */
  lemma ProductSign(x: real, y: real)
    requires 0.0 <= y
    ensures 0.0 <= x ==> 0.0 <= x * y
    ensures x <= 0.0 ==> x * y <= 0.0
  {
  }

  /** A product with a positive factor has the strict sign of the other factor. */
  lemma ProductStrictSign(x: real, y: real)
    requires 0.0 < y
    ensures 0.0 < x ==> 0.0 < x * y
    ensures x < 0.0 ==> x * y < 0.0
  {
  }
}
