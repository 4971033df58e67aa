/** The few engine math helpers the scripts rely on, in their documented
    clamped forms. Reals stand in for single-precision floats. */
module Mathf {

  /** Mathf.Clamp01: the nearest point of [0, 1]. */
  function Clamp01(x: real): (r: real)
    ensures 0.0 <= r <= 1.0
    ensures 0.0 <= x <= 1.0 ==> r == x
    ensures x < 0.0 ==> r == 0.0
    ensures x > 1.0 ==> r == 1.0
  {
    if x < 0.0 then 0.0 else if x > 1.0 then 1.0 else x
  }

  /** Mathf.Max for two arguments. */
  function Max(a: real, b: real): (r: real)
    ensures r >= a && r >= b
    ensures r == a || r == b
  {
    if a >= b then a else b
  }

  /** True when v lies on the closed segment between a and b, in either order. */
  predicate Between(a: real, b: real, v: real)
  {
    (a <= v <= b) || (b <= v <= a)
  }

  /** Mathf.Lerp: a + (b - a) * Clamp01(t), so the result never leaves the segment [a, b]. */
  function Lerp(a: real, b: real, t: real): (r: real)
    ensures Between(a, b, r)
    ensures t <= 0.0 ==> r == a
    ensures t >= 1.0 ==> r == b
  {
    var c := Clamp01(t);
    StepWithinSegment(a, b, c);
    a + (b - a) * c
  }

  /** Mathf.InverseLerp: where v sits on [a, b] as a fraction clamped to [0, 1];
      0 when the segment is degenerate. */
  function InverseLerp(a: real, b: real, v: real): (r: real)
    ensures 0.0 <= r <= 1.0
    ensures a == b ==> r == 0.0
    ensures v == a ==> r == 0.0
    ensures a != b && v == b ==> r == 1.0
  {
    if a != b then
      SelfQuotient(b - a);
      Clamp01((v - a) / (b - a))
    else 0.0
  }

  /** Going a fraction c in [0, 1] of the way from a to b stays on the segment. */
  lemma StepWithinSegment(a: real, b: real, c: real)
    requires 0.0 <= c <= 1.0
    ensures Between(a, b, a + (b - a) * c)
  {
    var d := b - a;
    if d >= 0.0 {
      ProductNonNegative(d, c);
      ProductNonNegative(d, 1.0 - c);
    } else {
      ProductNonNegative(-d, c);
      ProductNonNegative(-d, 1.0 - c);
    }
  }

  lemma ProductNonNegative(x: real, y: real)
    requires x >= 0.0 && y >= 0.0
    ensures x * y >= 0.0
  {
  }

  /** A quotient x / d with x between 0 and d lies in [0, 1]. */
  lemma QuotientWithinUnit(x: real, d: real)
    requires d != 0.0 && ((0.0 <= x <= d) || (d <= x <= 0.0))
    ensures 0.0 <= x / d <= 1.0
  {
  }

  lemma SelfQuotient(x: real)
    requires x != 0.0
    ensures x / x == 1.0
  {
  }

  lemma QuotientOfProduct(x: real, d: real, c: real)
    requires d != 0.0 && x == d * c
    ensures x / d == c
  {
  }

  /** InverseLerp undoes Lerp on a proper segment: it recovers the clamped parameter. */
  lemma InverseLerpOfLerp(a: real, b: real, t: real)
    requires a != b
    ensures InverseLerp(a, b, Lerp(a, b, t)) == Clamp01(t)
  {
    var c := Clamp01(t);
    var v := Lerp(a, b, t);
    assert v - a == (b - a) * c;
    QuotientOfProduct(v - a, b - a, c);
    assert InverseLerp(a, b, v) == Clamp01(c);
  }

  /** Lerp undoes InverseLerp for every point of the segment, degenerate or not. */
  lemma LerpOfInverseLerp(a: real, b: real, v: real)
    requires Between(a, b, v)
    ensures Lerp(a, b, InverseLerp(a, b, v)) == v
  {
    if a != b {
      var q := (v - a) / (b - a);
      QuotientWithinUnit(v - a, b - a);
      assert InverseLerp(a, b, v) == q;
      assert (b - a) * q == v - a;
    }
  }
}
