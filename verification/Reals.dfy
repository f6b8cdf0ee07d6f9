/** Real numbers: the extremes, and the steps of multiplication and division that the proofs name. */
module Reals {
  function Max(a: real, b: real): real { if a >= b then a else b }

  function Min(a: real, b: real): real { if a <= b then a else b }

  function Abs(x: real): real { if x >= 0.0 then x else -x }

  lemma DivMonotone(x: real, y: real, d: real)
    requires d > 0.0 && x <= y
    ensures x / d <= y / d
  {
    var r, s := x / d, y / d;
    assert r * d == x && s * d == y;
    if r > s { MulStrict(s, r, d); }
  }

  lemma MulStrict(a: real, b: real, k: real)
    requires a < b && k > 0.0
    ensures a * k < b * k
  {
    assert (b - a) * k > 0.0;
  }

  lemma MulMonotone(a: real, b: real, k: real)
    requires a <= b && k >= 0.0
    ensures a * k <= b * k
  {
    assert (b - a) * k >= 0.0;
  }

  /** A quotient against a bound, without the division. */
  lemma QuotientAgainst(x: real, d: real, k: real)
    requires d > 0.0
    ensures x / d >= k <==> x >= k * d
    ensures x / d > k <==> x > k * d
  {
    var r := x / d;
    assert r * d == x;
    if r > k {
      MulStrict(k, r, d);
    } else if r < k {
      MulStrict(r, k, d);
    }
  }

  lemma Positive(a: real, b: real)
    requires a > 0.0 && b > 0.0
    ensures a * b > 0.0
  {
  }

  lemma Scale(k: real, x: real)
    requires x > 0.0
    ensures k <= 1.0 ==> k * x <= x
    ensures k < 1.0 ==> k * x < x
    ensures k > 1.0 ==> k * x > x
  {
    if k < 1.0 { assert (1.0 - k) * x > 0.0; }
    if k > 1.0 { assert (k - 1.0) * x > 0.0; }
  }

  lemma PositiveFactor(p: real, u: real)
    requires p > 0.0 && p * u > 0.0
    ensures u > 0.0
  {
  }

  lemma Quotient(k: real, e: real)
    requires e != 0.0
    ensures k * e / e == k
  {
  }

  lemma NotPositive(p: real, u: real)
    requires p > 0.0 && u <= 0.0
    ensures p * u <= 0.0
  {
    if p * u > 0.0 { PositiveFactor(p, u); }
  }

  lemma Regroup(e: real, w: real, u: real)
    ensures e * w * u == e * (w * u)
  {
  }

  lemma Undivide(a: real, b: real, q: real)
    requires b != 0.0 && q == a / b
    ensures b * q == a
  {
  }

  lemma ZeroFactor(a: real, b: real)
    requires a != 0.0 && a * b == 0.0
    ensures b == 0.0
  {
  }
}
