/** Facts of real arithmetic used by the spiral proofs. They are stated
    apart from the laws of the elementary functions so that each nonlinear
    step is proved in a context free of quantifiers. */
module RealFacts {

  lemma PositiveIdempotentIsOne(e: real)
    requires e > 0.0 && e == e * e
    ensures e == 1.0
  {
  }

  lemma ProductAbove(p: real, q: real, r: real)
    requires p > 0.0 && q > 1.0 && r == p * q
    ensures r > p
  {
    assert r - p == p * (q - 1.0);
  }

  lemma FactorPitch(a: real, u: real, v: real)
    ensures a * (u * v) - a * u == a * u * (v - 1.0)
  {
  }

  lemma ScaledOrder(a: real, k: real, e1: real, e2: real)
    requires a > 0.0 && k > 0.0 && 0.0 < e1 < e2
    ensures 0.0 < a * e1 * k < a * e2 * k
  {
    assert a * k > 0.0;
    assert a * e1 * k == (a * k) * e1 && a * e2 * k == (a * k) * e2;
    assert (a * k) * e2 - (a * k) * e1 == (a * k) * (e2 - e1);
  }

  lemma ScaleStrict(a: real, e1: real, e2: real)
    requires a > 0.0 && 0.0 < e1 < e2
    ensures 0.0 < a * e1 < a * e2
  {
    assert a * e2 - a * e1 == a * (e2 - e1);
  }

  lemma ProductSign(x: real, k: real)
    requires k > 0.0
    ensures x * k > 0.0 <==> x > 0.0
    ensures k * x > 0.0 <==> x > 0.0
  {
  }

  lemma QuotientSign(s: real, d: real)
    requires d > 0.0
    ensures (s / d) * d == s
    ensures s / d > 0.0 <==> s > 0.0
  {
  }

  lemma CancelQuotient(l: real, b: real, t: real)
    requires b > 0.0 && t == l / b
    ensures b * t == l
  {
  }

  lemma RatioTimesPitch(a: real, k: real, e: real, sMin: real, sMax: real)
    requires sMin > 0.0 && e == sMax / sMin && a * k == sMin
    ensures a * e * k == sMax
  {
    assert a * e * k == (a * k) * e;
  }

  lemma PolarNorm(r: real, c: real, s: real)
    requires s * s + c * c == 1.0
    ensures (r * c) * (r * c) + (r * s) * (r * s) == r * r
  {
    assert (r * c) * (r * c) + (r * s) * (r * s) == r * r * (s * s + c * c);
  }

  lemma PolarProjection(r: real, c: real, s: real)
    requires s * s + c * c == 1.0
    ensures (r * c) * c + (r * s) * s == r
    ensures (r * c) * s - (r * s) * c == 0.0
  {
    assert (r * c) * c + (r * s) * s == r * (s * s + c * c);
    assert (r * c) * s == (r * s) * c;
  }

  lemma PositiveProduct(x: real, y: real, z: real)
    requires x > 0.0 && y > 0.0 && z > 0.0
    ensures x * y * z > 0.0
  {
    assert x * y > 0.0;
  }
}
