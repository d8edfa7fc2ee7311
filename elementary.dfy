/** The transcendental functions the script takes from numpy (exp, log, sin,
    cos, sqrt), modelled over the reals. They are passed around as function
    values; the model assumes of them exactly the laws collected in `Lawful`,
    all of which hold of the mathematical functions. */
module Elementary {
  import opened RealFacts

  /** numpy's `np.pi`, as a real (the double nearest to pi, truncated). */
  const Pi: real := 3.141592653589793

  datatype Fns = Fns(
    exp: real -> real,
    ln: real -> real,
    sin: real -> real,
    cos: real -> real,
    sqrt: real -> real)

  /** x + y, named so that the addition law of exp below is used only where
      `ExpAdd` asks for it. */
  function Sum(x: real, y: real): real {
    x + y
  }

  /** The laws of the elementary functions the model relies on. */
  ghost predicate Lawful(f: Fns) {
    && (forall x, y :: f.exp(Sum(x, y)) == f.exp(x) * f.exp(y))
    && (forall x :: f.exp(x) > 0.0)
    && (forall x :: x > 0.0 ==> f.exp(x) > 1.0)
    && (forall x :: x > 0.0 ==> f.exp(f.ln(x)) == x)
    && f.sin(0.0) == 0.0 && f.cos(0.0) == 1.0
    && (forall x :: f.sin(x) * f.sin(x) + f.cos(x) * f.cos(x) == 1.0)
    && (forall x :: x > 0.0 ==> f.sqrt(x) > 0.0)
  }

  /** exp(z) == exp(x)·exp(y) whenever z == x + y. */
  lemma ExpAdd(f: Fns, x: real, y: real, z: real)
    requires Lawful(f) && z == x + y
    ensures f.exp(z) == f.exp(x) * f.exp(y)
  {
    assert Sum(x, y) == z;
    assert f.exp(Sum(x, y)) == f.exp(x) * f.exp(y);
  }

  lemma ExpZero(f: Fns)
    requires Lawful(f)
    ensures f.exp(0.0) == 1.0
  {
    ExpAdd(f, 0.0, 0.0, 0.0);
    PositiveIdempotentIsOne(f.exp(0.0));
  }

  /** exp is strictly increasing. */
  lemma ExpMonotone(f: Fns, x: real, y: real)
    requires Lawful(f) && x < y
    ensures f.exp(x) < f.exp(y)
  {
    var d := y - x;
    ExpAdd(f, x, d, y);
    assert f.exp(d) > 1.0;
    ProductAbove(f.exp(x), f.exp(d), f.exp(y));
  }

  /** The logarithm of a number above one is positive. */
  lemma LnPositive(f: Fns, x: real)
    requires Lawful(f) && x > 1.0
    ensures f.ln(x) > 0.0
  {
    var l := f.ln(x);
    assert f.exp(l) == x;
    if l <= 0.0 {
      ExpZero(f);
      if l < 0.0 {
        ExpMonotone(f, l, 0.0);
      }
      assert false;
    }
  }

  /** x² + y², the squared distance of (x, y) from the origin. */
  function SquaredNorm(x: real, y: real): real {
    x * x + y * y
  }

  /** The point (r·cos t, r·sin t) lies at distance |r| from the origin. */
  lemma PolarRadius(f: Fns, r: real, t: real)
    requires Lawful(f)
    ensures SquaredNorm(r * f.cos(t), r * f.sin(t)) == r * r
  {
    assert f.sin(t) * f.sin(t) + f.cos(t) * f.cos(t) == 1.0;
    PolarNorm(r, f.cos(t), f.sin(t));
  }

  /** Projecting (r·cos t, r·sin t) back onto the direction t gives r, and
      onto the direction perpendicular to t gives 0: the point lies at
      polar coordinates (r, t). */
  lemma PolarRoundTrip(f: Fns, r: real, t: real)
    requires Lawful(f)
    ensures (r * f.cos(t)) * f.cos(t) + (r * f.sin(t)) * f.sin(t) == r
    ensures (r * f.cos(t)) * f.sin(t) - (r * f.sin(t)) * f.cos(t) == 0.0
  {
    assert f.sin(t) * f.sin(t) + f.cos(t) * f.cos(t) == 1.0;
    PolarProjection(r, f.cos(t), f.sin(t));
  }
}
