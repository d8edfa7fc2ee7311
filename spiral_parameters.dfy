/** The logarithmic spiral r(θ) = a·e^(bθ) of line.py and the derivation of
    its scale factor `a` and sweep angle `theta_end` from the growth rate `b`
    and the two target pitches. */
module SpiralParameters {
  import opened RealFacts
  import opened Elementary

  /** e^(bθ): the factor by which the spiral has grown at angle θ. */
  function Growth(f: Fns, b: real, theta: real): real {
    f.exp(b * theta)
  }

  /** Edge radius r_edge(θ) = a·e^(bθ). */
  function EdgeRadius(f: Fns, a: real, b: real, theta: real): real {
    a * Growth(f, b, theta)
  }

  /** Radial pitch at θ: the distance to the edge curve one full turn further out. */
  function Pitch(f: Fns, a: real, b: real, theta: real): real {
    EdgeRadius(f, a, b, theta + 2.0 * Pi) - EdgeRadius(f, a, b, theta)
  }

  /** The pitch factors as a·e^(bθ)·(e^(2πb) − 1). */
  lemma PitchFormula(f: Fns, a: real, b: real, theta: real)
    requires Lawful(f)
    ensures Pitch(f, a, b, theta) == a * Growth(f, b, theta) * (f.exp(2.0 * Pi * b) - 1.0)
  {
    ExpAdd(f, b * theta, 2.0 * Pi * b, b * (theta + 2.0 * Pi));
    FactorPitch(a, f.exp(b * theta), f.exp(2.0 * Pi * b));
  }

  /** With a > 0 and b > 0 the pitch is positive and grows strictly along the spiral. */
  lemma PitchIncreasing(f: Fns, a: real, b: real, theta1: real, theta2: real)
    requires Lawful(f) && a > 0.0 && b > 0.0 && theta1 < theta2
    ensures 0.0 < Pitch(f, a, b, theta1) < Pitch(f, a, b, theta2)
  {
    PitchFormula(f, a, b, theta1);
    PitchFormula(f, a, b, theta2);
    assert f.exp(2.0 * Pi * b) > 1.0;
    ExpMonotone(f, b * theta1, b * theta2);
    ScaledOrder(a, f.exp(2.0 * Pi * b) - 1.0, Growth(f, b, theta1), Growth(f, b, theta2));
  }

  /** The edge curve starts at radius a. */
  lemma EdgeRadiusAtStart(f: Fns, a: real, b: real)
    requires Lawful(f)
    ensures EdgeRadius(f, a, b, 0.0) == a
  {
    assert b * 0.0 == 0.0;
    ExpZero(f);
  }

  /** With a > 0 and b > 0 the edge radius is positive and grows strictly with θ. */
  lemma EdgeRadiusIncreasing(f: Fns, a: real, b: real, theta1: real, theta2: real)
    requires Lawful(f) && a > 0.0 && b > 0.0 && theta1 < theta2
    ensures 0.0 < EdgeRadius(f, a, b, theta1) < EdgeRadius(f, a, b, theta2)
  {
    ExpMonotone(f, b * theta1, b * theta2);
    ScaleStrict(a, Growth(f, b, theta1), Growth(f, b, theta2));
  }

  /** With a > 0 the edge radius is positive at every angle, whatever b. */
  lemma EdgeRadiusPositive(f: Fns, a: real, b: real, theta: real)
    requires Lawful(f) && a > 0.0
    ensures EdgeRadius(f, a, b, theta) > 0.0
  {
    assert Growth(f, b, theta) > 0.0;
    ProductSign(a, Growth(f, b, theta));
  }

  /** With a > 0 and b > 0 the pitch is positive at every angle. */
  lemma PitchPositive(f: Fns, a: real, b: real, theta: real)
    requires Lawful(f) && a > 0.0 && b > 0.0
    ensures Pitch(f, a, b, theta) > 0.0
  {
    PitchFormula(f, a, b, theta);
    assert f.exp(2.0 * Pi * b) > 1.0;
    assert Growth(f, b, theta) > 0.0;
    PositiveProduct(a, Growth(f, b, theta), f.exp(2.0 * Pi * b) - 1.0);
  }

  /** The closed-form arc length L_c(b) of the center curve over the whole
      sweep [0, θ_end]. Only its sign is stated: it is positive exactly when
      s_max > s_min. */
  function CenterArcLength(f: Fns, sMin: real, sMax: real, b: real): (len: real)
    requires Lawful(f) && b > 0.0
    ensures len > 0.0 <==> sMax > sMin
  {
    assert f.exp(2.0 * Pi * b) > 1.0 && f.sqrt(1.0 + b * b) > 0.0;
    var root, e := f.sqrt(1.0 + b * b), f.exp(2.0 * Pi * b);
    // the sign of the product, one factor at a time
    ProductSign(sMax - sMin, root);
    QuotientSign(root * (sMax - sMin), 2.0 * b);
    ProductSign(root * (sMax - sMin) / (2.0 * b), e + 1.0);
    QuotientSign(root * (sMax - sMin) / (2.0 * b) * (e + 1.0), e - 1.0);
    root * (sMax - sMin) / (2.0 * b) * (e + 1.0) / (e - 1.0)
  }

  /** a = s_min / (e^(2πb) − 1): the scale factor that makes the pitch at θ = 0 equal s_min. */
  function ScaleFactor(f: Fns, sMin: real, b: real): (a: real)
    requires Lawful(f) && b > 0.0
    ensures a * (f.exp(2.0 * Pi * b) - 1.0) == sMin
    ensures a > 0.0 <==> sMin > 0.0
  {
    assert f.exp(2.0 * Pi * b) - 1.0 > 0.0;
    QuotientSign(sMin, f.exp(2.0 * Pi * b) - 1.0);
    sMin / (f.exp(2.0 * Pi * b) - 1.0)
  }

  /** θ_end = ln(s_max / s_min) / b: the angle at which the pitch has grown to s_max. */
  function SweepAngle(f: Fns, sMin: real, sMax: real, b: real): (thetaEnd: real)
    requires Lawful(f) && b > 0.0 && 0.0 < sMin < sMax
    ensures thetaEnd > 0.0
  {
    LnPositive(f, sMax / sMin);
    f.ln(sMax / sMin) / b
  }

  /** e^(b·θ_end) == s_max / s_min, so s_min·e^(b·θ_end) == s_max. */
  lemma SweepEndRatio(f: Fns, sMin: real, sMax: real, b: real)
    requires Lawful(f) && b > 0.0 && 0.0 < sMin < sMax
    ensures Growth(f, b, SweepAngle(f, sMin, sMax, b)) == sMax / sMin
    ensures sMin * Growth(f, b, SweepAngle(f, sMin, sMax, b)) == sMax
  {
    var l := f.ln(sMax / sMin);
    CancelQuotient(l, b, SweepAngle(f, sMin, sMax, b));
    assert b * SweepAngle(f, sMin, sMax, b) == l;
    assert f.exp(b * SweepAngle(f, sMin, sMax, b)) == f.exp(l) == sMax / sMin;
    QuotientSign(sMax, sMin);
  }

  /** The inner pitch, r_edge(2π) − r_edge(0), is s_min. */
  lemma MinPitchAtStart(f: Fns, sMin: real, b: real)
    requires Lawful(f) && b > 0.0
    ensures Pitch(f, ScaleFactor(f, sMin, b), b, 0.0) == sMin
  {
    PitchFormula(f, ScaleFactor(f, sMin, b), b, 0.0);
    assert b * 0.0 == 0.0;
    ExpZero(f);
  }

  /** The pitch at the end of the sweep is s_max. */
  lemma MaxPitchAtEnd(f: Fns, sMin: real, sMax: real, b: real)
    requires Lawful(f) && b > 0.0 && 0.0 < sMin < sMax
    ensures Pitch(f, ScaleFactor(f, sMin, b), b, SweepAngle(f, sMin, sMax, b)) == sMax
  {
    SweepEndRatio(f, sMin, sMax, b);
    PitchFormula(f, ScaleFactor(f, sMin, b), b, SweepAngle(f, sMin, sMax, b));
    RatioTimesPitch(ScaleFactor(f, sMin, b), f.exp(2.0 * Pi * b) - 1.0,
                    Growth(f, b, SweepAngle(f, sMin, sMax, b)), sMin, sMax);
  }

  /** Over the whole sweep [0, θ_end] the pitch stays between s_min and s_max. */
  lemma PitchWithinBounds(f: Fns, sMin: real, sMax: real, b: real, theta: real)
    requires Lawful(f) && b > 0.0 && 0.0 < sMin < sMax
    requires 0.0 <= theta <= SweepAngle(f, sMin, sMax, b)
    ensures sMin <= Pitch(f, ScaleFactor(f, sMin, b), b, theta) <= sMax
  {
    MinPitchAtStart(f, sMin, b);
    MaxPitchAtEnd(f, sMin, sMax, b);
    if 0.0 < theta {
      PitchIncreasing(f, ScaleFactor(f, sMin, b), b, 0.0, theta);
    }
    if theta < SweepAngle(f, sMin, sMax, b) {
      PitchIncreasing(f, ScaleFactor(f, sMin, b), b, theta, SweepAngle(f, sMin, sMax, b));
    }
  }

  /** The derived shape parameters of the spiral. */
  datatype SpiralParams = SpiralParams(growthRate: real, scaleFactor: real, sweepAngle: real)

  /** Lines 32 and 36, for a growth rate b already found by the root finder. */
  function Derive(f: Fns, sMin: real, sMax: real, b: real): (p: SpiralParams)
    requires Lawful(f) && b > 0.0 && 0.0 < sMin < sMax
    ensures p.growthRate == b && p.scaleFactor > 0.0 && p.sweepAngle > 0.0
    ensures Pitch(f, p.scaleFactor, b, 0.0) == sMin
    ensures Pitch(f, p.scaleFactor, b, p.sweepAngle) == sMax
  {
    MinPitchAtStart(f, sMin, b);
    MaxPitchAtEnd(f, sMin, sMax, b);
    SpiralParams(b, ScaleFactor(f, sMin, b), SweepAngle(f, sMin, sMax, b))
  }
}
