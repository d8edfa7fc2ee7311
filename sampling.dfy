/** Lines 42-55 of line.py: the equal-angle samples of the sweep, the edge and
    center radii at each sample, and their Cartesian coordinates. Every array
    has one entry per sample angle and is index-aligned with the angles. */
module Sampling {
  import opened RealFacts
  import opened Elementary
  import opened SpiralParameters

  /** The i-th of n equal steps from 0 towards θ_end. */
  function Angle(thetaEnd: real, n: nat, i: nat): real
    requires n >= 1
  {
    (i as real) * (thetaEnd / n as real)
  }

  /** For 0 <= i <= j <= n the i-th step lies in [0, θ_end], below the j-th,
      strictly when θ_end > 0 and i < j. */
  lemma AngleOrder(thetaEnd: real, n: nat, i: nat, j: nat)
    requires n >= 1 && i <= j <= n && thetaEnd >= 0.0
    ensures 0.0 <= Angle(thetaEnd, n, i) <= Angle(thetaEnd, n, j) <= thetaEnd
    ensures thetaEnd > 0.0 && i < j ==> Angle(thetaEnd, n, i) < Angle(thetaEnd, n, j)
  {
    var step := thetaEnd / n as real;
    assert step >= 0.0;
    assert (n as real) * step == thetaEnd;
    assert (j as real) * step - (i as real) * step == ((j - i) as real) * step;
    assert thetaEnd - (j as real) * step == ((n - j) as real) * step;
  }

  /** np.linspace(0, θ_end, n + 1): n + 1 angles from 0 to θ_end in steps of θ_end / n. */
  function Angles(thetaEnd: real, n: nat): (thetas: seq<real>)
    requires n >= 1
    ensures |thetas| == n + 1
    ensures thetas[0] == 0.0 && thetas[n] == thetaEnd
  {
    CancelQuotient(thetaEnd, n as real, thetaEnd / n as real);
    seq(n + 1, i requires 0 <= i <= n => Angle(thetaEnd, n, i))
  }

  /** Consecutive angles are exactly θ_end / n apart. */
  lemma AnglesEquallySpaced(thetaEnd: real, n: nat)
    requires n >= 1
    ensures forall i :: 0 <= i < n ==>
      Angles(thetaEnd, n)[i + 1] - Angles(thetaEnd, n)[i] == thetaEnd / n as real
  {
    var step := thetaEnd / n as real;
    forall i | 0 <= i < n
      ensures Angles(thetaEnd, n)[i + 1] - Angles(thetaEnd, n)[i] == step
    {
      assert ((i + 1) as real) * step == (i as real) * step + step;
    }
  }

  /** For a non-negative sweep every angle lies in [0, θ_end]; for a positive
      sweep the angles strictly increase. */
  lemma AnglesOrdered(thetaEnd: real, n: nat)
    requires n >= 1 && thetaEnd >= 0.0
    ensures forall i :: 0 <= i <= n ==> 0.0 <= Angles(thetaEnd, n)[i] <= thetaEnd
    ensures thetaEnd > 0.0 ==>
      forall i, j :: 0 <= i < j <= n ==> Angles(thetaEnd, n)[i] < Angles(thetaEnd, n)[j]
  {
    forall i | 0 <= i <= n
      ensures 0.0 <= Angles(thetaEnd, n)[i] <= thetaEnd
    {
      AngleOrder(thetaEnd, n, i, n);
    }
    forall i, j | 0 <= i < j <= n && thetaEnd > 0.0
      ensures Angles(thetaEnd, n)[i] < Angles(thetaEnd, n)[j]
    {
      AngleOrder(thetaEnd, n, i, j);
    }
  }

  /** Line 47: r_edge at every sample angle. */
  function EdgeRadii(f: Fns, a: real, b: real, thetas: seq<real>): (r: seq<real>)
    ensures |r| == |thetas|
    ensures forall i :: 0 <= i < |thetas| ==> r[i] == EdgeRadius(f, a, b, thetas[i])
  {
    seq(|thetas|, i requires 0 <= i < |thetas| => EdgeRadius(f, a, b, thetas[i]))
  }

  /** With a > 0 and b > 0 the edge radii are positive and, along increasing
      angles, strictly increasing. */
  lemma EdgeRadiiIncreasing(f: Fns, a: real, b: real, thetas: seq<real>)
    requires Lawful(f) && a > 0.0 && b > 0.0
    requires forall i, j :: 0 <= i < j < |thetas| ==> thetas[i] < thetas[j]
    ensures forall i :: 0 <= i < |thetas| ==> EdgeRadii(f, a, b, thetas)[i] > 0.0
    ensures forall i, j :: 0 <= i < j < |thetas| ==>
      EdgeRadii(f, a, b, thetas)[i] < EdgeRadii(f, a, b, thetas)[j]
  {
    forall i | 0 <= i < |thetas|
      ensures EdgeRadius(f, a, b, thetas[i]) > 0.0
    {
      EdgeRadiusPositive(f, a, b, thetas[i]);
    }
    forall i, j | 0 <= i < j < |thetas|
      ensures EdgeRadius(f, a, b, thetas[i]) < EdgeRadius(f, a, b, thetas[j])
    {
      EdgeRadiusIncreasing(f, a, b, thetas[i], thetas[j]);
    }
  }

  /** Line 48: the center radius is the mean of the edge radius and the edge
      radius one turn ahead, that is, the edge radius plus half a pitch. */
  function CenterRadii(f: Fns, a: real, b: real, thetas: seq<real>, edge: seq<real>): (r: seq<real>)
    requires |edge| == |thetas|
    ensures |r| == |thetas|
    ensures forall i :: 0 <= i < |thetas| && edge[i] == EdgeRadius(f, a, b, thetas[i]) ==>
      r[i] - edge[i] == Pitch(f, a, b, thetas[i]) / 2.0
  {
    seq(|thetas|, i requires 0 <= i < |thetas| =>
      0.5 * (edge[i] + EdgeRadius(f, a, b, thetas[i] + 2.0 * Pi)))
  }

  /** With a > 0 and b > 0 the center curve lies strictly outside the edge curve. */
  lemma CenterOutsideEdge(f: Fns, a: real, b: real, thetas: seq<real>)
    requires Lawful(f) && a > 0.0 && b > 0.0
    ensures forall i :: 0 <= i < |thetas| ==>
      CenterRadii(f, a, b, thetas, EdgeRadii(f, a, b, thetas))[i] > EdgeRadii(f, a, b, thetas)[i]
  {
    var edge := EdgeRadii(f, a, b, thetas);
    forall i | 0 <= i < |thetas|
      ensures CenterRadii(f, a, b, thetas, edge)[i] > edge[i]
    {
      PitchPositive(f, a, b, thetas[i]);
    }
  }

  /** Lines 52 and 54: x = r·cos θ. */
  function XCoords(f: Fns, r: seq<real>, thetas: seq<real>): (xs: seq<real>)
    requires |r| == |thetas|
    ensures |xs| == |thetas|
  {
    seq(|thetas|, i requires 0 <= i < |thetas| => r[i] * f.cos(thetas[i]))
  }

  /** Lines 53 and 55: y = r·sin θ. */
  function YCoords(f: Fns, r: seq<real>, thetas: seq<real>): (ys: seq<real>)
    requires |r| == |thetas|
    ensures |ys| == |thetas|
  {
    seq(|thetas|, i requires 0 <= i < |thetas| => r[i] * f.sin(thetas[i]))
  }

  /** Each Cartesian pair is the point with polar coordinates (r[i], θ_i): it
      lies at distance r[i] from the origin, projects onto the direction θ_i
      as r[i] and onto the perpendicular direction as 0, and the pair at
      angle 0 is (r, 0). */
  lemma CartesianIsPolar(f: Fns, r: seq<real>, thetas: seq<real>)
    requires Lawful(f) && |r| == |thetas|
    ensures forall i :: 0 <= i < |thetas| ==>
      SquaredNorm(XCoords(f, r, thetas)[i], YCoords(f, r, thetas)[i]) == r[i] * r[i]
    ensures forall i :: 0 <= i < |thetas| ==>
      XCoords(f, r, thetas)[i] * f.cos(thetas[i]) + YCoords(f, r, thetas)[i] * f.sin(thetas[i]) == r[i]
    ensures forall i :: 0 <= i < |thetas| ==>
      XCoords(f, r, thetas)[i] * f.sin(thetas[i]) - YCoords(f, r, thetas)[i] * f.cos(thetas[i]) == 0.0
    ensures forall i :: 0 <= i < |thetas| && thetas[i] == 0.0 ==>
      XCoords(f, r, thetas)[i] == r[i] && YCoords(f, r, thetas)[i] == 0.0
  {
    var xs, ys := XCoords(f, r, thetas), YCoords(f, r, thetas);
    forall i | 0 <= i < |thetas|
      ensures SquaredNorm(xs[i], ys[i]) == r[i] * r[i]
    {
      PolarRadius(f, r[i], thetas[i]);
    }
    forall i | 0 <= i < |thetas|
      ensures xs[i] * f.cos(thetas[i]) + ys[i] * f.sin(thetas[i]) == r[i]
      ensures xs[i] * f.sin(thetas[i]) - ys[i] * f.cos(thetas[i]) == 0.0
    {
      PolarRoundTrip(f, r[i], thetas[i]);
    }
    forall i | 0 <= i < |thetas| && thetas[i] == 0.0
      ensures xs[i] == r[i] && ys[i] == 0.0
    {
      assert f.cos(thetas[i]) == 1.0 && f.sin(thetas[i]) == 0.0;
    }
  }

  /** An edge curve sampled from angle 0 starts at the point (a, 0). */
  lemma StartOnAxis(f: Fns, a: real, b: real, thetas: seq<real>)
    requires Lawful(f) && |thetas| > 0 && thetas[0] == 0.0
    ensures XCoords(f, EdgeRadii(f, a, b, thetas), thetas)[0] == a
    ensures YCoords(f, EdgeRadii(f, a, b, thetas), thetas)[0] == 0.0
  {
    EdgeRadiusAtStart(f, a, b);
    CartesianIsPolar(f, EdgeRadii(f, a, b, thetas), thetas);
  }

  /** Every array computed on lines 42-55, index-aligned. */
  datatype Samples = Samples(
    thetas: seq<real>,
    edgeRadii: seq<real>,
    centerRadii: seq<real>,
    xEdge: seq<real>,
    yEdge: seq<real>,
    xCenter: seq<real>,
    yCenter: seq<real>)

  /** Lines 42-55 in order. All seven arrays have n + 1 entries, the angles run
      from 0 to θ_end, and the first edge point is (a, 0). */
  function Sample(f: Fns, a: real, b: real, thetaEnd: real, n: nat): (s: Samples)
    requires Lawful(f) && n >= 1
    ensures |s.thetas| == |s.edgeRadii| == |s.centerRadii| == n + 1
    ensures |s.xEdge| == |s.yEdge| == |s.xCenter| == |s.yCenter| == n + 1
    ensures s.thetas[0] == 0.0 && s.thetas[n] == thetaEnd
    ensures s.xEdge[0] == a && s.yEdge[0] == 0.0
  {
    var thetas := Angles(thetaEnd, n);
    var edge := EdgeRadii(f, a, b, thetas);
    var center := CenterRadii(f, a, b, thetas, edge);
    StartOnAxis(f, a, b, thetas);
    Samples(thetas, edge, center,
      XCoords(f, edge, thetas), YCoords(f, edge, thetas),
      XCoords(f, center, thetas), YCoords(f, center, thetas))
  }
}
