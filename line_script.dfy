/** The script line.py from line 32 on, for a growth rate b already found:
    derive a and θ_end, sample both curves, and assemble the segment outlines
    for the plot and the closed polylines for the DXF file. */
module LineScript {
  import opened Elementary
  import opened SpiralParameters
  import opened Sampling
  import opened Facets

  /** One run of the script. The spiral meets both target pitches, the samples
      span the whole sweep, the outlines and facets form the mesh of those
      samples, and the band starts at the point (a, 0). */
  method Run(f: Fns, sMin: real, sMax: real, b: real, n: nat)
    returns (p: SpiralParams, s: Samples, outlines: seq<Polyline>, facets: seq<seq<Point>>)
    requires Lawful(f) && 0.0 < sMin < sMax && b > 0.0 && n >= 1
    ensures p.growthRate == b && p.scaleFactor > 0.0 && p.sweepAngle > 0.0
    ensures Pitch(f, p.scaleFactor, b, 0.0) == sMin
    ensures Pitch(f, p.scaleFactor, b, p.sweepAngle) == sMax
    ensures s == Sample(f, p.scaleFactor, b, p.sweepAngle, n)
    ensures s.thetas[0] == 0.0 && s.thetas[n] == p.sweepAngle
    ensures IsMesh(s.xEdge, s.yEdge, s.xCenter, s.yCenter, n, outlines, facets)
    ensures facets[0][0] == Point(p.scaleFactor, 0.0)
  {
    p := Derive(f, sMin, sMax, b);
    s := Sample(f, p.scaleFactor, b, p.sweepAngle, n);
    outlines, facets := Assemble(s.xEdge, s.yEdge, s.xCenter, s.yCenter, n);
  }
}
