/** Lines 59-93 of line.py: each of the n segments of the band becomes a closed
    quadrilateral outline, once as two coordinate lists for the plot and once
    as a point list for the DXF polyline. */
module Facets {
  /** A vertex (x, y) of an outline. */
  datatype Point = Point(x: real, y: real)

  /** Pairs up two coordinate lists of equal length into points. */
  function Zip(xs: seq<real>, ys: seq<real>): (ps: seq<Point>)
    requires |xs| == |ys|
    ensures |ps| == |xs|
    ensures forall i :: 0 <= i < |ps| ==> ps[i].x == xs[i] && ps[i].y == ys[i]
  {
    seq(|xs|, i requires 0 <= i < |xs| => Point(xs[i], ys[i]))
  }

  /** The quadrilateral of segment i: edge point i, edge point i + 1, center
      point i + 1, center point i, and edge point i again. */
  function Facet(xEdge: seq<real>, yEdge: seq<real>, xCenter: seq<real>, yCenter: seq<real>, i: nat): (q: seq<Point>)
    requires |xEdge| == |yEdge| == |xCenter| == |yCenter| && i + 1 < |xEdge|
    ensures |q| == 5 && q[0] == q[4]
  {
    var edge, center := Zip(xEdge, yEdge), Zip(xCenter, yCenter);
    [edge[i], edge[i + 1], center[i + 1], center[i], edge[i]]
  }

  /** The x and y lists handed to the plot for one segment. */
  datatype Polyline = Polyline(xs: seq<real>, ys: seq<real>)

  /** Lines 59-73: the plot outlines, one per segment. Each outline's
      coordinates, paired up, are exactly that segment's facet. */
  method TraceOutlines(xEdge: seq<real>, yEdge: seq<real>, xCenter: seq<real>, yCenter: seq<real>, n: nat)
    returns (outlines: seq<Polyline>)
    requires |xEdge| == |yEdge| == |xCenter| == |yCenter| == n + 1
    ensures |outlines| == n
    ensures forall i :: 0 <= i < n ==>
      |outlines[i].xs| == |outlines[i].ys| == 5
      && Zip(outlines[i].xs, outlines[i].ys) == Facet(xEdge, yEdge, xCenter, yCenter, i)
  {
    outlines := [];
    for i := 0 to n
      invariant |outlines| == i
      invariant forall j :: 0 <= j < i ==>
        |outlines[j].xs| == |outlines[j].ys| == 5
        && Zip(outlines[j].xs, outlines[j].ys) == Facet(xEdge, yEdge, xCenter, yCenter, j)
    {
      var xs := [xEdge[i], xEdge[i + 1], xCenter[i + 1], xCenter[i], xEdge[i]];
      var ys := [yEdge[i], yEdge[i + 1], yCenter[i + 1], yCenter[i], yEdge[i]];
      assert Zip(xs, ys) == Facet(xEdge, yEdge, xCenter, yCenter, i);
      outlines := outlines + [Polyline(xs, ys)];
    }
  }

  /** Lines 85-93: the DXF point lists, one closed polyline per segment, in
      segment order; consecutive facets share a side. */
  method BuildFacets(xEdge: seq<real>, yEdge: seq<real>, xCenter: seq<real>, yCenter: seq<real>, n: nat)
    returns (facets: seq<seq<Point>>)
    requires |xEdge| == |yEdge| == |xCenter| == |yCenter| == n + 1
    ensures |facets| == n
    ensures forall i :: 0 <= i < n ==> facets[i] == Facet(xEdge, yEdge, xCenter, yCenter, i)
    ensures forall i :: 0 <= i < n ==> |facets[i]| == 5 && facets[i][0] == facets[i][4]
    ensures forall i :: 0 <= i && i + 1 < n ==>
      facets[i][1] == facets[i + 1][0] && facets[i][2] == facets[i + 1][3]
  {
    facets := [];
    for i := 0 to n
      invariant |facets| == i
      invariant forall j :: 0 <= j < i ==> facets[j] == Facet(xEdge, yEdge, xCenter, yCenter, j)
    {
      var pts := [
        Point(xEdge[i], yEdge[i]),
        Point(xEdge[i + 1], yEdge[i + 1]),
        Point(xCenter[i + 1], yCenter[i + 1]),
        Point(xCenter[i], yCenter[i]),
        Point(xEdge[i], yEdge[i])];
      facets := facets + [pts];
    }
  }

  /** What the two loops produce together from the sampled coordinates: n plot
      outlines and n closed DXF facets, one per segment and in segment order,
      each outline equal to its facet, consecutive facets sharing a side, the
      first facet starting at edge point 0 and the last one reaching edge
      point n. */
  predicate IsMesh(xEdge: seq<real>, yEdge: seq<real>, xCenter: seq<real>, yCenter: seq<real>, n: nat,
                   outlines: seq<Polyline>, facets: seq<seq<Point>>)
    requires |xEdge| == |yEdge| == |xCenter| == |yCenter| == n + 1
  {
    && |outlines| == n && |facets| == n
    && (forall i :: 0 <= i < n ==>
         facets[i] == Facet(xEdge, yEdge, xCenter, yCenter, i)
         && |facets[i]| == 5 && facets[i][0] == facets[i][4]
         && |outlines[i].xs| == |outlines[i].ys| == 5
         && Zip(outlines[i].xs, outlines[i].ys) == facets[i])
    && (forall i :: 0 <= i && i + 1 < n ==>
         facets[i][1] == facets[i + 1][0] && facets[i][2] == facets[i + 1][3])
    && (n > 0 ==> facets[0][0] == Point(xEdge[0], yEdge[0]) && facets[n - 1][1] == Point(xEdge[n], yEdge[n]))
  }

  /** Lines 59-93: the plot loop followed by the DXF loop. */
  method Assemble(xEdge: seq<real>, yEdge: seq<real>, xCenter: seq<real>, yCenter: seq<real>, n: nat)
    returns (outlines: seq<Polyline>, facets: seq<seq<Point>>)
    requires |xEdge| == |yEdge| == |xCenter| == |yCenter| == n + 1
    ensures IsMesh(xEdge, yEdge, xCenter, yCenter, n, outlines, facets)
  {
    outlines := TraceOutlines(xEdge, yEdge, xCenter, yCenter, n);
    facets := BuildFacets(xEdge, yEdge, xCenter, yCenter, n);
  }
}
