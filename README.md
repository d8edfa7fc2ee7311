# Logarithmic spiral band mesh, modelled in Dafny

`line.py` builds a flat band between two logarithmic spirals.
- The edge curve `r_edge(θ) = a·e^(bθ)`.
- The center curve, which lies half a pitch further out.

The band is cut into `num_segments` quadrilateral facets over equal angle steps. The script plots them and writes them as closed polylines to a DXF file.

This project models the script from the growth rate `b` onward:
- the derivation of the scale factor `a` (line 32) and the sweep angle `θ_end` (line 36);
- the closed-form arc length `L_c(b)` of the center curve over the whole sweep `[0, θ_end]` (line 24);
- the sampling of both curves (lines 42-55);
- the two loops that assemble the segment outlines (lines 59-73 for the plot, lines 85-93 for the DXF file).

It proves, of these steps:
- the spiral meets both target pitches, and the pitch stays between them over the sweep;
- the sweep angle is positive;
- the angles run from 0 to `θ_end` in equal, increasing steps;
- every array has one entry per angle;
- the center curve lies outside the edge curve;
- there are `n` closed five-point facets in the order edge `i`, edge `i+1`, center `i+1`, center `i`, edge `i`;
- neighbouring facets share a side;
- each plot outline is exactly the corresponding DXF point list;
- the band starts at `(a, 0)`.

Modules:
- `RealFacts`: small lemmas of real arithmetic.
- `Elementary`: numpy's `exp`, `log`, `sin`, `cos` and `sqrt` appear here as function values in a datatype `Fns`. The predicate `Lawful` collects the laws of them that the model relies on: the addition law and positivity of `exp`, `exp(t) > 1` for `t > 0`, `exp(log x) = x` for `x > 0`, `sin 0 = 0`, `cos 0 = 1`, `sin² + cos² = 1`, and positivity of `sqrt`.
- `SpiralParameters`: line 24 and lines 32-36.
- `Sampling`: lines 42-55.
- `Facets`: lines 59-93.
- `LineScript`: the script from line 32 to line 93, end to end.

## Model

| member | source | states |
|---|---|---|
| SpiralParameters.CenterArcLength | line.py:17-24 | `L_c(b)`, the center-curve arc length over the whole sweep, is positive for `b > 0` exactly when `s_max > s_min` |
| SpiralParameters.PitchFormula | line.py:30-32 | the pitch at θ, `r(θ+2π) − r(θ)`, equals `a·e^(bθ)·(e^(2πb) − 1)` |
| SpiralParameters.PitchIncreasing | line.py:30-36 | for `a, b > 0` the pitch is positive and strictly increasing in θ |
| SpiralParameters.ScaleFactor | line.py:32 | `a·(e^(2πb) − 1) = s_min`, and `a > 0` exactly when `s_min > 0` |
| SpiralParameters.MinPitchAtStart | line.py:30-32 | with `a` from line 32 the pitch at angle 0 is `s_min` |
| SpiralParameters.SweepAngle | line.py:36 | for `0 < s_min < s_max` and `b > 0`, `θ_end > 0` |
| SpiralParameters.SweepEndRatio | line.py:34-36 | `e^(b·θ_end) = s_max / s_min`, so `s_min·e^(b·θ_end) = s_max` |
| SpiralParameters.MaxPitchAtEnd | line.py:30-36 | with `a` and `θ_end` from lines 32 and 36, the pitch at `θ_end` is `s_max` |
| SpiralParameters.PitchWithinBounds | line.py:30-36 | for every θ in `[0, θ_end]` the pitch lies in `[s_min, s_max]` |
| SpiralParameters.Derive | line.py:30-36 | the derived parameters keep `b`, have `a > 0` and `θ_end > 0`, and give pitch `s_min` at 0 and `s_max` at `θ_end` |
| SpiralParameters.EdgeRadiusAtStart | line.py:47 | the edge curve starts at radius `a` |
| SpiralParameters.PitchPositive | line.py:30-32 | for `a, b > 0` the pitch is positive at every angle |
| SpiralParameters.EdgeRadiusPositive | line.py:47 | for `a > 0` the edge radius is positive at every angle, for any `b` |
| SpiralParameters.EdgeRadiusIncreasing | line.py:47 | for `a, b > 0` the edge radius is positive and strictly increasing in θ |
| Sampling.AngleOrder | line.py:41-42 | the i-th of n steps of `θ_end / n` lies in `[0, θ_end]`, below the j-th for `i <= j`, strictly when `i < j` and `θ_end > 0` |
| Sampling.Angles | line.py:42 | `linspace(0, θ_end, n+1)` has `n + 1` entries, the first 0 and the last `θ_end` |
| Sampling.AnglesEquallySpaced | line.py:41-42 | consecutive angles differ by exactly `θ_end / n` |
| Sampling.AnglesOrdered | line.py:42 | all angles lie in `[0, θ_end]` and strictly increase when `θ_end > 0` |
| Sampling.EdgeRadii | line.py:47 | one edge radius per angle, entry i being `r_edge(θ_i)` |
| Sampling.EdgeRadiiIncreasing | line.py:47 | along increasing angles the edge radii are positive and strictly increasing |
| Sampling.CenterRadii | line.py:48 | one center radius per angle, and where the edge entry is `r_edge(θ_i)` the center entry exceeds it by exactly half the pitch at `θ_i` |
| Sampling.CenterOutsideEdge | line.py:46-48 | for `a, b > 0` every center radius is strictly greater than the edge radius at the same angle |
| Sampling.XCoords | line.py:52-55 | the x coordinates are index-aligned with the angles; that entry i is the x coordinate of the point with polar coordinates `(r_i, θ_i)` is stated by `Sampling.CartesianIsPolar` |
| Sampling.YCoords | line.py:52-55 | the y coordinates are index-aligned with the angles; that entry i is the y coordinate of the point with polar coordinates `(r_i, θ_i)` is stated by `Sampling.CartesianIsPolar` |
| Sampling.CartesianIsPolar | line.py:51-55 | each point `(x_i, y_i)` is the point with polar coordinates `(r_i, θ_i)`: `x_i·cos θ_i + y_i·sin θ_i = r_i`, `x_i·sin θ_i − y_i·cos θ_i = 0` and `x_i² + y_i² = r_i²`; the point at angle 0 is `(r, 0)` |
| Sampling.StartOnAxis | line.py:47-53 | the first edge point, at angle 0, is `(a, 0)` |
| Sampling.Sample | line.py:42-55 | all seven arrays have `n + 1` entries, the angles run from 0 to `θ_end`, and the first edge point is `(a, 0)` |
| Facets.Zip | line.py:86-92 | pairing x and y lists gives one point per index, carrying both coordinates |
| Facets.Facet | line.py:86-92 | a segment's outline has five vertices, the last equal to the first |
| Facets.TraceOutlines | line.py:59-73 | the plot loop yields n outlines of five x and five y values, and outline i paired up is facet i |
| Facets.BuildFacets | line.py:85-93 | the DXF loop yields n closed five-point facets, facet i in the vertex order edge i, edge i+1, center i+1, center i, edge i; consecutive facets share the side edge i+1 to center i+1 |
| Facets.Assemble | line.py:59-93 | the two loops together yield a mesh: n outlines and n facets, each outline equal to its facet, sides shared, the first facet starting at edge point 0 and the last reaching edge point n |
| LineScript.Run | line.py:30-93 | one run meets both target pitches, samples the whole sweep from 0 to `θ_end`, assembles the mesh of those samples, and starts the band at `(a, 0)` |

## Left out

- The root search for `b` (line 28, `brentq` on `L_c(b) − L_center`) is not modelled. `b > 0` is an input, and `L_center` (line 11) therefore plays no part.
- The constants of lines 9-12 are parameters of the model. The script's values (12.0, 66.0, 12 segments) are one instance of them.
- SpiralParameters.CenterArcLength: only the sign of `L_c(b)` is stated. That it equals the arc length of the center curve over the whole sweep `[0, θ_end]` is calculus outside the model. The comment on line 19 writes that integral with bounds 0 and 2π, but line 24 is the arc length over the whole sweep. The two agree only when `θ_end = 2π`.
- The script checks none of its inputs. The conditions its formulas need are therefore preconditions, not error results: `s_min > 0`, `s_max > s_min`, `b > 0` and `num_segments >= 1`.
- Floating point is not modelled. Values are real numbers: there is no IEEE rounding, no overflow of `exp` to infinity, and no NaN. `np.pi` is the real number 3.141592653589793.
- numpy's elementary functions are function values. The model assumes only the laws named in `Lawful`, not any particular implementation.
- Plotting (lines 58, 74, 76-80, 99), DXF document creation and saving (lines 83-84, 93, 95-96) and the prints (lines 38, 97) are I/O. They are not modelled beyond the data handed to them. `close=True` on line 93 is a flag of the DXF library's polyline and is not modelled.
- The unused imports of lines 4-5 are not modelled.
- Repeatability of a run follows from the model being made of functions and deterministic methods. No lemma states it separately.
