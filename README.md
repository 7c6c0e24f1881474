# Polygon geometry helpers

A Dafny model of the polygon helpers of an image-annotation library
(`src/geometry/polygon.js`). A polygon is an ordered list of vertices read
as a closed loop. Each loop pairs vertex `i` with a trailing index `j`. `j`
starts at `length - 1`, so the closing edge from the last vertex back to the
first is always counted. The module `Geom` (`polygon.dfy`) models:

- `computeArea`: the signed shoelace area, half the loop sum of
  `(x_j + x_i) * (y_j - y_i)`.
- `isClockwise`: a strict `> 0` test on that area.
- `computeCentroid`: the two moment sums, each divided by `6 * area`, and
  then the absolute value of each coordinate taken separately.
- `_expandTriangle` with its inner `shiftAlongAxis`, and `expandPolygon`,
  which only forwards to it. Every vertex is moved along the axis from the
  centroid to the vertex.

Each source loop is a Dafny `method` with a `while` loop.

- In `computeArea` and `computeCentroid`, the loop invariant says the
  accumulators hold the sum over the edges visited so far (`PrefixSum`). The
  postcondition equates the result with the recursive sums behind `Area` and
  `Centroid`. The three per-edge terms (area, x moment, y moment) share one
  recursive sum, `LoopSum`. Reversal negates each sum because all three terms
  are antisymmetric. Rotation leaves each sum unchanged because it is taken
  over the closed loop.
- In `_expandTriangle`, the invariant says each vertex pushed so far is its
  input vertex shifted about the one centroid. The postcondition equates the
  result with `Expanded`, the sequence comprehension of that shift.

`Math.pow(v, 2)` is `Pow2(v) = v * v`. `Math.sqrt` is a parameter
`sqrt: real -> real`. The lemmas that need its meaning require `IsSqrt(sqrt)`:
for every `v >= 0`, `sqrt(v) >= 0` and `sqrt(v)^2 == v`. The returned
`{x, y}` objects are `Point` values. The `Polygon` constructor
(`polygon.js:8-10`), which only stores its `points`, is the datatype
`Geom.Polygon`. The constructor has no behaviour beyond that, so there is no
contract to state about it.

Consequences of the code as written:

- Sign convention: the square (0,0), (10,0), (10,10), (0,10) has signed area
  -100, and `isClockwise` is false for it. Its reverse has area 100 and is
  clockwise. `SquareArea` proves this for a square of any side `a`.
- The doc comment at `polygon.js:65` says the shift goes "in/outwards", but a
  negative `delta` does not shift inward. `delta` enters the shift only
  squared, so expanding by `-d` gives the same polygon as expanding by `d`
  (`ExpandedEven`). Expanding by `d` and then by `-d` therefore moves the
  vertices out twice; it does not restore them.
- The per-coordinate absolute value in `computeCentroid` loses the sign of a
  centroid with negative coordinates. For the square with side `a < 0`, whose
  centre is `(a/2, a/2)`, the formula reports `(|a|/2, |a|/2)`
  (`SquareCentroid`).

## Model

| member | source | states |
|---|---|---|
| `Geom.ComputeArea` | src/geometry/polygon.js:20-30 | the loop with `j` trailing `i` returns half the wrap-around shoelace sum, `Area(points)`, for any number of points including none |
| `Geom.PrefixSumStep` | src/geometry/polygon.js:23-27 | one iteration adds the term of the edge from the previous vertex (the last one when `i == 0`) to vertex `i` |
| `Geom.AreaDegenerate` | src/geometry/polygon.js:20-30 | fewer than three points give area 0 |
| `Geom.AreaReverse` | src/geometry/polygon.js:20-30 | reversing the vertex order negates the signed area |
| `Geom.AreaRotate` | src/geometry/polygon.js:20-30 | starting the loop at any vertex leaves the area unchanged |
| `Geom.LoopSumReverse` | src/geometry/polygon.js:23-27 | walking the closed loop backwards negates the area sum and both moment sums |
| `Geom.LoopSumRotate` | src/geometry/polygon.js:23-27 | rotating the vertex list leaves the area sum and both moment sums unchanged |
| `Geom.IsClockwise` | src/geometry/polygon.js:38-40 | the strict `> 0` test on the area; when it is true the polygon has at least three vertices, and it is true exactly when the reversed polygon has negative area |
| `Geom.DegenerateNotClockwise` | src/geometry/polygon.js:38-40 | fewer than three points are never reported clockwise |
| `Geom.ClockwiseReverse` | src/geometry/polygon.js:38-40 | reversing a polygon of non-zero area flips `isClockwise`; a zero-area polygon is not clockwise either way |
| `Geom.SquareArea` | src/geometry/polygon.js:20-40 | the square (0,0), (a,0), (a,a), (0,a) has area `-a^2` and is not clockwise; its reverse has area `a^2` and is clockwise when `a != 0` |
| `Geom.ComputeCentroid` | src/geometry/polygon.js:47-62 | the moment loop divided by `6 * computeArea` returns `Centroid(points)`, and both coordinates are non-negative |
| `Geom.MomentStep` | src/geometry/polygon.js:53-58 | one iteration with cross term `f` adds the x and y moment terms of the edge `j -> i` |
| `Geom.CentroidReverse` | src/geometry/polygon.js:47-62 | reversing the vertices leaves the area non-zero and the centroid unchanged |
| `Geom.CentroidRotate` | src/geometry/polygon.js:47-62 | starting the loop at any vertex leaves the centroid unchanged |
| `Geom.SquareMoments` | src/geometry/polygon.js:53-58 | both moment sums of the square of side `a` are `-3 a^3` |
| `Geom.SquareCentroid` | src/geometry/polygon.js:47-62 | the square of side `a != 0` has centroid `(|a|/2, |a|/2)`, so the sign is lost when `a < 0` |
| `Geom.ShiftParts` | src/geometry/polygon.js:72-80 | the shifted vertex is `p + (|dx| sign(axis.x), |dy| sign(axis.y))`, with `dy >= 0`, `dy^2 (1 + ratio^2) == delta^2` and `dx == ratio * dy` |
| `Geom.ShiftLength` | src/geometry/polygon.js:72-80 | the displacement has squared length `delta^2` |
| `Geom.ShiftAlongAxis` | src/geometry/polygon.js:72-80 | the per-vertex shift as written, defined when `axis.y != 0`; each coordinate moves by a non-negative amount in the direction of the sign of that axis component, and not at all when that component is 0 |
| `Geom.ShiftParallel` | src/geometry/polygon.js:72-80 | the displacement is parallel to the axis from the centroid to the vertex |
| `Geom.ShiftMovesAway` | src/geometry/polygon.js:72-80 | the shifted vertex is never closer to the centroid, and strictly farther when `delta != 0` |
| `Geom.ShiftZero` | src/geometry/polygon.js:72-80 | `delta == 0` leaves the vertex where it was |
| `Geom.ShiftEven` | src/geometry/polygon.js:77-79 | shifting by `-delta` is the same as shifting by `delta` |
| `Geom.ExpandTriangle` | src/geometry/polygon.js:71-90 | returns one vertex per input vertex; output `i` is input `i` shifted about the single centroid, i.e. `Expanded(points, delta, sqrt)` |
| `Geom.ExpandPolygon` | src/geometry/polygon.js:92-94 | forwards to the triangle routine for any number of vertices and returns `Expanded(points, delta, sqrt)` |
| `Geom.ExpandedDisplacement` | src/geometry/polygon.js:82-89 | each expanded vertex lies at distance `|delta|` from its input vertex, is not closer to the centroid, and is strictly farther from it when `delta != 0` |
| `Geom.ExpandedZero` | src/geometry/polygon.js:82-89 | expanding by 0 returns the input points |
| `Geom.ExpandedEven` | src/geometry/polygon.js:82-89 | expanding by `-delta` gives the same polygon as expanding by `delta` |

## Left out

- Floating point: coordinates are exact reals. IEEE-754 rounding, NaN and Infinity are not modelled.
- Geom.ComputeCentroid: requires a non-zero area. For a zero-area input the source divides by 0 and returns NaN or Infinity coordinates, which have no counterpart in exact reals.
- Geom.ShiftAlongAxis: requires `axis.y != 0`. For a vertex level with the centroid the source divides by 0 and produces a NaN x coordinate for that vertex. When the vertex coincides with the centroid, the y coordinate is NaN as well.
- Geom.ExpandTriangle: requires `Expandable(points)`: a non-zero area and no vertex level with the centroid. The same requirement holds for `Geom.ExpandPolygon`. This rejects the whole polygon when a single vertex is level with the centroid. The source still shifts every other vertex normally in that case. For a level vertex with `axis.x != 0`, `axis.x / 0` is plus or minus Infinity, so `dy = sqrt(delta^2 / Infinity) = 0`, and `dx = Infinity * 0` is NaN. That vertex gets a NaN x and an unchanged y. If the vertex coincides with the centroid, `0 / 0` is NaN, so `dy` is NaN too and both coordinates are NaN.
- `Math.sqrt` and `Math.pow`: the library versions are not modelled. `sqrt` is a parameter with the exact square-root contract `IsSqrt`, and `pow(v, 2)` is `v * v`.
- The `goog.provide` namespace declaration has no behaviour to model.
- `expanded.push` on a fresh JavaScript array is a sequence append in the model. The array is local to the call, so no aliasing is lost.
- That `Centroid` is the true centre of mass of the polygon is not stated; only the formula the source computes, and its symmetries, are.
- The expansion is not claimed to preserve the polygon's shape or convexity; only its per-vertex properties are stated.
