# math-bezier in Dafny

A Dafny model of the Bézier curve and surface evaluators in `index.js` of
math-bezier, with proofs of what the evaluators compute.

- **Fixed-degree curves.** `bezierCurveQuadratic` … `bezierCurveSextic` are
  closed-form blends of 3 to 7 two-dimensional control points, with the
  binomial coefficients written in as literals. They are modelled as pure
  functions in `fixed_degree.dfy`.
- **General curves.** `bezierCurve2D` and `bezierCurve3D` take any number of
  control points. One loop keeps a running binomial coefficient `term` and
  accumulates every point weighted by `term * (1 - t)^(n - p) * t^p`. They are
  modelled as methods with that loop in `curves.dfy`.
- **Surfaces.** `bezierSurface2D` and `bezierSurface3D` first fill two arrays
  with the Bernstein values in t (one per row) and in u (one per column). A
  nested loop then accumulates every grid point weighted by the product of
  its two values. They are modelled as methods in `surfaces.dfy`:
  - `BernsteinValues` is the array-filling loop, which the source writes out twice in each surface evaluator.
  - `AddRow2` / `AddRow3` are the inner loop over one row.

Numbers are exact reals. `Math.pow` with a natural exponent is `Bernstein.Pow`.
A control point is a `seq<real>` (the JavaScript array). The `{x, y}` and
`{x, y, z}` results are the datatypes `Vec2` and `Vec3`.

Every evaluator is proved against one mathematical definition:

- `Bernstein.Blend(t, v)` weights value `v[p]` by the Bernstein weight
  `C(n, p) (1 - t)^(n - p) t^p` with `n = |v| - 1`.
- The curve point applies this blend to each coordinate (`Curves.CurvePoint2`).
- The surface point (`Surfaces.SurfacePoint2`) is the double sum of the nested
  loop over the Bernstein weights. `Surfaces.SurfaceCoord` proves it is the
  blend in t of the rows' blends in u.

The proved properties:

- The loops compute exactly these definitions.
- The fixed-degree functions agree with the general curve.
- Curves (2D and 3D) and surfaces interpolate their end or corner points.
- The weights sum to one, so a constant grid gives that constant.
- A curve (2D and 3D) is symmetric under reversal.
- A 2D curve is affine invariant.
- A surface is the curve (in t) through the rows' curves (in u).
- A single-row surface is the curve of that row, and a single-column surface
  (2D and 3D) is the curve through that column.
- The 3D evaluators reduce to the 2D ones when z is dropped.

Inputs the source cannot handle become preconditions:

- a point with too few coordinates;
- an empty grid;
- rows shorter than the row the column count comes from.

`bezierSurface3D` takes its column count from `points[2]`, not from
`points[0]` as `bezierSurface2D` does. Grids with fewer than three rows are
therefore outside its precondition. On them the source reads `points[2]` of a
too-short array and fails. On a grid whose rows 0 and 2 have the same length,
`Surfaces.SurfaceProjects` shows that the two surface evaluators agree on x
and y.

## Model

| member | source | states |
|---|---|---|
| FixedDegree.CurveQuadratic | index.js:7-13 | the 3-point curve starts at point1 when t = 0 and ends at point3 when t = 1 |
| FixedDegree.CurveCubic | index.js:17-26 | the 4-point curve starts at point1 when t = 0 and ends at point4 when t = 1 |
| FixedDegree.CurveQuartic | index.js:30-42 | the 5-point curve starts at point1 when t = 0 and ends at point5 when t = 1 |
| FixedDegree.CurveQuintic | index.js:46-59 | the 6-point curve starts at point1 when t = 0 and ends at point6 when t = 1 |
| FixedDegree.CurveSextic | index.js:63-77 | the 7-point curve starts at point1 when t = 0 and ends at point7 when t = 1 |
| FixedDegree.QuadraticWeights | index.js:8-10 | the literal weights (1 - t)^2, 2 (1 - t) t, t^2 are the Bernstein weights of degree 2 |
| FixedDegree.CubicWeights | index.js:18-23 | the literal weights u^3, 3 u^2 t, 3 u t^2, t^3 are the Bernstein weights of degree 3 |
| FixedDegree.QuarticWeights | index.js:31-39 | the weights built from u2 and t2 are the Bernstein weights of degree 4 |
| FixedDegree.QuinticWeights | index.js:47-56 | the weights built from u2 and t2 are the Bernstein weights of degree 5 |
| FixedDegree.SexticWeights | index.js:64-74 | the weights built from u2 and t2 are the Bernstein weights of degree 6 |
| FixedDegree.QuadraticIsBezier | index.js:7-13 | `bezierCurveQuadratic` equals the general Bézier curve (`bezierCurve2D`'s result) of its 3 points |
| FixedDegree.CubicIsBezier | index.js:17-26 | `bezierCurveCubic` equals the general Bézier curve of its 4 points |
| FixedDegree.QuarticIsBezier | index.js:30-42 | `bezierCurveQuartic` equals the general Bézier curve of its 5 points |
| FixedDegree.QuinticIsBezier | index.js:46-59 | `bezierCurveQuintic` equals the general Bézier curve of its 6 points |
| FixedDegree.SexticIsBezier | index.js:63-77 | `bezierCurveSextic` equals the general Bézier curve of its 7 points |
| FixedDegree.QuadraticConstant | index.js:7-13 | partition of unity: `bezierCurveQuadratic` with all 3 points equal to q returns q at every t |
| FixedDegree.CubicConstant | index.js:17-26 | partition of unity: `bezierCurveCubic` with all 4 points equal to q returns q at every t |
| FixedDegree.QuarticConstant | index.js:30-42 | partition of unity: `bezierCurveQuartic` with all 5 points equal to q returns q at every t |
| FixedDegree.QuinticConstant | index.js:46-59 | partition of unity: `bezierCurveQuintic` with all 6 points equal to q returns q at every t |
| FixedDegree.SexticConstant | index.js:63-77 | partition of unity: `bezierCurveSextic` with all 7 points equal to q returns q at every t |
| Bernstein.NextCoefficient | index.js:109 | `term *= (n - p) / (p + 1)` takes C(n, p) to C(n, p + 1), and to 0 after the last index |
| Bernstein.PartitionOfUnity | index.js:106 | the n + 1 Bernstein weights of degree n sum to 1 at every t |
| Curves.CurveWeight | index.js:106 | with `term` = C(n, p) and u = 1 - t, `term * u^(n - p) * t^p` is the Bernstein weight of index p |
| Curves.Curve2D | index.js:96-113 | the loop returns the Bézier curve point: x and y are the Bernstein blends of the points' x and y (no points give (0, 0)) |
| Curves.Curve3D | index.js:131-150 | the loop returns the 3D Bézier curve point: x, y and z are the Bernstein blends of the coordinates |
| Curves.CurveStart | index.js:96-113 | at t = 0 the curve is its first control point |
| Curves.CurveEnd | index.js:96-113 | at t = 1 the curve is its last control point |
| Curves.CurveSingle | index.js:96-113 | a single control point gives that point at every t |
| Curves.CurveConstant | index.js:96-113 | control points that are all (cx, cy) give (cx, cy) at every t |
| Curves.CurveReverse | index.js:96-113 | the reversed control points at 1 - t give the same point as the points at t |
| Curves.CurveAffine | index.js:96-113 | applying an affine map to every control point applies it to the curve point |
| Curves.AffineCoord | index.js:107-108 | one coordinate of the affine invariance: a coordinate that is a x + b y + e at every point blends to a X + b Y + e |
| Curves.CurveStart3 | index.js:131-150 | at t = 0 the 3D curve is its first control point |
| Curves.CurveEnd3 | index.js:131-150 | at t = 1 the 3D curve is its last control point |
| Curves.CurveSingle3 | index.js:131-150 | a single 3D control point gives that point at every t |
| Curves.CurveConstant3 | index.js:131-150 | control points that are all (cx, cy, cz) give (cx, cy, cz) at every t |
| Curves.CurveReverse3 | index.js:131-150 | the reversed 3D control points at 1 - t give the same point as the points at t |
| Curves.Curve3DProjects | index.js:131-150 | dropping z from the control points of `bezierCurve3D` gives `bezierCurve2D`, equal to the 3D result's x and y |
| Surfaces.BernsteinValues | index.js:181-186 | the filled array is exactly the Bernstein weights of degree count - 1 at t, index by index |
| Surfaces.Surface2D | index.js:169-205 | the nested loops return the surface point: every grid point (p1, p2) weighted by B(n1, p1, t) B(n2, p2, u), n2 from row 0 |
| Surfaces.AddRow2 | index.js:197-201 | the inner loop adds to (x, y) the first m points of one row, weighted by the row's value times each column's value |
| Surfaces.Surface3D | index.js:209-247 | the nested loops return the 3D surface point, with the column count taken from row 2 |
| Surfaces.AddRow3 | index.js:238-243 | the inner loop of the 3D surface adds one row's weighted points to (x, y, z) |
| Surfaces.RowTermsFactor | index.js:197-201 | one row's terms are the row's weight times the row's weighted sum |
| Surfaces.GridTermsFactor | index.js:196-202 | the double sum of the nested loop is a weighted sum, by the row weights, of the rows' weighted sums |
| Surfaces.SurfaceCoord | index.js:196-202 | each surface coordinate is the Bernstein blend in t of the rows' Bernstein blends in u |
| Surfaces.SurfaceOfCurves | index.js:169-205 | the 2D surface at (t, u) is the 2D curve at t through the points at u of the rows' curves |
| Surfaces.SurfaceOfCurves3 | index.js:209-247 | the 3D surface at (t, u) is the 3D curve at t through the points at u of the rows' curves |
| Surfaces.SurfaceSingleRow | index.js:169-205 | a grid of one row gives the 2D curve of that row at u, whatever t is |
| Surfaces.SurfaceSingleColumn | index.js:169-205 | a grid with one column gives the 2D curve in t through the rows' first points, whatever u is |
| Surfaces.SurfaceSingleColumn3 | index.js:209-247 | a grid with one column gives the 3D curve in t through the rows' first points, whatever u is |
| Surfaces.CornerCoord | index.js:196-202 | at a corner of the unit square, a surface coordinate is that coordinate of the corner grid point |
| Surfaces.SurfaceCorners | index.js:169-205 | the 2D surface passes through its four corner control points |
| Surfaces.SurfaceCorners3 | index.js:209-247 | the 3D surface passes through its four corner control points |
| Surfaces.ConstantCoord | index.js:196-202 | a coordinate that is k at every grid point read is k on the whole surface |
| Surfaces.SurfaceConstant | index.js:169-205 | a grid whose points are all (cx, cy) gives (cx, cy) at every (t, u) |
| Surfaces.SurfaceConstant3 | index.js:209-247 | a grid whose points are all (cx, cy, cz) gives (cx, cy, cz) at every (t, u) |
| Surfaces.SurfaceProjects | index.js:169-247 | on a grid whose rows 0 and 2 have the same length, `bezierSurface2D` (columns from row 0) gives the x and y of `bezierSurface3D` (columns from row 2) |

## Left out

- IEEE-754 doubles: the model computes with exact reals. Rounding of `Math.pow`, of the running `term` and of the sums is not modelled. Infinities and NaN are not modelled either.
- The `exports.*` assignments and the module object: every evaluator is a Dafny member of its own.
- Malformed arguments become preconditions. These are points with fewer coordinates than the function reads, missing points, an empty surface grid, a surface grid with fewer than three rows for `bezierSurface3D`, and rows shorter than the column count. The model does not say what JavaScript does with `undefined` coordinates (NaN results or a TypeError).
- The growable JavaScript arrays `bernsteinValues1` / `bernsteinValues2` are fresh Dafny arrays of the final length.
- The complexity remarks in the doc comments are not modelled.
- The source's range remarks, t and u in [0, 1] and coordinates in ]-Infinity, Infinity[, are not preconditions. The model holds for every real t and u, because the source does not check them.
- Affine invariance is stated for 2D curves only. The 3D curves and the surfaces carry the other curve properties (end points, corners, partition of unity, reversal for 3D curves) but no affine lemma.
