/**
 * Control points and evaluation results of the Bézier library.
 *
 * The library receives every control point as an array of numbers and reads
 * coordinate 0 (x), 1 (y) and, in the 3D functions, 2 (z); it answers with a
 * fresh `{x, y}` or `{x, y, z}` object. Numbers are modelled as exact reals.
 */
module Points {

  /** A control point: its coordinates, x first. */
  type Point = seq<real>

  /** The `{x, y}` object returned by the 2D evaluators. */
  datatype Vec2 = Vec2(x: real, y: real)

  /** The `{x, y, z}` object returned by the 3D evaluators. */
  datatype Vec3 = Vec3(x: real, y: real, z: real)

  /** Every point of `pts` has at least `d` coordinates. */
  predicate HasDim(pts: seq<Point>, d: nat)
  {
    forall i :: 0 <= i < |pts| ==> |pts[i]| >= d
  }

  /** Coordinate `c` of every point, in order. */
  function Coord(pts: seq<Point>, c: nat): (v: seq<real>)
    requires HasDim(pts, c + 1)
    ensures |v| == |pts|
    ensures forall i :: 0 <= i < |pts| ==> v[i] == pts[i][c]
  {
    seq(|pts|, i requires 0 <= i < |pts| => pts[i][c])
  }

  /** The points with only their first `d` coordinates kept (z dropped for d = 2). */
  function Truncate(pts: seq<Point>, d: nat): (r: seq<Point>)
    requires HasDim(pts, d)
    ensures |r| == |pts| && HasDim(r, d)
    ensures forall i :: 0 <= i < |pts| ==> r[i] == pts[i][..d]
  {
    seq(|pts|, i requires 0 <= i < |pts| => pts[i][..d])
  }

  /** The row has at least `m` points, and each of the first `m` has at least `d` coordinates. */
  predicate RowHasDim(row: seq<Point>, m: nat, d: nat)
  {
    m <= |row| && forall j :: 0 <= j < m ==> |row[j]| >= d
  }

  /**
   * A grid of control points, row by row, of which the first `m` points of
   * every row are read and have at least `d` coordinates each.
   */
  predicate GridCovers(grid: seq<seq<Point>>, m: nat, d: nat)
  {
    forall i :: 0 <= i < |grid| ==> RowHasDim(grid[i], m, d)
  }
}
