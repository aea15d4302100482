/**
 * The Bézier surface evaluators `bezierSurface2D` and `bezierSurface3D`: the
 * control points form a grid of rows; the Bernstein weights in t (one per row)
 * and in u (one per column) are precomputed into two arrays, and a nested loop
 * accumulates every control point weighted by the product of its two weights.
 */
module Surfaces {
  import opened Points
  import opened Sums
  import opened Bernstein
  import opened Curves

  /**
   * The first `k` terms of one row of the surface sum for coordinate `c`:
   * (a w[0]) row[0][c] + ... + (a w[k - 1]) row[k - 1][c], `a` being the row's weight.
   */
  function RowTerms(a: real, w: seq<real>, row: seq<Point>, c: nat, k: nat): real
    requires k <= |w| && RowHasDim(row, k, c + 1)
  {
    if k == 0 then 0.0 else RowTerms(a, w, row, c, k - 1) + (a * w[k - 1]) * row[k - 1][c]
  }

  /**
   * The first `k` rows of the surface sum for coordinate `c`: the weights `w1`
   * go with the rows and `w2` with the first `m` columns.
   */
  function GridTerms(w1: seq<real>, w2: seq<real>, grid: seq<seq<Point>>, m: nat, c: nat, k: nat): real
    requires k <= |w1| && k <= |grid| && m <= |w2| && GridCovers(grid, m, c + 1)
  {
    if k == 0 then 0.0 else GridTerms(w1, w2, grid, m, c, k - 1) + RowTerms(w1[k - 1], w2, grid[k - 1], c, m)
  }

  /**
   * Coordinate `c` of the Bézier surface at (t, u) over the first `m` columns
   * of the grid: the point in row p1 and column p2 weighted by the Bernstein
   * weight of index p1 in t (degree |grid| - 1) times that of index p2 in u (degree m - 1).
   */
  function SurfaceBlend(t: real, u: real, grid: seq<seq<Point>>, m: nat, c: nat): real
    requires GridCovers(grid, m, c + 1)
  {
    GridTerms(Weights(|grid|, t), Weights(m, u), grid, m, c, |grid|)
  }

  /** The point at (t, u) of the 2D Bézier surface whose grid has `m` columns. */
  function SurfacePoint2(t: real, u: real, grid: seq<seq<Point>>, m: nat): Vec2
    requires GridCovers(grid, m, 2)
  {
    CoversWeaken(grid, m, 2, 1);
    Vec2(SurfaceBlend(t, u, grid, m, 0), SurfaceBlend(t, u, grid, m, 1))
  }

  /** The point at (t, u) of the 3D Bézier surface whose grid has `m` columns. */
  function SurfacePoint3(t: real, u: real, grid: seq<seq<Point>>, m: nat): Vec3
    requires GridCovers(grid, m, 3)
  {
    CoversWeaken(grid, m, 3, 1);
    CoversWeaken(grid, m, 3, 2);
    Vec3(SurfaceBlend(t, u, grid, m, 0), SurfaceBlend(t, u, grid, m, 1), SurfaceBlend(t, u, grid, m, 2))
  }

  /** A grid whose points have `d` coordinates also has points with any fewer. */
  lemma CoversWeaken(grid: seq<seq<Point>>, m: nat, d: nat, e: nat)
    requires GridCovers(grid, m, d) && e <= d
    ensures GridCovers(grid, m, e)
  {
  }

  // ---------------------------------------------------------------------------
  // The evaluators

  /**
   * The precomputed Bernstein values of the surface loops: for p from 0 to
   * n = count - 1, `term * Math.pow(t, p) * Math.pow(1 - t, n - p)` with the
   * running `term` equal to C(n, p), so the array holds the weights of degree n.
   */
  method BernsteinValues(count: nat, t: real) returns (b: array<real>)
    ensures fresh(b)
    ensures b[..] == Weights(count, t)
  {
    b := new real[count];
    var n := count - 1;
    var term := 1.0;
    var p := 0;
    while p <= n
      invariant 0 <= p <= count
      invariant p <= n ==> term == Binom(n, p) as real
      invariant b[..p] == Weights(count, t)[..p]
    {
      b[p] := term * Pow(t, p) * Pow(1.0 - t, n - p);
      ValueAt(n, p, t, term);
      assert b[p] == Weights(count, t)[p];
      assert b[..p + 1] == b[..p] + [b[p]];
      term := NextCoefficient(n, p, term);
      p := p + 1;
    }
  }

  /** One precomputed value: C(n, p) t^p (1 - t)^(n - p) is the Bernstein weight of index p. */
  lemma ValueAt(n: nat, p: nat, t: real, term: real)
    requires p <= n
    ensures term == Binom(n, p) as real ==> term * Pow(t, p) * Pow(1.0 - t, n - p) == Weights(n + 1, t)[p]
  {
    RowAt(n, t, p);
    Reorder(term, Pow(t, p), Pow(1.0 - t, n - p));
  }

  /** Plain real arithmetic: a product of three factors in another order (kept apart so the solver sees it on plain reals). */
  lemma Reorder(a: real, b: real, c: real)
    ensures a * b * c == a * c * b
  {
  }

  /**
   * `bezierSurface2D`: n1 + 1 rows and n2 + 1 columns, n2 taken from the first
   * row; the result is the surface point at (t, u). Rows longer than the first
   * are read only up to its length; a first row that is empty gives (0, 0).
   */
  method Surface2D(t: real, u: real, points: seq<seq<Point>>) returns (r: Vec2)
    requires |points| >= 1 && GridCovers(points, |points[0]|, 2)
    ensures r == SurfacePoint2(t, u, points, |points[0]|)
  {
    var x, y := 0.0, 0.0;
    var n1 := |points| - 1;
    var n2 := |points[0]| - 1;
    var values1 := BernsteinValues(n1 + 1, t);
    var values2 := BernsteinValues(n2 + 1, u);
    ghost var m := n2 + 1;
    CoversWeaken(points, m, 2, 1);
    ghost var w1, w2 := values1[..], values2[..];
    var p1 := 0;
    while p1 <= n1
      invariant 0 <= p1 <= n1 + 1
      invariant values1[..] == w1 && values2[..] == w2
      invariant x == GridTerms(w1, w2, points, m, 0, p1)
      invariant y == GridTerms(w1, w2, points, m, 1, p1)
    {
      assert values1[p1] == w1[p1];
      x, y := AddRow2(x, y, values1[p1], values2, points[p1], n2 + 1);
      p1 := p1 + 1;
    }
    r := Vec2(x, y);
  }

  /**
   * The inner loop of `bezierSurface2D` over one row: every point p2 of the
   * row, weighted by the row's value `a1` times the column's value, is added
   * to (x, y).
   */
  method AddRow2(x: real, y: real, a1: real, values2: array<real>, row: seq<Point>, m: nat)
    returns (x': real, y': real)
    requires m <= values2.Length && RowHasDim(row, m, 2)
    ensures x' == x + RowTerms(a1, values2[..], row, 0, m)
    ensures y' == y + RowTerms(a1, values2[..], row, 1, m)
  {
    x', y' := x, y;
    ghost var w2 := values2[..];
    var p2 := 0;
    while p2 < m
      invariant 0 <= p2 <= m
      invariant x' == x + RowTerms(a1, w2, row, 0, p2)
      invariant y' == y + RowTerms(a1, w2, row, 1, p2)
    {
      var a := a1 * values2[p2];
      assert values2[p2] == w2[p2];
      x' := x' + a * row[p2][0];
      y' := y' + a * row[p2][1];
      p2 := p2 + 1;
    }
  }

  /**
   * `bezierSurface3D`: as `Surface2D` with a third coordinate, except that the
   * number of columns is taken from the row of index 2, so the grid must have
   * at least three rows and every row is read up to that row's length.
   */
  method Surface3D(t: real, u: real, points: seq<seq<Point>>) returns (r: Vec3)
    requires |points| >= 3 && GridCovers(points, |points[2]|, 3)
    ensures r == SurfacePoint3(t, u, points, |points[2]|)
  {
    var x, y, z := 0.0, 0.0, 0.0;
    var n1 := |points| - 1;
    var n2 := |points[2]| - 1;
    var values1 := BernsteinValues(n1 + 1, t);
    var values2 := BernsteinValues(n2 + 1, u);
    ghost var m := n2 + 1;
    CoversWeaken(points, m, 3, 1);
    CoversWeaken(points, m, 3, 2);
    ghost var w1, w2 := values1[..], values2[..];
    var p1 := 0;
    while p1 <= n1
      invariant 0 <= p1 <= n1 + 1
      invariant values1[..] == w1 && values2[..] == w2
      invariant x == GridTerms(w1, w2, points, m, 0, p1)
      invariant y == GridTerms(w1, w2, points, m, 1, p1)
      invariant z == GridTerms(w1, w2, points, m, 2, p1)
    {
      assert values1[p1] == w1[p1];
      x, y, z := AddRow3(x, y, z, values1[p1], values2, points[p1], n2 + 1);
      p1 := p1 + 1;
    }
    r := Vec3(x, y, z);
  }

  /** The inner loop of `bezierSurface3D` over one row, as `AddRow2` with z alongside. */
  method AddRow3(x: real, y: real, z: real, a1: real, values2: array<real>, row: seq<Point>, m: nat)
    returns (x': real, y': real, z': real)
    requires m <= values2.Length && RowHasDim(row, m, 3)
    ensures x' == x + RowTerms(a1, values2[..], row, 0, m)
    ensures y' == y + RowTerms(a1, values2[..], row, 1, m)
    ensures z' == z + RowTerms(a1, values2[..], row, 2, m)
  {
    x', y', z' := x, y, z;
    ghost var w2 := values2[..];
    var p2 := 0;
    while p2 < m
      invariant 0 <= p2 <= m
      invariant x' == x + RowTerms(a1, w2, row, 0, p2)
      invariant y' == y + RowTerms(a1, w2, row, 1, p2)
      invariant z' == z + RowTerms(a1, w2, row, 2, p2)
    {
      var a := a1 * values2[p2];
      assert values2[p2] == w2[p2];
      x' := x' + a * row[p2][0];
      y' := y' + a * row[p2][1];
      z' := z' + a * row[p2][2];
      p2 := p2 + 1;
    }
  }

  // ---------------------------------------------------------------------------
  // The surface as a curve of curves

  /** Coordinate `c` of the u-curve of every row, over the row's first `m` points. */
  function ColumnBlends(u: real, grid: seq<seq<Point>>, m: nat, c: nat): (v: seq<real>)
    requires GridCovers(grid, m, c + 1)
    ensures |v| == |grid|
    ensures forall i :: 0 <= i < |grid| ==> HasDim(grid[i][..m], c + 1) && v[i] == Blend(u, Coord(grid[i][..m], c))
  {
    seq(|grid|, i requires 0 <= i < |grid| => Blend(u, Coord(grid[i][..m], c)))
  }

  /** The 2D points of the u-curves of the rows: these are the control points of the t-curve. */
  function RowCurves(u: real, grid: seq<seq<Point>>, m: nat): (r: seq<Point>)
    requires GridCovers(grid, m, 2)
    ensures |r| == |grid| && HasDim(r, 2)
    ensures forall i :: 0 <= i < |grid| ==>
      HasDim(grid[i][..m], 2) && r[i] == [CurvePoint2(u, grid[i][..m]).x, CurvePoint2(u, grid[i][..m]).y]
  {
    seq(|grid|, i requires 0 <= i < |grid| => [CurvePoint2(u, grid[i][..m]).x, CurvePoint2(u, grid[i][..m]).y])
  }

  /** The 3D points of the u-curves of the rows. */
  function RowCurves3(u: real, grid: seq<seq<Point>>, m: nat): (r: seq<Point>)
    requires GridCovers(grid, m, 3)
    ensures |r| == |grid| && HasDim(r, 3)
    ensures forall i :: 0 <= i < |grid| ==>
      HasDim(grid[i][..m], 3) &&
      r[i] == [CurvePoint3(u, grid[i][..m]).x, CurvePoint3(u, grid[i][..m]).y, CurvePoint3(u, grid[i][..m]).z]
  {
    seq(|grid|, i requires 0 <= i < |grid| =>
      [CurvePoint3(u, grid[i][..m]).x, CurvePoint3(u, grid[i][..m]).y, CurvePoint3(u, grid[i][..m]).z])
  }

  /** One row of the surface sum is the row's weight times the row's weighted sum. */
  lemma {:induction false} RowTermsFactor(a: real, w: seq<real>, row: seq<Point>, c: nat, m: nat, k: nat)
    requires k <= m <= |w| && RowHasDim(row, m, c + 1)
    ensures HasDim(row[..m], c + 1)
    ensures RowTerms(a, w, row, c, k) == a * Dot(w, Coord(row[..m], c), k)
  {
    if k > 0 {
      var j := k - 1;
      var v := Coord(row[..m], c);
      RowTermsFactor(a, w, row, c, m, j);
      assert v[j] == row[j][c];
      FactorStep(RowTerms(a, w, row, c, j), Dot(w, v, j), a, w[j], v[j]);
    }
  }

  /**
   * Tensor-product factorisation: the first `k` rows of the surface sum are
   * the weighted sum, by the row weights, of every row's weighted sum `col`.
   */
  lemma {:induction false} GridTermsFactor(w1: seq<real>, w2: seq<real>, grid: seq<seq<Point>>, m: nat, c: nat, k: nat,
                                           col: seq<real>)
    requires k <= |w1| && k <= |grid| && m <= |w2| && GridCovers(grid, m, c + 1) && k <= |col|
    requires forall i :: 0 <= i < k ==> HasDim(grid[i][..m], c + 1) && col[i] == Dot(w2, Coord(grid[i][..m], c), m)
    ensures GridTerms(w1, w2, grid, m, c, k) == Dot(w1, col, k)
  {
    if k > 0 {
      var j := k - 1;
      GridTermsFactor(w1, w2, grid, m, c, j, col);
      RowTermsFactor(w1[j], w2, grid[j], c, m, m);
      SumStep(GridTerms(w1, w2, grid, m, c, k), GridTerms(w1, w2, grid, m, c, j), RowTerms(w1[j], w2, grid[j], c, m),
              Dot(w1, col, k), Dot(w1, col, j), w1[j], col[j]);
    }
  }

  /**
   * Plain real arithmetic: two sums that agree so far and add equal terms stay
   * equal. Stated on plain reals so that `GridTermsFactor` stays cheap.
   */
  lemma SumStep(next: real, acc: real, term: real, dotNext: real, dot: real, a: real, b: real)
    requires next == acc + term && dotNext == dot + a * b && acc == dot && term == a * b
    ensures next == dotNext
  {
  }

  /**
   * Coordinate `c` of the surface at (t, u) is the Bernstein blend in t of
   * coordinate `c` of the rows' Bézier curves at u.
   */
  lemma SurfaceCoord(t: real, u: real, grid: seq<seq<Point>>, m: nat, c: nat)
    requires GridCovers(grid, m, c + 1)
    ensures SurfaceBlend(t, u, grid, m, c) == Blend(t, ColumnBlends(u, grid, m, c))
  {
    var col := ColumnBlends(u, grid, m, c);
    forall i | 0 <= i < |grid|
      ensures col[i] == Dot(Weights(m, u), Coord(grid[i][..m], c), m)
    {
    }
    GridTermsFactor(Weights(|grid|, t), Weights(m, u), grid, m, c, |grid|, col);
  }

  /**
   * The 2D surface at (t, u) is the 2D Bézier curve at t whose control points
   * are the points at u of the Bézier curves of the rows.
   */
  lemma SurfaceOfCurves(t: real, u: real, grid: seq<seq<Point>>, m: nat)
    requires GridCovers(grid, m, 2)
    ensures SurfacePoint2(t, u, grid, m) == CurvePoint2(t, RowCurves(u, grid, m))
  {
    CoversWeaken(grid, m, 2, 1);
    var rows := RowCurves(u, grid, m);
    SurfaceCoord(t, u, grid, m, 0);
    SurfaceCoord(t, u, grid, m, 1);
    assert Coord(rows, 0) == ColumnBlends(u, grid, m, 0);
    assert Coord(rows, 1) == ColumnBlends(u, grid, m, 1);
  }

  /** The 3D surface at (t, u) is the 3D Bézier curve at t through the rows' curve points at u. */
  lemma SurfaceOfCurves3(t: real, u: real, grid: seq<seq<Point>>, m: nat)
    requires GridCovers(grid, m, 3)
    ensures SurfacePoint3(t, u, grid, m) == CurvePoint3(t, RowCurves3(u, grid, m))
  {
    CoversWeaken(grid, m, 3, 1);
    CoversWeaken(grid, m, 3, 2);
    var rows := RowCurves3(u, grid, m);
    SurfaceCoord(t, u, grid, m, 0);
    SurfaceCoord(t, u, grid, m, 1);
    SurfaceCoord(t, u, grid, m, 2);
    assert Coord(rows, 0) == ColumnBlends(u, grid, m, 0);
    assert Coord(rows, 1) == ColumnBlends(u, grid, m, 1);
    assert Coord(rows, 2) == ColumnBlends(u, grid, m, 2);
  }

  // ---------------------------------------------------------------------------
  // Properties of the surface

  /** A surface of a single row is the Bézier curve of that row, in u, whatever t is. */
  lemma SurfaceSingleRow(t: real, u: real, row: seq<Point>)
    requires HasDim(row, 2)
    ensures GridCovers([row], |row|, 2)
    ensures SurfacePoint2(t, u, [row], |row|) == CurvePoint2(u, row)
  {
    var grid := [row];
    assert grid[0][..|row|] == row;
    SurfaceOfCurves(t, u, grid, |row|);
    var rows := RowCurves(u, grid, |row|);
    assert rows == [rows[0]];
    CurveSingle(t, rows[0]);
  }

  /** The first point of every row: the control points of a grid with a single column. */
  function Column(grid: seq<seq<Point>>): (col: seq<Point>)
    requires GridCovers(grid, 1, 0)
    ensures |col| == |grid|
    ensures forall i :: 0 <= i < |grid| ==> col[i] == grid[i][0]
  {
    seq(|grid|, i requires 0 <= i < |grid| => grid[i][0])
  }

  /** A surface of a single column is the Bézier curve in t of that column, whatever u is. */
  lemma SurfaceSingleColumn(t: real, u: real, grid: seq<seq<Point>>)
    requires GridCovers(grid, 1, 2)
    ensures GridCovers(grid, 1, 0) && HasDim(Column(grid), 2)
    ensures SurfacePoint2(t, u, grid, 1) == CurvePoint2(t, Column(grid))
  {
    CoversWeaken(grid, 1, 2, 0);
    var col := Column(grid);
    SurfaceOfCurves(t, u, grid, 1);
    var rows := RowCurves(u, grid, 1);
    forall i | 0 <= i < |grid|
      ensures rows[i][0] == col[i][0] && rows[i][1] == col[i][1]
    {
      assert grid[i][..1] == [grid[i][0]];
      CurveSingle(u, grid[i][0]);
    }
    assert Coord(rows, 0) == Coord(col, 0);
    assert Coord(rows, 1) == Coord(col, 1);
  }

  /** A 3D surface of a single column is the 3D Bézier curve in t of that column, whatever u is. */
  lemma SurfaceSingleColumn3(t: real, u: real, grid: seq<seq<Point>>)
    requires GridCovers(grid, 1, 3)
    ensures GridCovers(grid, 1, 0) && HasDim(Column(grid), 3)
    ensures SurfacePoint3(t, u, grid, 1) == CurvePoint3(t, Column(grid))
  {
    CoversWeaken(grid, 1, 3, 0);
    var col := Column(grid);
    SurfaceOfCurves3(t, u, grid, 1);
    var rows := RowCurves3(u, grid, 1);
    forall i | 0 <= i < |grid|
      ensures rows[i][0] == col[i][0] && rows[i][1] == col[i][1] && rows[i][2] == col[i][2]
    {
      assert grid[i][..1] == [grid[i][0]];
      CurveSingle3(u, grid[i][0]);
    }
    assert Coord(rows, 0) == Coord(col, 0);
    assert Coord(rows, 1) == Coord(col, 1);
    assert Coord(rows, 2) == Coord(col, 2);
  }

  /**
   * Coordinate `c` at a corner of the parameter square: the surface passes
   * through the corner points of its grid.
   */
  lemma CornerCoord(t: real, u: real, grid: seq<seq<Point>>, m: nat, c: nat)
    requires GridCovers(grid, m, c + 1) && |grid| >= 1 && m >= 1
    requires (t == 0.0 || t == 1.0) && (u == 0.0 || u == 1.0)
    ensures var i, j := (if t == 0.0 then 0 else |grid| - 1), (if u == 0.0 then 0 else m - 1);
      SurfaceBlend(t, u, grid, m, c) == grid[i][j][c]
  {
    var i, j := (if t == 0.0 then 0 else |grid| - 1), (if u == 0.0 then 0 else m - 1);
    var col := ColumnBlends(u, grid, m, c);
    SurfaceCoord(t, u, grid, m, c);
    if t == 0.0 { BlendAtZero(col); } else { BlendAtOne(col); }
    var v := Coord(grid[i][..m], c);
    if u == 0.0 { BlendAtZero(v); } else { BlendAtOne(v); }
    assert v[j] == grid[i][j][c];
  }

  /**
   * The 2D surface interpolates its four corner control points: (0, 0) gives
   * the first point of the first row, (1, 1) the last point of the last row,
   * (1, 0) the first point of the last row and (0, 1) the last point of the first.
   */
  lemma SurfaceCorners(t: real, u: real, grid: seq<seq<Point>>, m: nat)
    requires GridCovers(grid, m, 2) && |grid| >= 1 && m >= 1
    requires (t == 0.0 || t == 1.0) && (u == 0.0 || u == 1.0)
    ensures var i, j := (if t == 0.0 then 0 else |grid| - 1), (if u == 0.0 then 0 else m - 1);
      SurfacePoint2(t, u, grid, m) == Vec2(grid[i][j][0], grid[i][j][1])
  {
    CoversWeaken(grid, m, 2, 1);
    CornerCoord(t, u, grid, m, 0);
    CornerCoord(t, u, grid, m, 1);
  }

  /** The 3D surface interpolates its four corner control points. */
  lemma SurfaceCorners3(t: real, u: real, grid: seq<seq<Point>>, m: nat)
    requires GridCovers(grid, m, 3) && |grid| >= 1 && m >= 1
    requires (t == 0.0 || t == 1.0) && (u == 0.0 || u == 1.0)
    ensures var i, j := (if t == 0.0 then 0 else |grid| - 1), (if u == 0.0 then 0 else m - 1);
      SurfacePoint3(t, u, grid, m) == Vec3(grid[i][j][0], grid[i][j][1], grid[i][j][2])
  {
    CoversWeaken(grid, m, 3, 1);
    CoversWeaken(grid, m, 3, 2);
    CornerCoord(t, u, grid, m, 0);
    CornerCoord(t, u, grid, m, 1);
    CornerCoord(t, u, grid, m, 2);
  }

  /** Partition of unity for coordinate `c`: if it is `k` at every point read, the surface's is `k`. */
  lemma ConstantCoord(t: real, u: real, grid: seq<seq<Point>>, m: nat, c: nat, k: real)
    requires GridCovers(grid, m, c + 1) && |grid| >= 1 && m >= 1
    requires forall i, j :: 0 <= i < |grid| && 0 <= j < m ==> grid[i][j][c] == k
    ensures SurfaceBlend(t, u, grid, m, c) == k
  {
    var col := ColumnBlends(u, grid, m, c);
    SurfaceCoord(t, u, grid, m, c);
    forall i | 0 <= i < |grid|
      ensures col[i] == k
    {
      var v := Coord(grid[i][..m], c);
      forall j | 0 <= j < |v|
        ensures v[j] == k
      {
        assert v[j] == grid[i][j][c];
      }
      BlendConstant(u, v, k);
    }
    BlendConstant(t, col, k);
  }

  /** A 2D surface whose control points all equal (cx, cy) is that point everywhere. */
  lemma SurfaceConstant(t: real, u: real, grid: seq<seq<Point>>, m: nat, cx: real, cy: real)
    requires GridCovers(grid, m, 2) && |grid| >= 1 && m >= 1
    requires forall i, j :: 0 <= i < |grid| && 0 <= j < m ==> grid[i][j][0] == cx && grid[i][j][1] == cy
    ensures SurfacePoint2(t, u, grid, m) == Vec2(cx, cy)
  {
    CoversWeaken(grid, m, 2, 1);
    ConstantCoord(t, u, grid, m, 0, cx);
    ConstantCoord(t, u, grid, m, 1, cy);
  }

  /** A 3D surface whose control points all equal (cx, cy, cz) is that point everywhere. */
  lemma SurfaceConstant3(t: real, u: real, grid: seq<seq<Point>>, m: nat, cx: real, cy: real, cz: real)
    requires GridCovers(grid, m, 3) && |grid| >= 1 && m >= 1
    requires forall i, j :: 0 <= i < |grid| && 0 <= j < m ==>
      grid[i][j][0] == cx && grid[i][j][1] == cy && grid[i][j][2] == cz
    ensures SurfacePoint3(t, u, grid, m) == Vec3(cx, cy, cz)
  {
    CoversWeaken(grid, m, 3, 1);
    CoversWeaken(grid, m, 3, 2);
    ConstantCoord(t, u, grid, m, 0, cx);
    ConstantCoord(t, u, grid, m, 1, cy);
    ConstantCoord(t, u, grid, m, 2, cz);
  }

  /**
   * The 3D surface seen from above is the 2D surface of the same grid:
   * `bezierSurface2D` takes its column count from row 0 and `bezierSurface3D`
   * from row 2, and when those rows have the same length the 2D result is the
   * x and y of the 3D result.
   */
  lemma SurfaceProjects(t: real, u: real, grid: seq<seq<Point>>)
    requires |grid| >= 3 && |grid[0]| == |grid[2]| && GridCovers(grid, |grid[2]|, 3)
    ensures GridCovers(grid, |grid[0]|, 2)
    ensures SurfacePoint2(t, u, grid, |grid[0]|) ==
      Vec2(SurfacePoint3(t, u, grid, |grid[2]|).x, SurfacePoint3(t, u, grid, |grid[2]|).y)
  {
    CoversWeaken(grid, |grid[2]|, 3, 2);
  }
}
