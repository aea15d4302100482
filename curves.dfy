/**
 * The general Bézier curve evaluators `bezierCurve2D` and `bezierCurve3D`:
 * any number of control points, evaluated by one accumulating loop that keeps
 * the binomial coefficient of the current index in a running `term`.
 */
module Curves {
  import opened Points
  import opened Sums
  import opened Bernstein

  /** The point of the 2D Bézier curve with control points `pts` at parameter `t`. */
  function CurvePoint2(t: real, pts: seq<Point>): Vec2
    requires HasDim(pts, 2)
  {
    Vec2(Blend(t, Coord(pts, 0)), Blend(t, Coord(pts, 1)))
  }

  /** The point of the 3D Bézier curve with control points `pts` at parameter `t`. */
  function CurvePoint3(t: real, pts: seq<Point>): Vec3
    requires HasDim(pts, 3)
  {
    Vec3(Blend(t, Coord(pts, 0)), Blend(t, Coord(pts, 1)), Blend(t, Coord(pts, 2)))
  }

  /** A curve point is the pair of weighted sums of the coordinates by the Bernstein weights of degree |pts| - 1. */
  lemma CurveAsDot(t: real, pts: seq<Point>)
    requires HasDim(pts, 2) && |pts| >= 1
    ensures CurvePoint2(t, pts) ==
      Vec2(Dot(Row(|pts| - 1, t), Coord(pts, 0), |pts|), Dot(Row(|pts| - 1, t), Coord(pts, 1), |pts|))
  {
  }

  /**
   * `bezierCurve2D`: the running `term` is C(n, p) at the top of every
   * iteration, so each `a` is the Bernstein weight of index p, and the result
   * is the Bézier curve point. No control points give (0, 0).
   */
  method Curve2D(t: real, points: seq<Point>) returns (r: Vec2)
    requires HasDim(points, 2)
    ensures r == CurvePoint2(t, points)
  {
    var x, y := 0.0, 0.0;
    var n := |points| - 1;
    var term := 1.0;
    var u := 1.0 - t;
    ghost var w := Weights(n + 1, t);
    ghost var xs, ys := Coord(points, 0), Coord(points, 1);
    var p := 0;
    while p <= n
      invariant 0 <= p <= |points|
      invariant p <= n ==> term == Binom(n, p) as real
      invariant x == Dot(w, xs, p)
      invariant y == Dot(w, ys, p)
    {
      var a := CurveWeight(n, p, t, u, term);
      DotStep(w, xs, p, x, a, points[p][0]);
      DotStep(w, ys, p, y, a, points[p][1]);
      x := x + a * points[p][0];
      y := y + a * points[p][1];
      term := NextCoefficient(n, p, term);
      p := p + 1;
    }
    r := Vec2(x, y);
  }

  /** `bezierCurve3D`: as `Curve2D`, with a third coordinate accumulated alongside. */
  method Curve3D(t: real, points: seq<Point>) returns (r: Vec3)
    requires HasDim(points, 3)
    ensures r == CurvePoint3(t, points)
  {
    var x, y, z := 0.0, 0.0, 0.0;
    var n := |points| - 1;
    var term := 1.0;
    var u := 1.0 - t;
    ghost var w := Weights(n + 1, t);
    ghost var xs, ys, zs := Coord(points, 0), Coord(points, 1), Coord(points, 2);
    var p := 0;
    while p <= n
      invariant 0 <= p <= |points|
      invariant p <= n ==> term == Binom(n, p) as real
      invariant x == Dot(w, xs, p)
      invariant y == Dot(w, ys, p)
      invariant z == Dot(w, zs, p)
    {
      var a := CurveWeight(n, p, t, u, term);
      DotStep(w, xs, p, x, a, points[p][0]);
      DotStep(w, ys, p, y, a, points[p][1]);
      DotStep(w, zs, p, z, a, points[p][2]);
      x := x + a * points[p][0];
      y := y + a * points[p][1];
      z := z + a * points[p][2];
      term := NextCoefficient(n, p, term);
      p := p + 1;
    }
    r := Vec3(x, y, z);
  }

  /**
   * One weight of the curve loop, `term * Math.pow(u, n - p) * Math.pow(t, p)`
   * with u == 1 - t: when `term` is C(n, p) it is the Bernstein weight B(n, p, t).
   */
  method CurveWeight(n: nat, p: nat, t: real, u: real, term: real) returns (a: real)
    requires p <= n && u == 1.0 - t
    ensures term == Binom(n, p) as real ==> a == Weights(n + 1, t)[p]
  {
    a := term * Pow(u, n - p) * Pow(t, p);
    RowEntries(n, t);
  }

  // ---------------------------------------------------------------------------
  // Properties of the curve

  /** The curve starts at its first control point. */
  lemma CurveStart(pts: seq<Point>)
    requires HasDim(pts, 2) && |pts| >= 1
    ensures CurvePoint2(0.0, pts) == Vec2(pts[0][0], pts[0][1])
  {
    BlendAtZero(Coord(pts, 0));
    BlendAtZero(Coord(pts, 1));
  }

  /** The curve ends at its last control point. */
  lemma CurveEnd(pts: seq<Point>)
    requires HasDim(pts, 2) && |pts| >= 1
    ensures CurvePoint2(1.0, pts) == Vec2(pts[|pts| - 1][0], pts[|pts| - 1][1])
  {
    BlendAtOne(Coord(pts, 0));
    BlendAtOne(Coord(pts, 1));
  }

  /** A curve with a single control point stays at that point. */
  lemma CurveSingle(t: real, q: Point)
    requires |q| >= 2
    ensures CurvePoint2(t, [q]) == Vec2(q[0], q[1])
  {
    var pts := [q];
    assert Coord(pts, 0) == [q[0]] && Coord(pts, 1) == [q[1]];
    BlendSingle(t, q[0]);
    BlendSingle(t, q[1]);
  }

  /** Partition of unity: when every control point is (cx, cy) the curve is that point, at every t. */
  lemma CurveConstant(t: real, pts: seq<Point>, cx: real, cy: real)
    requires HasDim(pts, 2) && |pts| >= 1
    requires forall i :: 0 <= i < |pts| ==> pts[i][0] == cx && pts[i][1] == cy
    ensures CurvePoint2(t, pts) == Vec2(cx, cy)
  {
    BlendConstant(t, Coord(pts, 0), cx);
    BlendConstant(t, Coord(pts, 1), cy);
  }

  /** Symmetry: the curve through the reversed control points, at 1 - t, is the curve at t. */
  lemma CurveReverse(t: real, pts: seq<Point>)
    requires HasDim(pts, 2)
    ensures HasDim(Reverse(pts), 2)
    ensures CurvePoint2(1.0 - t, Reverse(pts)) == CurvePoint2(t, pts)
  {
    var rev := Reverse(pts);
    assert Coord(rev, 0) == Reverse(Coord(pts, 0));
    assert Coord(rev, 1) == Reverse(Coord(pts, 1));
    BlendReverse(t, Coord(pts, 0));
    BlendReverse(t, Coord(pts, 1));
  }

  /**
   * Affine invariance: mapping every control point by the affine map
   * (x, y) |-> (a x + b y + e, c x + d y + f) maps the curve point the same way.
   */
  lemma CurveAffine(t: real, pts: seq<Point>, qs: seq<Point>, a: real, b: real, c: real, d: real, e: real, f: real)
    requires HasDim(pts, 2) && HasDim(qs, 2) && |pts| == |qs| >= 1
    requires forall i :: 0 <= i < |pts| ==>
      qs[i][0] == a * pts[i][0] + b * pts[i][1] + e && qs[i][1] == c * pts[i][0] + d * pts[i][1] + f
    ensures CurvePoint2(t, qs) ==
      Vec2(a * CurvePoint2(t, pts).x + b * CurvePoint2(t, pts).y + e,
           c * CurvePoint2(t, pts).x + d * CurvePoint2(t, pts).y + f)
  {
    AffineCoord(t, pts, qs, a, b, e, 0);
    AffineCoord(t, pts, qs, c, d, f, 1);
  }

  /** One coordinate of `CurveAffine`: coordinate `k` of every point of `qs` is a x + b y + e of `pts`. */
  lemma AffineCoord(t: real, pts: seq<Point>, qs: seq<Point>, a: real, b: real, e: real, k: nat)
    requires HasDim(pts, 2) && HasDim(qs, k + 1) && |pts| == |qs| >= 1
    requires forall i :: 0 <= i < |pts| ==> qs[i][k] == a * pts[i][0] + b * pts[i][1] + e
    ensures Blend(t, Coord(qs, k)) == a * Blend(t, Coord(pts, 0)) + b * Blend(t, Coord(pts, 1)) + e
  {
    BlendAffine(t, Coord(pts, 0), Coord(pts, 1), Coord(qs, k), a, b, e);
  }

  /** The 3D curve starts at its first control point. */
  lemma CurveStart3(pts: seq<Point>)
    requires HasDim(pts, 3) && |pts| >= 1
    ensures CurvePoint3(0.0, pts) == Vec3(pts[0][0], pts[0][1], pts[0][2])
  {
    BlendAtZero(Coord(pts, 0));
    BlendAtZero(Coord(pts, 1));
    BlendAtZero(Coord(pts, 2));
  }

  /** The 3D curve ends at its last control point. */
  lemma CurveEnd3(pts: seq<Point>)
    requires HasDim(pts, 3) && |pts| >= 1
    ensures CurvePoint3(1.0, pts) == Vec3(pts[|pts| - 1][0], pts[|pts| - 1][1], pts[|pts| - 1][2])
  {
    BlendAtOne(Coord(pts, 0));
    BlendAtOne(Coord(pts, 1));
    BlendAtOne(Coord(pts, 2));
  }

  /** A 3D curve with a single control point stays at that point. */
  lemma CurveSingle3(t: real, q: Point)
    requires |q| >= 3
    ensures CurvePoint3(t, [q]) == Vec3(q[0], q[1], q[2])
  {
    var pts := [q];
    assert Coord(pts, 0) == [q[0]] && Coord(pts, 1) == [q[1]] && Coord(pts, 2) == [q[2]];
    BlendSingle(t, q[0]);
    BlendSingle(t, q[1]);
    BlendSingle(t, q[2]);
  }

  /** Partition of unity in 3D: control points that are all (cx, cy, cz) give that point at every t. */
  lemma CurveConstant3(t: real, pts: seq<Point>, cx: real, cy: real, cz: real)
    requires HasDim(pts, 3) && |pts| >= 1
    requires forall i :: 0 <= i < |pts| ==> pts[i][0] == cx && pts[i][1] == cy && pts[i][2] == cz
    ensures CurvePoint3(t, pts) == Vec3(cx, cy, cz)
  {
    BlendConstant(t, Coord(pts, 0), cx);
    BlendConstant(t, Coord(pts, 1), cy);
    BlendConstant(t, Coord(pts, 2), cz);
  }

  /** Symmetry in 3D: the reversed control points at 1 - t give the curve point at t. */
  lemma CurveReverse3(t: real, pts: seq<Point>)
    requires HasDim(pts, 3)
    ensures HasDim(Reverse(pts), 3)
    ensures CurvePoint3(1.0 - t, Reverse(pts)) == CurvePoint3(t, pts)
  {
    var rev := Reverse(pts);
    assert Coord(rev, 0) == Reverse(Coord(pts, 0));
    assert Coord(rev, 1) == Reverse(Coord(pts, 1));
    assert Coord(rev, 2) == Reverse(Coord(pts, 2));
    BlendReverse(t, Coord(pts, 0));
    BlendReverse(t, Coord(pts, 1));
    BlendReverse(t, Coord(pts, 2));
  }

  /** The 3D curve seen from above: dropping z from the control points drops z from the curve. */
  lemma Curve3DProjects(t: real, pts: seq<Point>)
    requires HasDim(pts, 3)
    ensures CurvePoint2(t, Truncate(pts, 2)) == Vec2(CurvePoint3(t, pts).x, CurvePoint3(t, pts).y)
  {
    var flat := Truncate(pts, 2);
    assert Coord(flat, 0) == Coord(pts, 0);
    assert Coord(flat, 1) == Coord(pts, 1);
  }
}
