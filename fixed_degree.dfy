/**
 * The fixed-degree 2D curve evaluators `bezierCurveQuadratic` ...
 * `bezierCurveSextic`: closed-form Bernstein blends of 3 to 7 control points,
 * with the binomial coefficients written in as literals and the powers of
 * u = 1 - t and t built from the products u * u and t * t.
 */
module FixedDegree {
  import opened Points
  import opened Sums
  import opened Bernstein
  import opened Curves

  /** A control point that has an x and a y. */
  predicate Planar(q: Point)
  {
    |q| >= 2
  }

  /** `bezierCurveQuadratic`: 3 control points, weights (1 - t)^2, 2 (1 - t) t, t^2. */
  function CurveQuadratic(t: real, point1: Point, point2: Point, point3: Point): (r: Vec2)
    requires Planar(point1) && Planar(point2) && Planar(point3)
    ensures t == 0.0 ==> r == Vec2(point1[0], point1[1])
    ensures t == 1.0 ==> r == Vec2(point3[0], point3[1])
  {
    var a := (1.0 - t) * (1.0 - t);
    var b := 2.0 * (1.0 - t) * t;
    var c := t * t;
    Vec2(a * point1[0] + b * point2[0] + c * point3[0], a * point1[1] + b * point2[1] + c * point3[1])
  }

  /** `bezierCurveCubic`: 4 control points, weights u^3, 3 u^2 t, 3 u t^2, t^3. */
  function CurveCubic(t: real, point1: Point, point2: Point, point3: Point, point4: Point): (r: Vec2)
    requires Planar(point1) && Planar(point2) && Planar(point3) && Planar(point4)
    ensures t == 0.0 ==> r == Vec2(point1[0], point1[1])
    ensures t == 1.0 ==> r == Vec2(point4[0], point4[1])
  {
    var u := 1.0 - t;
    var a := u * u * u;
    var b := 3.0 * u * u * t;
    var c := 3.0 * u * t * t;
    var d := t * t * t;
    Vec2(a * point1[0] + b * point2[0] + c * point3[0] + d * point4[0],
         a * point1[1] + b * point2[1] + c * point3[1] + d * point4[1])
  }

  /** `bezierCurveQuartic`: 5 control points, coefficients 1, 4, 6, 4, 1. */
  function CurveQuartic(t: real, point1: Point, point2: Point, point3: Point, point4: Point, point5: Point): (r: Vec2)
    requires Planar(point1) && Planar(point2) && Planar(point3) && Planar(point4) && Planar(point5)
    ensures t == 0.0 ==> r == Vec2(point1[0], point1[1])
    ensures t == 1.0 ==> r == Vec2(point5[0], point5[1])
  {
    var u := 1.0 - t;
    var u2 := u * u;
    var t2 := t * t;
    var a := u2 * u2;
    var b := 4.0 * u * u2 * t;
    var c := 6.0 * u2 * t2;
    var d := 4.0 * u * t2 * t;
    var e := t2 * t2;
    Vec2(a * point1[0] + b * point2[0] + c * point3[0] + d * point4[0] + e * point5[0],
         a * point1[1] + b * point2[1] + c * point3[1] + d * point4[1] + e * point5[1])
  }

  /** `bezierCurveQuintic`: 6 control points, coefficients 1, 5, 10, 10, 5, 1. */
  function CurveQuintic(t: real, point1: Point, point2: Point, point3: Point, point4: Point, point5: Point,
                        point6: Point): (r: Vec2)
    requires Planar(point1) && Planar(point2) && Planar(point3) && Planar(point4) && Planar(point5)
    requires Planar(point6)
    ensures t == 0.0 ==> r == Vec2(point1[0], point1[1])
    ensures t == 1.0 ==> r == Vec2(point6[0], point6[1])
  {
    var u := 1.0 - t;
    var u2 := u * u;
    var t2 := t * t;
    var a := u2 * u2 * u;
    var b := 5.0 * u2 * u2 * t;
    var c := 10.0 * u * u2 * t2;
    var d := 10.0 * u2 * t2 * t;
    var e := 5.0 * u * t2 * t2;
    var f := t2 * t2 * t;
    Vec2(a * point1[0] + b * point2[0] + c * point3[0] + d * point4[0] + e * point5[0] + f * point6[0],
         a * point1[1] + b * point2[1] + c * point3[1] + d * point4[1] + e * point5[1] + f * point6[1])
  }

  /** `bezierCurveSextic`: 7 control points, coefficients 1, 6, 15, 20, 15, 6, 1. */
  function CurveSextic(t: real, point1: Point, point2: Point, point3: Point, point4: Point, point5: Point,
                       point6: Point, point7: Point): (r: Vec2)
    requires Planar(point1) && Planar(point2) && Planar(point3) && Planar(point4) && Planar(point5)
    requires Planar(point6) && Planar(point7)
    ensures t == 0.0 ==> r == Vec2(point1[0], point1[1])
    ensures t == 1.0 ==> r == Vec2(point7[0], point7[1])
  {
    var u := 1.0 - t;
    var u2 := u * u;
    var t2 := t * t;
    var a := u2 * u2 * u2;
    var b := 6.0 * u2 * u2 * u * t;
    var c := 15.0 * u2 * u2 * t2;
    var d := 20.0 * u * u2 * t2 * t;
    var e := 15.0 * u2 * t2 * t2;
    var f := 6.0 * u * t2 * t2 * t;
    var g := t2 * t2 * t2;
    Vec2(a * point1[0] + b * point2[0] + c * point3[0] + d * point4[0] + e * point5[0] + f * point6[0] + g * point7[0],
         a * point1[1] + b * point2[1] + c * point3[1] + d * point4[1] + e * point5[1] + f * point6[1] + g * point7[1])
  }

  /** The weighted sum of the first 3 entries, written out term by term. */
  lemma DotThreeTerms(w: seq<real>, v: seq<real>)
    requires |w| >= 3 && |v| >= 3
    ensures Dot(w, v, 3) ==
      w[0] * v[0] + w[1] * v[1] + w[2] * v[2]
  {
    assert Dot(w, v, 1) == w[0] * v[0];
  }

  /** The weighted sum of the first 4 entries, written out term by term. */
  lemma DotFourTerms(w: seq<real>, v: seq<real>)
    requires |w| >= 4 && |v| >= 4
    ensures Dot(w, v, 4) ==
      w[0] * v[0] + w[1] * v[1] + w[2] * v[2] + w[3] * v[3]
  {
    DotThreeTerms(w, v);
  }

  /** The weighted sum of the first 5 entries, written out term by term. */
  lemma DotFiveTerms(w: seq<real>, v: seq<real>)
    requires |w| >= 5 && |v| >= 5
    ensures Dot(w, v, 5) ==
      w[0] * v[0] + w[1] * v[1] + w[2] * v[2] + w[3] * v[3] + w[4] * v[4]
  {
    DotFourTerms(w, v);
  }

  /** The weighted sum of the first 6 entries, written out term by term. */
  lemma DotSixTerms(w: seq<real>, v: seq<real>)
    requires |w| >= 6 && |v| >= 6
    ensures Dot(w, v, 6) ==
      w[0] * v[0] + w[1] * v[1] + w[2] * v[2] + w[3] * v[3] + w[4] * v[4] + w[5] * v[5]
  {
    DotFiveTerms(w, v);
  }

  /** The weighted sum of the first 7 entries, written out term by term. */
  lemma DotSevenTerms(w: seq<real>, v: seq<real>)
    requires |w| >= 7 && |v| >= 7
    ensures Dot(w, v, 7) ==
      w[0] * v[0] + w[1] * v[1] + w[2] * v[2] + w[3] * v[3] + w[4] * v[4] + w[5] * v[5] + w[6] * v[6]
  {
    DotSixTerms(w, v);
  }

  /** The weighted sum of coordinate `c` of 3 given points, written out term by term. */
  lemma DotThreePoints(w: seq<real>, c: nat, p1: Point, p2: Point, p3: Point)
    requires |w| >= 3 && |p1| > c && |p2| > c && |p3| > c
    ensures HasDim([p1, p2, p3], c + 1)
    ensures Dot(w, Coord([p1, p2, p3], c), 3) ==
      w[0] * p1[c] + w[1] * p2[c] + w[2] * p3[c]
  {
    DotThreeTerms(w, Coord([p1, p2, p3], c));
  }

  /** The weighted sum of coordinate `c` of 4 given points, written out term by term. */
  lemma DotFourPoints(w: seq<real>, c: nat, p1: Point, p2: Point, p3: Point, p4: Point)
    requires |w| >= 4 && |p1| > c && |p2| > c && |p3| > c && |p4| > c
    ensures HasDim([p1, p2, p3, p4], c + 1)
    ensures Dot(w, Coord([p1, p2, p3, p4], c), 4) ==
      w[0] * p1[c] + w[1] * p2[c] + w[2] * p3[c] + w[3] * p4[c]
  {
    DotFourTerms(w, Coord([p1, p2, p3, p4], c));
  }

  /** The weighted sum of coordinate `c` of 5 given points, written out term by term. */
  lemma DotFivePoints(w: seq<real>, c: nat, p1: Point, p2: Point, p3: Point, p4: Point, p5: Point)
    requires |w| >= 5 && |p1| > c && |p2| > c && |p3| > c && |p4| > c && |p5| > c
    ensures HasDim([p1, p2, p3, p4, p5], c + 1)
    ensures Dot(w, Coord([p1, p2, p3, p4, p5], c), 5) ==
      w[0] * p1[c] + w[1] * p2[c] + w[2] * p3[c] + w[3] * p4[c] + w[4] * p5[c]
  {
    DotFiveTerms(w, Coord([p1, p2, p3, p4, p5], c));
  }

  /** The weighted sum of coordinate `c` of 6 given points, written out term by term. */
  lemma DotSixPoints(w: seq<real>, c: nat, p1: Point, p2: Point, p3: Point, p4: Point, p5: Point, p6: Point)
    requires |w| >= 6 && |p1| > c && |p2| > c && |p3| > c && |p4| > c && |p5| > c && |p6| > c
    ensures HasDim([p1, p2, p3, p4, p5, p6], c + 1)
    ensures Dot(w, Coord([p1, p2, p3, p4, p5, p6], c), 6) ==
      w[0] * p1[c] + w[1] * p2[c] + w[2] * p3[c] + w[3] * p4[c] + w[4] * p5[c] + w[5] * p6[c]
  {
    DotSixTerms(w, Coord([p1, p2, p3, p4, p5, p6], c));
  }

  /** The weighted sum of coordinate `c` of 7 given points, written out term by term. */
  lemma DotSevenPoints(w: seq<real>, c: nat, p1: Point, p2: Point, p3: Point, p4: Point, p5: Point, p6: Point, p7: Point)
    requires |w| >= 7 && |p1| > c && |p2| > c && |p3| > c && |p4| > c && |p5| > c && |p6| > c && |p7| > c
    ensures HasDim([p1, p2, p3, p4, p5, p6, p7], c + 1)
    ensures Dot(w, Coord([p1, p2, p3, p4, p5, p6, p7], c), 7) ==
      w[0] * p1[c] + w[1] * p2[c] + w[2] * p3[c] + w[3] * p4[c] + w[4] * p5[c] + w[5] * p6[c] + w[6] * p7[c]
  {
    DotSevenTerms(w, Coord([p1, p2, p3, p4, p5, p6, p7], c));
  }

  /** Pascal's rule for weight 1 of degree 2, as an identity between polynomials in `u` and `t`. */
  lemma QuadraticMix1(u: real, t: real)
    ensures u * (t) + t * (u) == 2.0 * u * t
  {
  }

  /** Pascal's rule for weight 1 of degree 3, as an identity between polynomials in `u` and `t`. */
  lemma CubicMix1(u: real, t: real)
    ensures u * (2.0 * u * t) + t * (u * u) == 3.0 * u * u * t
  {
  }

  /** Pascal's rule for weight 2 of degree 3, as an identity between polynomials in `u` and `t`. */
  lemma CubicMix2(u: real, t: real)
    ensures u * (t * t) + t * (2.0 * u * t) == 3.0 * u * t * t
  {
  }

  /** Pascal's rule for weight 1 of degree 4, as an identity between polynomials in `u` and `t`. */
  lemma QuarticMix1(u: real, t: real)
    ensures u * (3.0 * u * u * t) + t * (u * u * u) == 4.0 * u * (u * u) * t
  {
  }

  /** Pascal's rule for weight 2 of degree 4, as an identity between polynomials in `u` and `t`. */
  lemma QuarticMix2(u: real, t: real)
    ensures u * (3.0 * u * t * t) + t * (3.0 * u * u * t) == 6.0 * (u * u) * (t * t)
  {
  }

  /** Pascal's rule for weight 3 of degree 4, as an identity between polynomials in `u` and `t`. */
  lemma QuarticMix3(u: real, t: real)
    ensures u * (t * t * t) + t * (3.0 * u * t * t) == 4.0 * u * (t * t) * t
  {
  }

  /** Pascal's rule for weight 1 of degree 5, as an identity between polynomials in `u` and `t`. */
  lemma QuinticMix1(u: real, t: real)
    ensures u * (4.0 * u * (u * u) * t) + t * ((u * u) * (u * u)) == 5.0 * (u * u) * (u * u) * t
  {
  }

  /** Pascal's rule for weight 2 of degree 5, as an identity between polynomials in `u` and `t`. */
  lemma QuinticMix2(u: real, t: real)
    ensures u * (6.0 * (u * u) * (t * t)) + t * (4.0 * u * (u * u) * t) == 10.0 * u * (u * u) * (t * t)
  {
  }

  /** Pascal's rule for weight 3 of degree 5, as an identity between polynomials in `u` and `t`. */
  lemma QuinticMix3(u: real, t: real)
    ensures u * (4.0 * u * (t * t) * t) + t * (6.0 * (u * u) * (t * t)) == 10.0 * (u * u) * (t * t) * t
  {
  }

  /** Pascal's rule for weight 4 of degree 5, as an identity between polynomials in `u` and `t`. */
  lemma QuinticMix4(u: real, t: real)
    ensures u * ((t * t) * (t * t)) + t * (4.0 * u * (t * t) * t) == 5.0 * u * (t * t) * (t * t)
  {
  }

  /** Pascal's rule for weight 1 of degree 6, as an identity between polynomials in `u` and `t`. */
  lemma SexticMix1(u: real, t: real)
    ensures u * (5.0 * (u * u) * (u * u) * t) + t * ((u * u) * (u * u) * u) == 6.0 * (u * u) * (u * u) * u * t
  {
  }

  /** Pascal's rule for weight 2 of degree 6, as an identity between polynomials in `u` and `t`. */
  lemma SexticMix2(u: real, t: real)
    ensures u * (10.0 * u * (u * u) * (t * t)) + t * (5.0 * (u * u) * (u * u) * t) == 15.0 * (u * u) * (u * u) * (t * t)
  {
  }

  /** Pascal's rule for weight 3 of degree 6, as an identity between polynomials in `u` and `t`. */
  lemma SexticMix3(u: real, t: real)
    ensures u * (10.0 * (u * u) * (t * t) * t) + t * (10.0 * u * (u * u) * (t * t)) == 20.0 * u * (u * u) * (t * t) * t
  {
  }

  /** Pascal's rule for weight 4 of degree 6, as an identity between polynomials in `u` and `t`. */
  lemma SexticMix4(u: real, t: real)
    ensures u * (5.0 * u * (t * t) * (t * t)) + t * (10.0 * (u * u) * (t * t) * t) == 15.0 * (u * u) * (t * t) * (t * t)
  {
  }

  /** Pascal's rule for weight 5 of degree 6, as an identity between polynomials in `u` and `t`. */
  lemma SexticMix5(u: real, t: real)
    ensures u * ((t * t) * (t * t) * t) + t * (5.0 * u * (t * t) * (t * t)) == 6.0 * u * (t * t) * (t * t) * t
  {
  }

  /** Bernstein weight 0 of degree 1 in the closed form the fixed-degree evaluators use. */
  lemma LinearWeight0(t: real)
    ensures Row(1, t)[0] == (1.0 - t)
  {
    RowEntries(0, t);
    assert Row(0, t)[0] == 1.0;
    RowFirst(0, t);
  }

  /** Bernstein weight 1 of degree 1 in the closed form the fixed-degree evaluators use. */
  lemma LinearWeight1(t: real)
    ensures Row(1, t)[1] == t
  {
    RowEntries(0, t);
    assert Row(0, t)[0] == 1.0;
    RowLast(0, t);
  }

  /** Bernstein weight 0 of degree 2 in the closed form the fixed-degree evaluators use. */
  lemma QuadraticWeight0(t: real)
    ensures Row(2, t)[0] == (1.0 - t) * (1.0 - t)
  {
    LinearWeight0(t);
    RowFirst(1, t);
  }

  /** Bernstein weight 1 of degree 2 in the closed form the fixed-degree evaluators use. */
  lemma QuadraticWeight1(t: real)
    ensures Row(2, t)[1] == 2.0 * (1.0 - t) * t
  {
    LinearWeight1(t);
    LinearWeight0(t);
    QuadraticMix1(1.0 - t, t);
    RowInner(1, t, 1);
  }

  /** Bernstein weight 2 of degree 2 in the closed form the fixed-degree evaluators use. */
  lemma QuadraticWeight2(t: real)
    ensures Row(2, t)[2] == t * t
  {
    LinearWeight1(t);
    RowLast(1, t);
  }

  /** Bernstein weight 0 of degree 3 in the closed form the fixed-degree evaluators use. */
  lemma CubicWeight0(t: real)
    ensures Row(3, t)[0] == (1.0 - t) * (1.0 - t) * (1.0 - t)
  {
    QuadraticWeight0(t);
    RowFirst(2, t);
  }

  /** Bernstein weight 1 of degree 3 in the closed form the fixed-degree evaluators use. */
  lemma CubicWeight1(t: real)
    ensures Row(3, t)[1] == 3.0 * (1.0 - t) * (1.0 - t) * t
  {
    QuadraticWeight1(t);
    QuadraticWeight0(t);
    CubicMix1(1.0 - t, t);
    RowInner(2, t, 1);
  }

  /** Bernstein weight 2 of degree 3 in the closed form the fixed-degree evaluators use. */
  lemma CubicWeight2(t: real)
    ensures Row(3, t)[2] == 3.0 * (1.0 - t) * t * t
  {
    QuadraticWeight2(t);
    QuadraticWeight1(t);
    CubicMix2(1.0 - t, t);
    RowInner(2, t, 2);
  }

  /** Bernstein weight 3 of degree 3 in the closed form the fixed-degree evaluators use. */
  lemma CubicWeight3(t: real)
    ensures Row(3, t)[3] == t * t * t
  {
    QuadraticWeight2(t);
    RowLast(2, t);
  }

  /** Bernstein weight 0 of degree 4 in the closed form the fixed-degree evaluators use. */
  lemma QuarticWeight0(t: real)
    ensures Row(4, t)[0] == ((1.0 - t) * (1.0 - t)) * ((1.0 - t) * (1.0 - t))
  {
    CubicWeight0(t);
    RowFirst(3, t);
  }

  /** Bernstein weight 1 of degree 4 in the closed form the fixed-degree evaluators use. */
  lemma QuarticWeight1(t: real)
    ensures Row(4, t)[1] == 4.0 * (1.0 - t) * ((1.0 - t) * (1.0 - t)) * t
  {
    CubicWeight1(t);
    CubicWeight0(t);
    QuarticMix1(1.0 - t, t);
    RowInner(3, t, 1);
  }

  /** Bernstein weight 2 of degree 4 in the closed form the fixed-degree evaluators use. */
  lemma QuarticWeight2(t: real)
    ensures Row(4, t)[2] == 6.0 * ((1.0 - t) * (1.0 - t)) * (t * t)
  {
    CubicWeight2(t);
    CubicWeight1(t);
    QuarticMix2(1.0 - t, t);
    RowInner(3, t, 2);
  }

  /** Bernstein weight 3 of degree 4 in the closed form the fixed-degree evaluators use. */
  lemma QuarticWeight3(t: real)
    ensures Row(4, t)[3] == 4.0 * (1.0 - t) * (t * t) * t
  {
    CubicWeight3(t);
    CubicWeight2(t);
    QuarticMix3(1.0 - t, t);
    RowInner(3, t, 3);
  }

  /** Bernstein weight 4 of degree 4 in the closed form the fixed-degree evaluators use. */
  lemma QuarticWeight4(t: real)
    ensures Row(4, t)[4] == (t * t) * (t * t)
  {
    CubicWeight3(t);
    RowLast(3, t);
  }

  /** Bernstein weight 0 of degree 5 in the closed form the fixed-degree evaluators use. */
  lemma QuinticWeight0(t: real)
    ensures Row(5, t)[0] == ((1.0 - t) * (1.0 - t)) * ((1.0 - t) * (1.0 - t)) * (1.0 - t)
  {
    QuarticWeight0(t);
    RowFirst(4, t);
  }

  /** Bernstein weight 1 of degree 5 in the closed form the fixed-degree evaluators use. */
  lemma QuinticWeight1(t: real)
    ensures Row(5, t)[1] == 5.0 * ((1.0 - t) * (1.0 - t)) * ((1.0 - t) * (1.0 - t)) * t
  {
    QuarticWeight1(t);
    QuarticWeight0(t);
    QuinticMix1(1.0 - t, t);
    RowInner(4, t, 1);
  }

  /** Bernstein weight 2 of degree 5 in the closed form the fixed-degree evaluators use. */
  lemma QuinticWeight2(t: real)
    ensures Row(5, t)[2] == 10.0 * (1.0 - t) * ((1.0 - t) * (1.0 - t)) * (t * t)
  {
    QuarticWeight2(t);
    QuarticWeight1(t);
    QuinticMix2(1.0 - t, t);
    RowInner(4, t, 2);
  }

  /** Bernstein weight 3 of degree 5 in the closed form the fixed-degree evaluators use. */
  lemma QuinticWeight3(t: real)
    ensures Row(5, t)[3] == 10.0 * ((1.0 - t) * (1.0 - t)) * (t * t) * t
  {
    QuarticWeight3(t);
    QuarticWeight2(t);
    QuinticMix3(1.0 - t, t);
    RowInner(4, t, 3);
  }

  /** Bernstein weight 4 of degree 5 in the closed form the fixed-degree evaluators use. */
  lemma QuinticWeight4(t: real)
    ensures Row(5, t)[4] == 5.0 * (1.0 - t) * (t * t) * (t * t)
  {
    QuarticWeight4(t);
    QuarticWeight3(t);
    QuinticMix4(1.0 - t, t);
    RowInner(4, t, 4);
  }

  /** Bernstein weight 5 of degree 5 in the closed form the fixed-degree evaluators use. */
  lemma QuinticWeight5(t: real)
    ensures Row(5, t)[5] == (t * t) * (t * t) * t
  {
    QuarticWeight4(t);
    RowLast(4, t);
  }

  /** Bernstein weight 0 of degree 6 in the closed form the fixed-degree evaluators use. */
  lemma SexticWeight0(t: real)
    ensures Row(6, t)[0] == ((1.0 - t) * (1.0 - t)) * ((1.0 - t) * (1.0 - t)) * ((1.0 - t) * (1.0 - t))
  {
    QuinticWeight0(t);
    RowFirst(5, t);
  }

  /** Bernstein weight 1 of degree 6 in the closed form the fixed-degree evaluators use. */
  lemma SexticWeight1(t: real)
    ensures Row(6, t)[1] == 6.0 * ((1.0 - t) * (1.0 - t)) * ((1.0 - t) * (1.0 - t)) * (1.0 - t) * t
  {
    QuinticWeight1(t);
    QuinticWeight0(t);
    SexticMix1(1.0 - t, t);
    RowInner(5, t, 1);
  }

  /** Bernstein weight 2 of degree 6 in the closed form the fixed-degree evaluators use. */
  lemma SexticWeight2(t: real)
    ensures Row(6, t)[2] == 15.0 * ((1.0 - t) * (1.0 - t)) * ((1.0 - t) * (1.0 - t)) * (t * t)
  {
    QuinticWeight2(t);
    QuinticWeight1(t);
    SexticMix2(1.0 - t, t);
    RowInner(5, t, 2);
  }

  /** Bernstein weight 3 of degree 6 in the closed form the fixed-degree evaluators use. */
  lemma SexticWeight3(t: real)
    ensures Row(6, t)[3] == 20.0 * (1.0 - t) * ((1.0 - t) * (1.0 - t)) * (t * t) * t
  {
    QuinticWeight3(t);
    QuinticWeight2(t);
    SexticMix3(1.0 - t, t);
    RowInner(5, t, 3);
  }

  /** Bernstein weight 4 of degree 6 in the closed form the fixed-degree evaluators use. */
  lemma SexticWeight4(t: real)
    ensures Row(6, t)[4] == 15.0 * ((1.0 - t) * (1.0 - t)) * (t * t) * (t * t)
  {
    QuinticWeight4(t);
    QuinticWeight3(t);
    SexticMix4(1.0 - t, t);
    RowInner(5, t, 4);
  }

  /** Bernstein weight 5 of degree 6 in the closed form the fixed-degree evaluators use. */
  lemma SexticWeight5(t: real)
    ensures Row(6, t)[5] == 6.0 * (1.0 - t) * (t * t) * (t * t) * t
  {
    QuinticWeight5(t);
    QuinticWeight4(t);
    SexticMix5(1.0 - t, t);
    RowInner(5, t, 5);
  }

  /** Bernstein weight 6 of degree 6 in the closed form the fixed-degree evaluators use. */
  lemma SexticWeight6(t: real)
    ensures Row(6, t)[6] == (t * t) * (t * t) * (t * t)
  {
    QuinticWeight5(t);
    RowLast(5, t);
  }

  /** The Bernstein weights of degree 2 are the weights `bezierCurveQuadratic` spells out. */
  lemma QuadraticWeights(t: real)
    ensures Row(2, t)[0] == (1.0 - t) * (1.0 - t)
    ensures Row(2, t)[1] == 2.0 * (1.0 - t) * t
    ensures Row(2, t)[2] == t * t
  {
    QuadraticWeight0(t);
    QuadraticWeight1(t);
    QuadraticWeight2(t);
  }

  /** A sum weighted by the Bernstein weights of degree 2 is the sum weighted by their closed forms. */
  lemma QuadraticSum(t: real, x0: real, x1: real, x2: real)
    ensures Row(2, t)[0] * x0 + Row(2, t)[1] * x1 + Row(2, t)[2] * x2 ==
      (1.0 - t) * (1.0 - t) * x0 + 2.0 * (1.0 - t) * t * x1 + t * t * x2
  {
    QuadraticWeights(t);
  }

  /** Coordinate 0 of the general curve through 3 points, with its weights written out. */
  lemma QuadraticX(t: real, point1: Point, point2: Point, point3: Point)
    requires Planar(point1) && Planar(point2) && Planar(point3)
    ensures Dot(Row(2, t), Coord([point1, point2, point3], 0), 3) ==
      (1.0 - t) * (1.0 - t) * point1[0] + 2.0 * (1.0 - t) * t * point2[0] + t * t * point3[0]
  {
    DotThreePoints(Row(2, t), 0, point1, point2, point3);
    QuadraticSum(t, point1[0], point2[0], point3[0]);
  }

  /** Coordinate 1 of the general curve through 3 points, with its weights written out. */
  lemma QuadraticY(t: real, point1: Point, point2: Point, point3: Point)
    requires Planar(point1) && Planar(point2) && Planar(point3)
    ensures Dot(Row(2, t), Coord([point1, point2, point3], 1), 3) ==
      (1.0 - t) * (1.0 - t) * point1[1] + 2.0 * (1.0 - t) * t * point2[1] + t * t * point3[1]
  {
    DotThreePoints(Row(2, t), 1, point1, point2, point3);
    QuadraticSum(t, point1[1], point2[1], point3[1]);
  }

  /** `bezierCurveQuadratic` is `bezierCurve2D` on its 3 control points. */
  lemma QuadraticIsBezier(t: real, point1: Point, point2: Point, point3: Point)
    requires Planar(point1) && Planar(point2) && Planar(point3)
    ensures HasDim([point1, point2, point3], 2)
    ensures CurveQuadratic(t, point1, point2, point3) == CurvePoint2(t, [point1, point2, point3])
  {
    CurveAsDot(t, [point1, point2, point3]);
    QuadraticX(t, point1, point2, point3);
    QuadraticY(t, point1, point2, point3);
  }

  /** The Bernstein weights of degree 3 are the weights `bezierCurveCubic` spells out. */
  lemma CubicWeights(t: real)
    ensures Row(3, t)[0] == (1.0 - t) * (1.0 - t) * (1.0 - t)
    ensures Row(3, t)[1] == 3.0 * (1.0 - t) * (1.0 - t) * t
    ensures Row(3, t)[2] == 3.0 * (1.0 - t) * t * t
    ensures Row(3, t)[3] == t * t * t
  {
    CubicWeight0(t);
    CubicWeight1(t);
    CubicWeight2(t);
    CubicWeight3(t);
  }

  /** A sum weighted by the Bernstein weights of degree 3 is the sum weighted by their closed forms. */
  lemma CubicSum(t: real, x0: real, x1: real, x2: real, x3: real)
    ensures Row(3, t)[0] * x0 + Row(3, t)[1] * x1 + Row(3, t)[2] * x2 + Row(3, t)[3] * x3 ==
      (1.0 - t) * (1.0 - t) * (1.0 - t) * x0 + 3.0 * (1.0 - t) * (1.0 - t) * t * x1
      + 3.0 * (1.0 - t) * t * t * x2 + t * t * t * x3
  {
    CubicWeights(t);
  }

  /** Coordinate 0 of the general curve through 4 points, with its weights written out. */
  lemma CubicX(t: real, point1: Point, point2: Point, point3: Point, point4: Point)
    requires Planar(point1) && Planar(point2) && Planar(point3) && Planar(point4)
    ensures Dot(Row(3, t), Coord([point1, point2, point3, point4], 0), 4) ==
      (1.0 - t) * (1.0 - t) * (1.0 - t) * point1[0] + 3.0 * (1.0 - t) * (1.0 - t) * t * point2[0]
      + 3.0 * (1.0 - t) * t * t * point3[0] + t * t * t * point4[0]
  {
    DotFourPoints(Row(3, t), 0, point1, point2, point3, point4);
    CubicSum(t, point1[0], point2[0], point3[0], point4[0]);
  }

  /** Coordinate 1 of the general curve through 4 points, with its weights written out. */
  lemma CubicY(t: real, point1: Point, point2: Point, point3: Point, point4: Point)
    requires Planar(point1) && Planar(point2) && Planar(point3) && Planar(point4)
    ensures Dot(Row(3, t), Coord([point1, point2, point3, point4], 1), 4) ==
      (1.0 - t) * (1.0 - t) * (1.0 - t) * point1[1] + 3.0 * (1.0 - t) * (1.0 - t) * t * point2[1]
      + 3.0 * (1.0 - t) * t * t * point3[1] + t * t * t * point4[1]
  {
    DotFourPoints(Row(3, t), 1, point1, point2, point3, point4);
    CubicSum(t, point1[1], point2[1], point3[1], point4[1]);
  }

  /** `bezierCurveCubic` is `bezierCurve2D` on its 4 control points. */
  lemma CubicIsBezier(t: real, point1: Point, point2: Point, point3: Point, point4: Point)
    requires Planar(point1) && Planar(point2) && Planar(point3) && Planar(point4)
    ensures HasDim([point1, point2, point3, point4], 2)
    ensures CurveCubic(t, point1, point2, point3, point4) == CurvePoint2(t, [point1, point2, point3, point4])
  {
    CurveAsDot(t, [point1, point2, point3, point4]);
    CubicX(t, point1, point2, point3, point4);
    CubicY(t, point1, point2, point3, point4);
  }

  /** The Bernstein weights of degree 4 are the weights `bezierCurveQuartic` spells out. */
  lemma QuarticWeights(t: real)
    ensures Row(4, t)[0] == ((1.0 - t) * (1.0 - t)) * ((1.0 - t) * (1.0 - t))
    ensures Row(4, t)[1] == 4.0 * (1.0 - t) * ((1.0 - t) * (1.0 - t)) * t
    ensures Row(4, t)[2] == 6.0 * ((1.0 - t) * (1.0 - t)) * (t * t)
    ensures Row(4, t)[3] == 4.0 * (1.0 - t) * (t * t) * t
    ensures Row(4, t)[4] == (t * t) * (t * t)
  {
    QuarticWeight0(t);
    QuarticWeight1(t);
    QuarticWeight2(t);
    QuarticWeight3(t);
    QuarticWeight4(t);
  }

  /** A sum weighted by the Bernstein weights of degree 4 is the sum weighted by their closed forms. */
  lemma QuarticSum(t: real, x0: real, x1: real, x2: real, x3: real, x4: real)
    ensures Row(4, t)[0] * x0 + Row(4, t)[1] * x1 + Row(4, t)[2] * x2 + Row(4, t)[3] * x3 + Row(4, t)[4] * x4 ==
      ((1.0 - t) * (1.0 - t)) * ((1.0 - t) * (1.0 - t)) * x0
      + 4.0 * (1.0 - t) * ((1.0 - t) * (1.0 - t)) * t * x1 + 6.0 * ((1.0 - t) * (1.0 - t)) * (t * t) * x2
      + 4.0 * (1.0 - t) * (t * t) * t * x3 + (t * t) * (t * t) * x4
  {
    QuarticWeights(t);
  }

  /** Coordinate 0 of the general curve through 5 points, with its weights written out. */
  lemma QuarticX(t: real, point1: Point, point2: Point, point3: Point, point4: Point, point5: Point)
    requires Planar(point1) && Planar(point2) && Planar(point3) && Planar(point4) && Planar(point5)
    ensures Dot(Row(4, t), Coord([point1, point2, point3, point4, point5], 0), 5) ==
      ((1.0 - t) * (1.0 - t)) * ((1.0 - t) * (1.0 - t)) * point1[0]
      + 4.0 * (1.0 - t) * ((1.0 - t) * (1.0 - t)) * t * point2[0]
      + 6.0 * ((1.0 - t) * (1.0 - t)) * (t * t) * point3[0] + 4.0 * (1.0 - t) * (t * t) * t * point4[0]
      + (t * t) * (t * t) * point5[0]
  {
    DotFivePoints(Row(4, t), 0, point1, point2, point3, point4, point5);
    QuarticSum(t, point1[0], point2[0], point3[0], point4[0], point5[0]);
  }

  /** Coordinate 1 of the general curve through 5 points, with its weights written out. */
  lemma QuarticY(t: real, point1: Point, point2: Point, point3: Point, point4: Point, point5: Point)
    requires Planar(point1) && Planar(point2) && Planar(point3) && Planar(point4) && Planar(point5)
    ensures Dot(Row(4, t), Coord([point1, point2, point3, point4, point5], 1), 5) ==
      ((1.0 - t) * (1.0 - t)) * ((1.0 - t) * (1.0 - t)) * point1[1]
      + 4.0 * (1.0 - t) * ((1.0 - t) * (1.0 - t)) * t * point2[1]
      + 6.0 * ((1.0 - t) * (1.0 - t)) * (t * t) * point3[1] + 4.0 * (1.0 - t) * (t * t) * t * point4[1]
      + (t * t) * (t * t) * point5[1]
  {
    DotFivePoints(Row(4, t), 1, point1, point2, point3, point4, point5);
    QuarticSum(t, point1[1], point2[1], point3[1], point4[1], point5[1]);
  }

  /** `bezierCurveQuartic` is `bezierCurve2D` on its 5 control points. */
  lemma QuarticIsBezier(t: real, point1: Point, point2: Point, point3: Point, point4: Point, point5: Point)
    requires Planar(point1) && Planar(point2) && Planar(point3) && Planar(point4) && Planar(point5)
    ensures HasDim([point1, point2, point3, point4, point5], 2)
    ensures CurveQuartic(t, point1, point2, point3, point4, point5) == CurvePoint2(t, [point1, point2, point3, point4, point5])
  {
    CurveAsDot(t, [point1, point2, point3, point4, point5]);
    QuarticX(t, point1, point2, point3, point4, point5);
    QuarticY(t, point1, point2, point3, point4, point5);
  }

  /** The Bernstein weights of degree 5 are the weights `bezierCurveQuintic` spells out. */
  lemma QuinticWeights(t: real)
    ensures Row(5, t)[0] == ((1.0 - t) * (1.0 - t)) * ((1.0 - t) * (1.0 - t)) * (1.0 - t)
    ensures Row(5, t)[1] == 5.0 * ((1.0 - t) * (1.0 - t)) * ((1.0 - t) * (1.0 - t)) * t
    ensures Row(5, t)[2] == 10.0 * (1.0 - t) * ((1.0 - t) * (1.0 - t)) * (t * t)
    ensures Row(5, t)[3] == 10.0 * ((1.0 - t) * (1.0 - t)) * (t * t) * t
    ensures Row(5, t)[4] == 5.0 * (1.0 - t) * (t * t) * (t * t)
    ensures Row(5, t)[5] == (t * t) * (t * t) * t
  {
    QuinticWeight0(t);
    QuinticWeight1(t);
    QuinticWeight2(t);
    QuinticWeight3(t);
    QuinticWeight4(t);
    QuinticWeight5(t);
  }

  /** A sum weighted by the Bernstein weights of degree 5 is the sum weighted by their closed forms. */
  lemma QuinticSum(t: real, x0: real, x1: real, x2: real, x3: real, x4: real, x5: real)
    ensures Row(5, t)[0] * x0 + Row(5, t)[1] * x1 + Row(5, t)[2] * x2 + Row(5, t)[3] * x3 + Row(5, t)[4] * x4
      + Row(5, t)[5] * x5 ==
      ((1.0 - t) * (1.0 - t)) * ((1.0 - t) * (1.0 - t)) * (1.0 - t) * x0
      + 5.0 * ((1.0 - t) * (1.0 - t)) * ((1.0 - t) * (1.0 - t)) * t * x1
      + 10.0 * (1.0 - t) * ((1.0 - t) * (1.0 - t)) * (t * t) * x2
      + 10.0 * ((1.0 - t) * (1.0 - t)) * (t * t) * t * x3 + 5.0 * (1.0 - t) * (t * t) * (t * t) * x4
      + (t * t) * (t * t) * t * x5
  {
    QuinticWeights(t);
  }

  /** Coordinate 0 of the general curve through 6 points, with its weights written out. */
  lemma QuinticX(t: real, point1: Point, point2: Point, point3: Point, point4: Point, point5: Point, point6: Point)
    requires Planar(point1) && Planar(point2) && Planar(point3) && Planar(point4) && Planar(point5) && Planar(point6)
    ensures Dot(Row(5, t), Coord([point1, point2, point3, point4, point5, point6], 0), 6) ==
      ((1.0 - t) * (1.0 - t)) * ((1.0 - t) * (1.0 - t)) * (1.0 - t) * point1[0]
      + 5.0 * ((1.0 - t) * (1.0 - t)) * ((1.0 - t) * (1.0 - t)) * t * point2[0]
      + 10.0 * (1.0 - t) * ((1.0 - t) * (1.0 - t)) * (t * t) * point3[0]
      + 10.0 * ((1.0 - t) * (1.0 - t)) * (t * t) * t * point4[0]
      + 5.0 * (1.0 - t) * (t * t) * (t * t) * point5[0] + (t * t) * (t * t) * t * point6[0]
  {
    DotSixPoints(Row(5, t), 0, point1, point2, point3, point4, point5, point6);
    QuinticSum(t, point1[0], point2[0], point3[0], point4[0], point5[0], point6[0]);
  }

  /** Coordinate 1 of the general curve through 6 points, with its weights written out. */
  lemma QuinticY(t: real, point1: Point, point2: Point, point3: Point, point4: Point, point5: Point, point6: Point)
    requires Planar(point1) && Planar(point2) && Planar(point3) && Planar(point4) && Planar(point5) && Planar(point6)
    ensures Dot(Row(5, t), Coord([point1, point2, point3, point4, point5, point6], 1), 6) ==
      ((1.0 - t) * (1.0 - t)) * ((1.0 - t) * (1.0 - t)) * (1.0 - t) * point1[1]
      + 5.0 * ((1.0 - t) * (1.0 - t)) * ((1.0 - t) * (1.0 - t)) * t * point2[1]
      + 10.0 * (1.0 - t) * ((1.0 - t) * (1.0 - t)) * (t * t) * point3[1]
      + 10.0 * ((1.0 - t) * (1.0 - t)) * (t * t) * t * point4[1]
      + 5.0 * (1.0 - t) * (t * t) * (t * t) * point5[1] + (t * t) * (t * t) * t * point6[1]
  {
    DotSixPoints(Row(5, t), 1, point1, point2, point3, point4, point5, point6);
    QuinticSum(t, point1[1], point2[1], point3[1], point4[1], point5[1], point6[1]);
  }

  /** `bezierCurveQuintic` is `bezierCurve2D` on its 6 control points. */
  lemma QuinticIsBezier(t: real, point1: Point, point2: Point, point3: Point, point4: Point, point5: Point, point6: Point)
    requires Planar(point1) && Planar(point2) && Planar(point3) && Planar(point4) && Planar(point5) && Planar(point6)
    ensures HasDim([point1, point2, point3, point4, point5, point6], 2)
    ensures CurveQuintic(t, point1, point2, point3, point4, point5, point6) == CurvePoint2(t, [point1, point2, point3, point4, point5, point6])
  {
    CurveAsDot(t, [point1, point2, point3, point4, point5, point6]);
    QuinticX(t, point1, point2, point3, point4, point5, point6);
    QuinticY(t, point1, point2, point3, point4, point5, point6);
  }

  /** The Bernstein weights of degree 6 are the weights `bezierCurveSextic` spells out. */
  lemma SexticWeights(t: real)
    ensures Row(6, t)[0] == ((1.0 - t) * (1.0 - t)) * ((1.0 - t) * (1.0 - t)) * ((1.0 - t) * (1.0 - t))
    ensures Row(6, t)[1] == 6.0 * ((1.0 - t) * (1.0 - t)) * ((1.0 - t) * (1.0 - t)) * (1.0 - t) * t
    ensures Row(6, t)[2] == 15.0 * ((1.0 - t) * (1.0 - t)) * ((1.0 - t) * (1.0 - t)) * (t * t)
    ensures Row(6, t)[3] == 20.0 * (1.0 - t) * ((1.0 - t) * (1.0 - t)) * (t * t) * t
    ensures Row(6, t)[4] == 15.0 * ((1.0 - t) * (1.0 - t)) * (t * t) * (t * t)
    ensures Row(6, t)[5] == 6.0 * (1.0 - t) * (t * t) * (t * t) * t
    ensures Row(6, t)[6] == (t * t) * (t * t) * (t * t)
  {
    SexticWeight0(t);
    SexticWeight1(t);
    SexticWeight2(t);
    SexticWeight3(t);
    SexticWeight4(t);
    SexticWeight5(t);
    SexticWeight6(t);
  }

  /** A sum weighted by the Bernstein weights of degree 6 is the sum weighted by their closed forms. */
  lemma SexticSum(t: real, x0: real, x1: real, x2: real, x3: real, x4: real, x5: real, x6: real)
    ensures Row(6, t)[0] * x0 + Row(6, t)[1] * x1 + Row(6, t)[2] * x2 + Row(6, t)[3] * x3 + Row(6, t)[4] * x4
      + Row(6, t)[5] * x5 + Row(6, t)[6] * x6 ==
      ((1.0 - t) * (1.0 - t)) * ((1.0 - t) * (1.0 - t)) * ((1.0 - t) * (1.0 - t)) * x0
      + 6.0 * ((1.0 - t) * (1.0 - t)) * ((1.0 - t) * (1.0 - t)) * (1.0 - t) * t * x1
      + 15.0 * ((1.0 - t) * (1.0 - t)) * ((1.0 - t) * (1.0 - t)) * (t * t) * x2
      + 20.0 * (1.0 - t) * ((1.0 - t) * (1.0 - t)) * (t * t) * t * x3
      + 15.0 * ((1.0 - t) * (1.0 - t)) * (t * t) * (t * t) * x4 + 6.0 * (1.0 - t) * (t * t) * (t * t) * t * x5
      + (t * t) * (t * t) * (t * t) * x6
  {
    SexticWeights(t);
  }

  /** Coordinate 0 of the general curve through 7 points, with its weights written out. */
  lemma SexticX(t: real, point1: Point, point2: Point, point3: Point, point4: Point, point5: Point, point6: Point, point7: Point)
    requires Planar(point1) && Planar(point2) && Planar(point3) && Planar(point4) && Planar(point5) && Planar(point6) && Planar(point7)
    ensures Dot(Row(6, t), Coord([point1, point2, point3, point4, point5, point6, point7], 0), 7) ==
      ((1.0 - t) * (1.0 - t)) * ((1.0 - t) * (1.0 - t)) * ((1.0 - t) * (1.0 - t)) * point1[0]
      + 6.0 * ((1.0 - t) * (1.0 - t)) * ((1.0 - t) * (1.0 - t)) * (1.0 - t) * t * point2[0]
      + 15.0 * ((1.0 - t) * (1.0 - t)) * ((1.0 - t) * (1.0 - t)) * (t * t) * point3[0]
      + 20.0 * (1.0 - t) * ((1.0 - t) * (1.0 - t)) * (t * t) * t * point4[0]
      + 15.0 * ((1.0 - t) * (1.0 - t)) * (t * t) * (t * t) * point5[0]
      + 6.0 * (1.0 - t) * (t * t) * (t * t) * t * point6[0] + (t * t) * (t * t) * (t * t) * point7[0]
  {
    DotSevenPoints(Row(6, t), 0, point1, point2, point3, point4, point5, point6, point7);
    SexticSum(t, point1[0], point2[0], point3[0], point4[0], point5[0], point6[0], point7[0]);
  }

  /** Coordinate 1 of the general curve through 7 points, with its weights written out. */
  lemma SexticY(t: real, point1: Point, point2: Point, point3: Point, point4: Point, point5: Point, point6: Point, point7: Point)
    requires Planar(point1) && Planar(point2) && Planar(point3) && Planar(point4) && Planar(point5) && Planar(point6) && Planar(point7)
    ensures Dot(Row(6, t), Coord([point1, point2, point3, point4, point5, point6, point7], 1), 7) ==
      ((1.0 - t) * (1.0 - t)) * ((1.0 - t) * (1.0 - t)) * ((1.0 - t) * (1.0 - t)) * point1[1]
      + 6.0 * ((1.0 - t) * (1.0 - t)) * ((1.0 - t) * (1.0 - t)) * (1.0 - t) * t * point2[1]
      + 15.0 * ((1.0 - t) * (1.0 - t)) * ((1.0 - t) * (1.0 - t)) * (t * t) * point3[1]
      + 20.0 * (1.0 - t) * ((1.0 - t) * (1.0 - t)) * (t * t) * t * point4[1]
      + 15.0 * ((1.0 - t) * (1.0 - t)) * (t * t) * (t * t) * point5[1]
      + 6.0 * (1.0 - t) * (t * t) * (t * t) * t * point6[1] + (t * t) * (t * t) * (t * t) * point7[1]
  {
    DotSevenPoints(Row(6, t), 1, point1, point2, point3, point4, point5, point6, point7);
    SexticSum(t, point1[1], point2[1], point3[1], point4[1], point5[1], point6[1], point7[1]);
  }

  /** `bezierCurveSextic` is `bezierCurve2D` on its 7 control points. */
  lemma SexticIsBezier(t: real, point1: Point, point2: Point, point3: Point, point4: Point, point5: Point, point6: Point, point7: Point)
    requires Planar(point1) && Planar(point2) && Planar(point3) && Planar(point4) && Planar(point5) && Planar(point6) && Planar(point7)
    ensures HasDim([point1, point2, point3, point4, point5, point6, point7], 2)
    ensures CurveSextic(t, point1, point2, point3, point4, point5, point6, point7) == CurvePoint2(t, [point1, point2, point3, point4, point5, point6, point7])
  {
    CurveAsDot(t, [point1, point2, point3, point4, point5, point6, point7]);
    SexticX(t, point1, point2, point3, point4, point5, point6, point7);
    SexticY(t, point1, point2, point3, point4, point5, point6, point7);
  }

  // ---------------------------------------------------------------------------
  // Partition of unity

  /** `bezierCurveQuadratic` with all 3 control points equal to q returns q, at every t. */
  lemma QuadraticConstant(t: real, q: Point)
    requires Planar(q)
    ensures CurveQuadratic(t, q, q, q) == Vec2(q[0], q[1])
  {
    QuadraticIsBezier(t, q, q, q);
    CurveConstant(t, [q, q, q], q[0], q[1]);
  }

  /** `bezierCurveCubic` with all 4 control points equal to q returns q, at every t. */
  lemma CubicConstant(t: real, q: Point)
    requires Planar(q)
    ensures CurveCubic(t, q, q, q, q) == Vec2(q[0], q[1])
  {
    CubicIsBezier(t, q, q, q, q);
    CurveConstant(t, [q, q, q, q], q[0], q[1]);
  }

  /** `bezierCurveQuartic` with all 5 control points equal to q returns q, at every t. */
  lemma QuarticConstant(t: real, q: Point)
    requires Planar(q)
    ensures CurveQuartic(t, q, q, q, q, q) == Vec2(q[0], q[1])
  {
    QuarticIsBezier(t, q, q, q, q, q);
    CurveConstant(t, [q, q, q, q, q], q[0], q[1]);
  }

  /** `bezierCurveQuintic` with all 6 control points equal to q returns q, at every t. */
  lemma QuinticConstant(t: real, q: Point)
    requires Planar(q)
    ensures CurveQuintic(t, q, q, q, q, q, q) == Vec2(q[0], q[1])
  {
    QuinticIsBezier(t, q, q, q, q, q, q);
    CurveConstant(t, [q, q, q, q, q, q], q[0], q[1]);
  }

  /** `bezierCurveSextic` with all 7 control points equal to q returns q, at every t. */
  lemma SexticConstant(t: real, q: Point)
    requires Planar(q)
    ensures CurveSextic(t, q, q, q, q, q, q, q) == Vec2(q[0], q[1])
  {
    SexticIsBezier(t, q, q, q, q, q, q, q);
    CurveConstant(t, [q, q, q, q, q, q, q], q[0], q[1]);
  }
}
