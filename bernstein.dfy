/**
 * The mathematics behind every evaluator of the library: powers, binomial
 * coefficients, the Bernstein basis polynomials and the Bernstein blend of a
 * list of values, with the facts about them that the evaluators rely on.
 */
module Bernstein {
  import opened Sums

  /** `x` to the power `k`, the integer-exponent case of `Math.pow`; `Pow(x, 0) == 1` even for `x == 0`. */
  function Pow(x: real, k: nat): real
  {
    if k == 0 then 1.0 else x * Pow(x, k - 1)
  }

  /** The binomial coefficient C(n, k) by Pascal's rule; zero when `k > n`. */
  function Binom(n: nat, k: nat): nat
  {
    if k == 0 then 1
    else if n < k then 0
    else Binom(n - 1, k - 1) + Binom(n - 1, k)
  }

  /** The Bernstein basis polynomial C(n, p) (1 - t)^(n - p) t^p; zero when `p > n`. */
  function Bernstein(n: nat, p: nat, t: real): real
  {
    if p <= n then (Binom(n, p) as real) * Pow(1.0 - t, n - p) * Pow(t, p) else 0.0
  }

  /**
   * The first `k` Bernstein weights of degree n at `t`, in order. This is the
   * recursion on the prefix length; `Row` and `Weights` are the two whole rows
   * the evaluators use.
   */
  function Basis(n: nat, t: real, k: nat): (w: seq<real>)
    ensures |w| == k
  {
    if k == 0 then [] else Basis(n, t, k - 1) + [Bernstein(n, k - 1, t)]
  }

  /**
   * The n + 1 Bernstein weights of degree n at `t`, in order (their values:
   * `RowEntries`). Indexed by degree, as in Pascal's rule between rows n and n + 1.
   */
  function Row(n: nat, t: real): (w: seq<real>)
    ensures |w| == n + 1
  {
    Basis(n, t, n + 1)
  }

  /**
   * The Bernstein weights for `k` control points: those of degree k - 1, and
   * none when k == 0. Indexed by the number of points, as the evaluators are,
   * so that an empty point list needs no special case.
   */
  function Weights(k: nat, t: real): (w: seq<real>)
    ensures |w| == k
    ensures k > 0 ==> w == Row(k - 1, t)
  {
    if k == 0 then [] else Row(k - 1, t)
  }

  /**
   * The Bernstein blend of `v` at `t`: value v[p] weighted by the Bernstein
   * weight of index p and degree |v| - 1. It is one coordinate of the Bézier
   * curve whose control points have the coordinates `v`; no values blend to 0.
   */
  function Blend(t: real, v: seq<real>): real
  {
    Dot(Weights(|v|, t), v, |v|)
  }

  // ---------------------------------------------------------------------------
  // Powers and binomial coefficients

  lemma {:induction false} PowOne(k: nat)
    ensures Pow(1.0, k) == 1.0
  {
    if k > 0 {
      PowOne(k - 1);
    }
  }

  lemma {:induction false} BinomDiagonal(n: nat)
    ensures Binom(n, n) == 1
  {
    if n > 0 {
      BinomDiagonal(n - 1);
    }
  }

  /**
   * The multiplicative step along a row of Pascal's triangle,
   * C(n, p + 1) (p + 1) == C(n, p) (n - p): multiplying C(n, p) by
   * (n - p) / (p + 1) gives the next entry of the row, and 0 after the last.
   */
  lemma {:induction false} BinomStep(n: nat, p: nat)
    requires p <= n
    ensures Binom(n, p + 1) * (p + 1) == Binom(n, p) * (n - p)
  {
    if n == 0 {
    } else if p == 0 {
      BinomStep(n - 1, 0);
      assert Binom(n, 1) == 1 + Binom(n - 1, 1);
    } else if p == n {
    } else {
      BinomStep(n - 1, p);
      BinomStep(n - 1, p - 1);
      StepArithmetic(Binom(n - 1, p - 1), Binom(n - 1, p), Binom(n - 1, p + 1), n, p);
    }
  }

  /** The arithmetic of one Pascal step: from the two identities of row n - 1 to the one of row n. */
  lemma StepArithmetic(a: int, b: int, c: int, n: int, p: int)
    requires c * (p + 1) == b * (n - 1 - p)
    requires b * p == a * (n - p)
    ensures (b + c) * (p + 1) == (a + b) * (n - p)
  {
    calc {
      (b + c) * (p + 1);
      b * (p + 1) + c * (p + 1);
      b * (p + 1) + b * (n - 1 - p);
      b * n;
      b * p + b * (n - p);
      a * (n - p) + b * (n - p);
      (a + b) * (n - p);
    }
  }

  /** The step in real division, as the evaluators perform it: C(n, p) ((n - p) / (p + 1)) == C(n, p + 1). */
  lemma BinomStepReal(n: nat, p: nat)
    requires p <= n
    ensures (Binom(n, p) as real) * ((n - p) as real / (p + 1) as real) == Binom(n, p + 1) as real
  {
    BinomStep(n, p);
    RatioStep(Binom(n, p), Binom(n, p + 1), n - p, p + 1);
  }

  /** Plain arithmetic: if c d == b m with d > 0, then b (m / d) == c over the reals. */
  lemma RatioStep(b: int, c: int, m: int, d: int)
    requires d > 0 && c * d == b * m
    ensures (b as real) * (m as real / d as real) == c as real
  {
    assert (c as real) * (d as real) == (b as real) * (m as real);
  }

  /**
   * One update of the running coefficient of the evaluation loops,
   * `term *= (n - p) / (p + 1)`: it takes C(n, p) to C(n, p + 1), which is 0 once p == n.
   */
  method NextCoefficient(n: nat, p: nat, term: real) returns (next: real)
    requires p <= n
    ensures term == Binom(n, p) as real ==> next == Binom(n, p + 1) as real
  {
    next := term * ((n - p) as real / (p + 1) as real);
    BinomStepReal(n, p);
  }

  /** Rows of Pascal's triangle read the same in both directions. */
  lemma {:induction false} BinomSymmetric(n: nat, p: nat)
    requires p <= n
    ensures Binom(n, p) == Binom(n, n - p)
  {
    if n == 0 {
    } else if p == 0 || p == n {
      BinomDiagonal(n);
    } else {
      BinomSymmetric(n - 1, p - 1);
      BinomSymmetric(n - 1, p);
      assert Binom(n, n - p) == Binom(n - 1, n - p - 1) + Binom(n - 1, n - p);
    }
  }

  // ---------------------------------------------------------------------------
  // Rows of weights

  lemma {:induction false} BasisAt(n: nat, t: real, k: nat, p: nat)
    requires p < k
    ensures Basis(n, t, k)[p] == Bernstein(n, p, t)
  {
    if p < k - 1 {
      BasisAt(n, t, k - 1, p);
    }
  }

  /** One entry of a row: entry p of the row of degree n is B(n, p, t). */
  lemma RowAt(n: nat, t: real, p: nat)
    requires p <= n
    ensures Row(n, t)[p] == Bernstein(n, p, t)
  {
    BasisAt(n, t, n + 1, p);
  }

  /** Entry p of the row of degree n is the Bernstein weight B(n, p, t). */
  lemma RowEntries(n: nat, t: real)
    ensures forall p :: 0 <= p <= n ==> Row(n, t)[p] == Bernstein(n, p, t)
  {
    forall p | 0 <= p <= n
      ensures Row(n, t)[p] == Bernstein(n, p, t)
    {
      RowAt(n, t, p);
    }
  }

  // ---------------------------------------------------------------------------
  // Bernstein weights

  /** At t == 0 only the first weight is non-zero, and it is 1. */
  lemma BernsteinAtZero(n: nat, p: nat)
    ensures Bernstein(n, p, 0.0) == if p == 0 then 1.0 else 0.0
  {
    if p == 0 {
      PowOne(n);
    } else if p <= n {
      assert Pow(0.0, p) == 0.0 * Pow(0.0, p - 1);
    }
  }

  /** At t == 1 only the last weight is non-zero, and it is 1. */
  lemma BernsteinAtOne(n: nat, p: nat)
    ensures Bernstein(n, p, 1.0) == if p == n then 1.0 else 0.0
  {
    if p == n {
      BinomDiagonal(n);
      PowOne(n);
    } else if p < n {
      assert Pow(0.0, n - p) == 0.0 * Pow(0.0, n - p - 1);
    }
  }

  /** Pascal's rule for the basis: B(n + 1, p) == (1 - t) B(n, p) + t B(n, p - 1). */
  lemma BernsteinPascal(n: nat, p: nat, t: real)
    requires 1 <= p
    ensures Bernstein(n + 1, p, t) == (1.0 - t) * Bernstein(n, p, t) + t * Bernstein(n, p - 1, t)
  {
    if p <= n {
      BernsteinPascalInner(n, p, t);
    } else if p == n + 1 {
      BinomDiagonal(n);
      BinomDiagonal(n + 1);
      assert Pow(t, p) == t * Pow(t, n);
    }
  }

  /** Pascal's rule for an index inside both rows, where both binomial coefficients contribute. */
  lemma BernsteinPascalInner(n: nat, p: nat, t: real)
    requires 1 <= p <= n
    ensures Bernstein(n + 1, p, t) == (1.0 - t) * Bernstein(n, p, t) + t * Bernstein(n, p - 1, t)
  {
    var a, b, c := Binom(n, p - 1) as real, Binom(n, p) as real, Binom(n + 1, p) as real;
    var s, r := Pow(1.0 - t, n - p), Pow(t, p - 1);
    var su, tr := Pow(1.0 - t, n + 1 - p), Pow(t, p);
    assert c == a + b;
    assert su == (1.0 - t) * s;
    assert tr == t * r;
    assert Pow(1.0 - t, n - (p - 1)) == su;
    PascalArithmetic(Bernstein(n + 1, p, t), Bernstein(n, p, t), Bernstein(n, p - 1, t), a, b, c, s, r, su, tr, t);
  }

  /** The arithmetic of one Pascal step of the basis, with the powers and coefficients as plain values. */
  lemma PascalArithmetic(next: real, x: real, y: real, a: real, b: real, c: real, s: real, r: real,
                         su: real, tr: real, t: real)
    requires c == a + b && su == (1.0 - t) * s && tr == t * r
    requires next == c * su * tr && x == b * s * tr && y == a * su * r
    ensures next == (1.0 - t) * x + t * y
  {
  }

  /** The first weight of the next degree: B(n + 1, 0) == (1 - t) B(n, 0). */
  lemma BernsteinFirst(n: nat, t: real)
    ensures Bernstein(n + 1, 0, t) == (1.0 - t) * Bernstein(n, 0, t)
  {
    assert Pow(1.0 - t, n + 1) == (1.0 - t) * Pow(1.0 - t, n);
  }

  /** Mirror symmetry of the basis: B(n, n - p, 1 - t) == B(n, p, t). */
  lemma BernsteinMirror(n: nat, p: nat, t: real)
    requires p <= n
    ensures Bernstein(n, n - p, 1.0 - t) == Bernstein(n, p, t)
  {
    BinomSymmetric(n, p);
    assert 1.0 - (1.0 - t) == t;
  }

  /** One weight of degree n + 1 split into weights of degree n, as in Pascal's rule. */
  lemma RowPascalAt(n: nat, t: real, p: nat)
    requires p < n + 2
    ensures Row(n + 1, t)[p] == (1.0 - t) * (Row(n, t) + [0.0])[p] + t * ([0.0] + Row(n, t))[p]
  {
    var a, b := Row(n, t) + [0.0], [0.0] + Row(n, t);
    RowStep(n, t, p);
    if p == 0 {
      assert a[0] == Row(n, t)[0] && b[0] == 0.0;
    } else if p == n + 1 {
      assert a[p] == 0.0 && b[p] == Row(n, t)[n];
    } else {
      assert a[p] == Row(n, t)[p] && b[p] == Row(n, t)[p - 1];
    }
  }

  /** The weights of degree n + 1 split into the weights of degree n, as in Pascal's rule. */
  lemma RowPascal(n: nat, t: real)
    ensures forall p :: 0 <= p < n + 2 ==>
      Row(n + 1, t)[p] == (1.0 - t) * (Row(n, t) + [0.0])[p] + t * ([0.0] + Row(n, t))[p]
  {
    forall p | 0 <= p < n + 2
      ensures Row(n + 1, t)[p] == (1.0 - t) * (Row(n, t) + [0.0])[p] + t * ([0.0] + Row(n, t))[p]
    {
      RowPascalAt(n, t, p);
    }
  }

  /**
   * Pascal's rule for one entry of a row: the first entry of degree n + 1 is
   * (1 - t) times the first of degree n, the last is t times the last, and
   * every inner entry mixes the two neighbouring entries of degree n.
   */
  lemma RowStep(n: nat, t: real, p: nat)
    requires p < n + 2
    ensures p == 0 ==> Row(n + 1, t)[0] == (1.0 - t) * Row(n, t)[0]
    ensures p == n + 1 ==> Row(n + 1, t)[n + 1] == t * Row(n, t)[n]
    ensures 1 <= p <= n ==> Row(n + 1, t)[p] == (1.0 - t) * Row(n, t)[p] + t * Row(n, t)[p - 1]
  {
    if p == 0 {
      RowFirst(n, t);
    } else if p == n + 1 {
      RowLast(n, t);
    } else {
      RowInner(n, t, p);
    }
  }

  /** The first entry of the next row: (1 - t) times the first entry of this one. */
  lemma RowFirst(n: nat, t: real)
    ensures Row(n + 1, t)[0] == (1.0 - t) * Row(n, t)[0]
  {
    RowAt(n + 1, t, 0);
    RowAt(n, t, 0);
    BernsteinFirst(n, t);
  }

  /** The last entry of the next row: t times the last entry of this one. */
  lemma RowLast(n: nat, t: real)
    ensures Row(n + 1, t)[n + 1] == t * Row(n, t)[n]
  {
    RowAt(n + 1, t, n + 1);
    RowAt(n, t, n);
    BernsteinPascal(n, n + 1, t);
    assert Bernstein(n, n + 1, t) == 0.0;
  }

  /** An inner entry of the next row mixes the two entries of this row around it. */
  lemma RowInner(n: nat, t: real, p: nat)
    requires 1 <= p <= n
    ensures Row(n + 1, t)[p] == (1.0 - t) * Row(n, t)[p] + t * Row(n, t)[p - 1]
  {
    RowAt(n + 1, t, p);
    RowAt(n, t, p);
    RowAt(n, t, p - 1);
    BernsteinPascal(n, p, t);
    MixOf(Row(n + 1, t)[p], Row(n, t)[p], Row(n, t)[p - 1],
          Bernstein(n + 1, p, t), Bernstein(n, p, t), Bernstein(n, p - 1, t), t);
  }

  /**
   * Plain real arithmetic: a mix (1 - t) y + t z of values equal to those of a
   * known mix. Stated on plain reals so that `RowInner` stays cheap.
   */
  lemma MixOf(x: real, y: real, z: real, ex: real, ey: real, ez: real, t: real)
    requires x == ex && y == ey && z == ez && ex == (1.0 - t) * ey + t * ez
    ensures x == (1.0 - t) * y + t * z
  {
  }

  /** Partition of unity: the n + 1 Bernstein weights of degree n sum to 1, at every t. */
  lemma {:induction false} PartitionOfUnity(n: nat, t: real)
    ensures Sum(Row(n, t), n + 1) == 1.0
  {
    if n == 0 {
      RowEntries(0, t);
      assert Row(0, t)[0] == 1.0;
    } else {
      var m := n - 1;
      PartitionOfUnity(m, t);
      RowPascal(m, t);
      SumPascal(Row(m, t), Row(n, t), t);
    }
  }

  /** The weights at 1 - t are the weights at t in reverse order. */
  lemma RowMirror(n: nat, t: real)
    ensures Row(n, 1.0 - t) == Reverse(Row(n, t))
  {
    RowEntries(n, t);
    RowEntries(n, 1.0 - t);
    forall p | 0 <= p <= n
      ensures Row(n, 1.0 - t)[p] == Reverse(Row(n, t))[p]
    {
      BernsteinMirror(n, n - p, t);
    }
  }

  // ---------------------------------------------------------------------------
  // Blends

  /** Endpoint interpolation at t == 0: the blend is the first value. */
  lemma BlendAtZero(v: seq<real>)
    requires |v| >= 1
    ensures Blend(0.0, v) == v[0]
  {
    var w := Row(|v| - 1, 0.0);
    RowEntries(|v| - 1, 0.0);
    forall p | 0 <= p < |v|
      ensures w[p] == if p == 0 then 1.0 else 0.0
    {
      BernsteinAtZero(|v| - 1, p);
    }
    DotIndicator(w, v, 0, |v|);
  }

  /** Endpoint interpolation at t == 1: the blend is the last value. */
  lemma BlendAtOne(v: seq<real>)
    requires |v| >= 1
    ensures Blend(1.0, v) == v[|v| - 1]
  {
    var n := |v| - 1;
    var w := Row(n, 1.0);
    RowEntries(n, 1.0);
    forall p | 0 <= p < |v|
      ensures w[p] == if p == n then 1.0 else 0.0
    {
      BernsteinAtOne(n, p);
    }
    DotIndicator(w, v, n, |v|);
  }

  /** A single value is its own blend, whatever t is. */
  lemma BlendSingle(t: real, a: real)
    ensures Blend(t, [a]) == a
  {
    var w := Row(0, t);
    RowEntries(0, t);
    assert w[0] == 1.0;
    assert Dot(w, [a], 1) == Dot(w, [a], 0) + w[0] * [a][0];
  }

  /**
   * Affine invariance: blending values that are an affine combination of two
   * value lists gives the same affine combination of their blends.
   */
  lemma BlendAffine(t: real, u: seq<real>, v: seq<real>, r: seq<real>, alpha: real, beta: real, gamma: real)
    requires |u| == |v| == |r| >= 1
    requires forall i :: 0 <= i < |r| ==> r[i] == alpha * u[i] + beta * v[i] + gamma
    ensures Blend(t, r) == alpha * Blend(t, u) + beta * Blend(t, v) + gamma
  {
    var n := |r| - 1;
    DotAffine(Row(n, t), u, v, r, alpha, beta, gamma, n + 1);
    PartitionOfUnity(n, t);
  }

  /** Partition of unity for blends: equal values blend to that value, at every t. */
  lemma BlendConstant(t: real, v: seq<real>, a: real)
    requires |v| >= 1
    requires forall i :: 0 <= i < |v| ==> v[i] == a
    ensures Blend(t, v) == a
  {
    BlendAffine(t, v, v, v, 0.0, 0.0, a);
  }

  /** Symmetry: blending the values in reverse order at 1 - t gives the blend at t. */
  lemma BlendReverse(t: real, v: seq<real>)
    ensures Blend(1.0 - t, Reverse(v)) == Blend(t, v)
  {
    if |v| > 0 {
      RowMirror(|v| - 1, t);
      DotReverse(Row(|v| - 1, t), v);
    }
  }
}
