/**
 * Finite sums of reals: plain sums and weighted sums (dot products), each
 * taken over a prefix of its operands the way an accumulating loop visits
 * them, with the algebra of these sums.
 */
module Sums {

  /** s[0] + ... + s[k - 1]. */
  function Sum(s: seq<real>, k: nat): real
    requires k <= |s|
  {
    if k == 0 then 0.0 else Sum(s, k - 1) + s[k - 1]
  }

  /** w[0] v[0] + ... + w[k - 1] v[k - 1]. */
  function Dot(w: seq<real>, v: seq<real>, k: nat): real
    requires k <= |w| && k <= |v|
  {
    if k == 0 then 0.0 else Dot(w, v, k - 1) + w[k - 1] * v[k - 1]
  }

  /** `s` in reverse order. */
  function Reverse<T>(s: seq<T>): (r: seq<T>)
    ensures |r| == |s|
    ensures forall i :: 0 <= i < |s| ==> r[i] == s[|s| - 1 - i]
  {
    seq(|s|, i requires 0 <= i < |s| => s[|s| - 1 - i])
  }

  // ---------------------------------------------------------------------------
  // Algebra of sums

  /** One more term of a weighted sum, as an accumulating loop adds it. */
  lemma DotStep(w: seq<real>, v: seq<real>, k: nat, acc: real, a: real, c: real)
    requires k < |w| && k < |v|
    requires acc == Dot(w, v, k) && a == w[k] && c == v[k]
    ensures acc + a * c == Dot(w, v, k + 1)
  {
  }

  /** Plain real arithmetic for one step of `DotAffine`. */
  lemma AffineStep(acc: real, accU: real, accV: real, accW: real, x: real, y: real, z: real, c: real,
                   alpha: real, beta: real, gamma: real, next: real, nextU: real, nextV: real, nextW: real)
    requires acc == alpha * accU + beta * accV + gamma * accW
    requires x == alpha * y + beta * z + gamma
    requires next == acc + c * x && nextU == accU + c * y && nextV == accV + c * z && nextW == accW + c
    ensures next == alpha * nextU + beta * nextV + gamma * nextW
  {
  }

  /**
   * A weighted sum is affine in the weighted values: if r[i] == alpha u[i] + beta v[i] + gamma
   * then the sum of w against r is the same combination of the sums against u, v and of the weights.
   */
  lemma {:induction false} DotAffine(w: seq<real>, u: seq<real>, v: seq<real>, r: seq<real>,
                                     alpha: real, beta: real, gamma: real, k: nat)
    requires k <= |w| && k <= |u| && k <= |v| && k <= |r|
    requires forall i :: 0 <= i < k ==> r[i] == alpha * u[i] + beta * v[i] + gamma
    ensures Dot(w, r, k) == alpha * Dot(w, u, k) + beta * Dot(w, v, k) + gamma * Sum(w, k)
  {
    if k > 0 {
      var j := k - 1;
      DotAffine(w, u, v, r, alpha, beta, gamma, j);
      assert r[j] == alpha * u[j] + beta * v[j] + gamma;
      DotAffineStep(w, u, v, r, alpha, beta, gamma, k);
    }
  }

  /** One step of `DotAffine`: the identity for the first k - 1 terms extends to k terms. */
  lemma DotAffineStep(w: seq<real>, u: seq<real>, v: seq<real>, r: seq<real>,
                      alpha: real, beta: real, gamma: real, k: nat)
    requires 0 < k <= |w| && k <= |u| && k <= |v| && k <= |r|
    requires Dot(w, r, k - 1) == alpha * Dot(w, u, k - 1) + beta * Dot(w, v, k - 1) + gamma * Sum(w, k - 1)
    requires r[k - 1] == alpha * u[k - 1] + beta * v[k - 1] + gamma
    ensures Dot(w, r, k) == alpha * Dot(w, u, k) + beta * Dot(w, v, k) + gamma * Sum(w, k)
  {
    var j := k - 1;
    AffineStep(Dot(w, r, j), Dot(w, u, j), Dot(w, v, j), Sum(w, j), r[j], u[j], v[j], w[j], alpha, beta, gamma,
               Dot(w, r, k), Dot(w, u, k), Dot(w, v, k), Sum(w, k));
  }

  /** Plain real arithmetic for one step of a linear-combination argument. */
  lemma LinearStep(acc: real, accA: real, accB: real, x: real, y: real, z: real, alpha: real, beta: real)
    requires acc == alpha * accA + beta * accB
    requires x == alpha * y + beta * z
    ensures acc + x == alpha * (accA + y) + beta * (accB + z)
  {
  }

  /** A sum is linear in its terms. */
  lemma {:induction false} SumLinear(a: seq<real>, b: seq<real>, c: seq<real>, alpha: real, beta: real, k: nat)
    requires k <= |a| && k <= |b| && k <= |c|
    requires forall i :: 0 <= i < k ==> c[i] == alpha * a[i] + beta * b[i]
    ensures Sum(c, k) == alpha * Sum(a, k) + beta * Sum(b, k)
  {
    if k > 0 {
      var j := k - 1;
      SumLinear(a, b, c, alpha, beta, j);
      LinearStep(Sum(c, j), Sum(a, j), Sum(b, j), c[j], a[j], b[j], alpha, beta);
    }
  }

  /** Sums over sequences that agree on the summed prefix are equal. */
  lemma {:induction false} SumAgree(a: seq<real>, b: seq<real>, k: nat)
    requires k <= |a| && k <= |b|
    requires forall i :: 0 <= i < k ==> a[i] == b[i]
    ensures Sum(a, k) == Sum(b, k)
  {
    if k > 0 {
      SumAgree(a, b, k - 1);
    }
  }

  /** Putting a zero in front of a sequence does not change its sum. */
  lemma {:induction false} SumZeroFront(s: seq<real>, k: nat)
    requires k <= |s|
    ensures Sum([0.0] + s, k + 1) == Sum(s, k)
  {
    if k > 0 {
      SumZeroFront(s, k - 1);
      assert ([0.0] + s)[k] == s[k - 1];
    } else {
      assert ([0.0] + s)[0] == 0.0;
    }
  }

  /** Putting a zero at the end of a sequence does not change its sum. */
  lemma SumZeroBack(s: seq<real>)
    ensures Sum(s + [0.0], |s| + 1) == Sum(s, |s|)
  {
    SumAgree(s + [0.0], s, |s|);
  }

  /**
   * A sequence built from `r` by Pascal's rule, c[p] == (1 - t) r[p] + t r[p - 1]
   * with zeros beyond both ends of `r`, has the same sum as `r`.
   */
  lemma SumPascal(r: seq<real>, c: seq<real>, t: real)
    requires |c| == |r| + 1
    requires forall p :: 0 <= p < |c| ==> c[p] == (1.0 - t) * (r + [0.0])[p] + t * ([0.0] + r)[p]
    ensures Sum(c, |c|) == Sum(r, |r|)
  {
    var a, b := r + [0.0], [0.0] + r;
    SumLinear(a, b, c, 1.0 - t, t, |c|);
    SumZeroBack(r);
    SumZeroFront(r, |r|);
    ConvexStep(Sum(c, |c|), Sum(r, |r|), t);
  }

  /**
   * Plain real arithmetic: a convex combination of a value with itself is that
   * value. Stated on plain reals so that `SumPascal` stays cheap.
   */
  lemma ConvexStep(sc: real, s: real, t: real)
    requires sc == (1.0 - t) * s + t * s
    ensures sc == s
  {
  }

  /**
   * A weighted sum whose weights vanish everywhere except at `j`, where the
   * weight is 1, picks out v[j].
   */
  lemma {:induction false} DotIndicator(w: seq<real>, v: seq<real>, j: nat, k: nat)
    requires k <= |w| && k <= |v| && j < k
    requires w[j] == 1.0
    requires forall i :: 0 <= i < k && i != j ==> w[i] == 0.0
    ensures Dot(w, v, k) == v[j]
  {
    if k - 1 == j {
      DotZero(w, v, j);
    } else {
      DotIndicator(w, v, j, k - 1);
    }
  }

  /** A weighted sum over zero weights is zero. */
  lemma {:induction false} DotZero(w: seq<real>, v: seq<real>, k: nat)
    requires k <= |w| && k <= |v|
    requires forall i :: 0 <= i < k ==> w[i] == 0.0
    ensures Dot(w, v, k) == 0.0
  {
    if k > 0 {
      DotZero(w, v, k - 1);
    }
  }

  /**
   * Reversing both operands of a weighted sum: the first `k` terms of the
   * reversed sum are the full sum minus its first |w| - k terms.
   */
  lemma {:induction false} DotReversePrefix(w: seq<real>, v: seq<real>, k: nat)
    requires |w| == |v| && k <= |w|
    ensures Dot(Reverse(w), Reverse(v), k) == Dot(w, v, |w|) - Dot(w, v, |w| - k)
  {
    if k > 0 {
      DotReversePrefix(w, v, k - 1);
      var q := |w| - k;
      var rw, rv := Reverse(w), Reverse(v);
      assert rw[k - 1] == w[q] && rv[k - 1] == v[q];
      assert Dot(w, v, q + 1) == Dot(w, v, q) + w[q] * v[q];
    }
  }

  /** A weighted sum does not depend on the order of its terms. */
  lemma DotReverse(w: seq<real>, v: seq<real>)
    requires |w| == |v|
    ensures Dot(Reverse(w), Reverse(v), |w|) == Dot(w, v, |w|)
  {
    DotReversePrefix(w, v, |w|);
  }

  /** Plain real arithmetic: a common factor taken out of a sum, one term at a time. */
  lemma FactorStep(acc: real, dot: real, a: real, x: real, y: real)
    requires acc == a * dot
    ensures acc + (a * x) * y == a * (dot + x * y)
  {
  }
}
