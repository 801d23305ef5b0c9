/**
 * Sums, means and population variances over sequences of reals: the part of
 * numpy's reductions (`+=`, `np.mean`, `np.var` with ddof = 0) that the policy
 * relies on, with exact real arithmetic in place of floating point.
 */
module Reals {

  /** The sum of a sequence, accumulated from the front as a running sum. */
  function Sum(xs: seq<real>): real
  {
    if |xs| == 0 then 0.0 else Sum(xs[..|xs| - 1]) + xs[|xs| - 1]
  }

  /** Adding the next element to a running sum over a prefix. */
  lemma SumPrefixStep(xs: seq<real>, t: nat)
    requires t < |xs|
    ensures Sum(xs[..t + 1]) == Sum(xs[..t]) + xs[t]
  {
    assert xs[..t + 1][..t] == xs[..t];
  }

  /** The sum peeled from the front instead of the back. */
  lemma {:induction false} SumFront(xs: seq<real>)
    requires |xs| > 0
    ensures Sum(xs) == xs[0] + Sum(xs[1..])
  {
    if |xs| > 1 {
      SumFront(xs[..|xs| - 1]);
      assert xs[..|xs| - 1][1..] == xs[1..][..|xs[1..]| - 1];
    }
  }

  /** Sums of sequences that agree pointwise agree. */
  lemma SumEqual(xs: seq<real>, ys: seq<real>)
    requires |xs| == |ys|
    requires forall i | 0 <= i < |xs| :: xs[i] == ys[i]
    ensures Sum(xs) == Sum(ys)
  {
    assert xs == ys;
  }

  /** A constant sequence sums to its length times the constant. */
  lemma {:induction false} SumConstant(xs: seq<real>, c: real)
    requires forall i | 0 <= i < |xs| :: xs[i] == c
    ensures Sum(xs) == |xs| as real * c
  {
    if |xs| > 0 {
      SumConstant(xs[..|xs| - 1], c);
    }
  }

  /** Every element at least `lo` gives a sum at least `|xs| * lo`. */
  lemma {:induction false} SumLowerBound(xs: seq<real>, lo: real)
    requires forall i | 0 <= i < |xs| :: lo <= xs[i]
    ensures |xs| as real * lo <= Sum(xs)
  {
    if |xs| > 0 {
      SumLowerBound(xs[..|xs| - 1], lo);
    }
  }

  /** Every element at most `hi` gives a sum at most `|xs| * hi`. */
  lemma {:induction false} SumUpperBound(xs: seq<real>, hi: real)
    requires forall i | 0 <= i < |xs| :: xs[i] <= hi
    ensures Sum(xs) <= |xs| as real * hi
  {
    if |xs| > 0 {
      SumUpperBound(xs[..|xs| - 1], hi);
    }
  }

  /** The smallest element. */
  function Min(xs: seq<real>): (m: real)
    requires |xs| > 0
    ensures forall i | 0 <= i < |xs| :: m <= xs[i]
    ensures exists i | 0 <= i < |xs| :: xs[i] == m
  {
    if |xs| == 1 then xs[0]
    else
      var m' := Min(xs[..|xs| - 1]);
      if xs[|xs| - 1] < m' then xs[|xs| - 1] else m'
  }

  /** The largest element. */
  function Max(xs: seq<real>): (m: real)
    requires |xs| > 0
    ensures forall i | 0 <= i < |xs| :: xs[i] <= m
    ensures exists i | 0 <= i < |xs| :: xs[i] == m
  {
    if |xs| == 1 then xs[0]
    else
      var m' := Max(xs[..|xs| - 1]);
      if m' < xs[|xs| - 1] then xs[|xs| - 1] else m'
  }

  /** The arithmetic mean, as `np.mean`. */
  function Mean(xs: seq<real>): real
    requires |xs| > 0
  {
    Sum(xs) / |xs| as real
  }

  /** Squared deviations from the mean. */
  function SquaredDeviations(xs: seq<real>): (ds: seq<real>)
    requires |xs| > 0
  {
    var m := Mean(xs);
    seq(|xs|, i requires 0 <= i < |xs| => (xs[i] - m) * (xs[i] - m))
  }

  /** The population variance (divisor `|xs|`), as `np.var` with its default ddof = 0. */
  function Variance(xs: seq<real>): (v: real)
    requires |xs| > 0
    ensures 0.0 <= v
  {
    var ds := SquaredDeviations(xs);
    SumLowerBound(ds, 0.0);
    Sum(ds) / |xs| as real
  }

  /** Bounds that hold of every element hold of the mean. */
  lemma MeanBounds(xs: seq<real>, lo: real, hi: real)
    requires |xs| > 0
    requires forall i | 0 <= i < |xs| :: lo <= xs[i] <= hi
    ensures lo <= Mean(xs) <= hi
  {
    SumLowerBound(xs, lo);
    SumUpperBound(xs, hi);
    DivBounds(Sum(xs), |xs| as real, lo, hi);
  }

  /** The mean lies between the smallest and the largest element. */
  lemma MeanWithinRange(xs: seq<real>)
    requires |xs| > 0
    ensures Min(xs) <= Mean(xs) <= Max(xs)
  {
    MeanBounds(xs, Min(xs), Max(xs));
  }

  /** Division by a positive number keeps bounds `n * lo <= s <= n * hi`. */
  lemma DivBounds(s: real, n: real, lo: real, hi: real)
    requires 0.0 < n && n * lo <= s <= n * hi
    ensures lo <= s / n <= hi
  {
    assert (s / n) * n == s;
  }

  /** The smoothing update `alpha * x + (1 - alpha) * y` of the refinement loop. */
  function Smooth(alpha: real, x: real, y: real): real
  {
    alpha * x + (1.0 - alpha) * y
  }

  /** For `alpha` in [0, 1] the update is a convex combination of its two inputs. */
  lemma SmoothIsConvex(alpha: real, x: real, y: real)
    requires 0.0 <= alpha <= 1.0
    ensures (if x <= y then x else y) <= Smooth(alpha, x, y) <= (if x <= y then y else x)
  {
    assert Smooth(alpha, x, y) == x + (1.0 - alpha) * (y - x);
    assert Smooth(alpha, x, y) == y - alpha * (y - x);
    if x <= y {
      MulNonneg(1.0 - alpha, y - x);
      MulNonneg(alpha, y - x);
    } else {
      MulNonneg(1.0 - alpha, x - y);
      MulNonneg(alpha, x - y);
    }
  }

  lemma MulNonneg(a: real, b: real)
    requires 0.0 <= a && 0.0 <= b
    ensures 0.0 <= a * b
  {
  }
}
