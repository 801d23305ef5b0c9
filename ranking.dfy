/**
 * The ranking operations the policy takes from numpy: an ascending argsort of
 * the candidates' scores, the Python slice `[-E:]` that keeps the elites, and
 * `np.argmax`.
 */
module Ranking {

  /** Every entry of `o` indexes a sequence of length `n`. */
  predicate InRange(o: seq<nat>, n: nat)
  {
    forall p | 0 <= p < |o| :: o[p] < n
  }

  /** Scores do not decrease along the index sequence `o`. */
  predicate SortedBy(r: seq<real>, o: seq<nat>)
    requires InRange(o, |r|)
  {
    forall p, q | 0 <= p < q < |o| :: r[o[p]] <= r[o[q]]
  }

  /**
   * Two score vectors that rank every pair of candidates alike; rescaling
   * by a positive factor is one way to get one.
   */
  predicate SameOrder(r: seq<real>, r': seq<real>)
  {
    |r| == |r'| &&
    forall i, j | 0 <= i < |r| && 0 <= j < |r| :: r[i] < r[j] <==> r'[i] < r'[j]
  }

  /**
   * Inserts candidate `k` into the ascending order `o`, in front of the first
   * candidate whose score is strictly larger (so equal scores keep the order
   * in which they were inserted).
   */
  function Insert(r: seq<real>, k: nat, o: seq<nat>): (o': seq<nat>)
    requires k < |r| && InRange(o, |r|)
    ensures InRange(o', |r|) && |o'| == |o| + 1
    ensures forall x :: x in o' <==> x == k || x in o
  {
    if o == [] then [k]
    else if r[k] < r[o[0]] then [k] + o
    else
      assert o == [o[0]] + o[1..];
      [o[0]] + Insert(r, k, o[1..])
  }

  lemma {:induction false} InsertSorted(r: seq<real>, k: nat, o: seq<nat>)
    requires k < |r| && InRange(o, |r|) && SortedBy(r, o)
    ensures SortedBy(r, Insert(r, k, o))
  {
    if o != [] && r[o[0]] <= r[k] {
      var rest := Insert(r, k, o[1..]);
      InsertSorted(r, k, o[1..]);
      forall q | 0 <= q < |rest|
        ensures r[o[0]] <= r[rest[q]]
      {
        assert rest[q] in rest;
        if rest[q] != k {
          assert rest[q] in o[1..];
          var p :| 0 <= p < |o[1..]| && o[1..][p] == rest[q];
          assert o[p + 1] == rest[q];
        }
      }
    }
  }

  /** The ascending order of the first `n` candidates, built by insertion. */
  function SortPrefix(r: seq<real>, n: nat): (o: seq<nat>)
    requires n <= |r|
    ensures InRange(o, |r|)
  {
    if n == 0 then [] else Insert(r, n - 1, SortPrefix(r, n - 1))
  }

  /** Insertion keeps the order sorted. */
  lemma {:induction false} SortPrefixSorted(r: seq<real>, n: nat)
    requires n <= |r|
    ensures SortedBy(r, SortPrefix(r, n))
  {
    if n > 0 {
      SortPrefixSorted(r, n - 1);
      InsertSorted(r, n - 1, SortPrefix(r, n - 1));
    }
  }

  /** The order lists each of the first `n` candidates, and nothing else. */
  lemma {:induction false} SortPrefixPermutation(r: seq<real>, n: nat)
    requires n <= |r|
    ensures |SortPrefix(r, n)| == n
    ensures forall k: nat :: k in SortPrefix(r, n) <==> k < n
  {
    if n > 0 {
      SortPrefixPermutation(r, n - 1);
    }
  }

  /**
   * An ascending argsort, as `np.argsort`: a permutation of the candidate
   * indices (as many entries as candidates, each candidate among them)
   * along which the scores do not decrease. Where scores tie, this one
   * keeps the lower index first.
   */
  function Argsort(r: seq<real>): (o: seq<nat>)
    ensures |o| == |r| && InRange(o, |r|)
    ensures forall k: nat | k < |r| :: k in o
    ensures SortedBy(r, o)
  {
    SortPrefixSorted(r, |r|);
    SortPrefixPermutation(r, |r|);
    SortPrefix(r, |r|)
  }

  /** Where Python's slice `o[k:]` of a sequence of length `len` starts. */
  function SliceStart(len: nat, k: int): (start: nat)
    ensures start <= len
  {
    if k >= 0 then (if k <= len then k else len)
    else if len + k >= 0 then len + k
    else 0
  }

  /** The elites, as `r.argsort()[-e:]`: the last `e` entries of the ascending order. */
  function Elites(r: seq<real>, e: int): (el: seq<nat>)
    ensures InRange(el, |r|) && |el| <= |r|
    ensures el == Argsort(r)[|r| - |el|..]
  {
    var o := Argsort(r);
    o[SliceStart(|o|, -e)..]
  }

  /** How many candidates `Elites(r, e)` keeps, for the three kinds of `e`. */
  lemma ElitesCount(r: seq<real>, e: int)
    ensures 0 < e <= |r| ==> |Elites(r, e)| == e
    ensures e < 0 ==> |Elites(r, e)| == (if -e < |r| then |r| + e else 0)
    ensures e == 0 || e >= |r| ==> Elites(r, e) == Argsort(r)
    ensures e == 0 || e >= |r| ==> forall k: nat | k < |r| :: k in Elites(r, e)
  {
    var o := Argsort(r);
    if e == 0 || e >= |r| {
      assert SliceStart(|o|, -e) == 0;
      assert o[0..] == o;
    }
  }

  /** Every elite scores at least as much as every candidate left out. */
  lemma ElitesDominate(r: seq<real>, e: int, j: nat, k: nat)
    requires j in Elites(r, e)
    requires k < |r| && k !in Elites(r, e)
    ensures r[k] <= r[j]
  {
    var o := Argsort(r);
    var start := SliceStart(|o|, -e);
    var p :| start <= p < |o| && o[p] == j;
    assert k in o;
    var q :| 0 <= q < |o| && o[q] == k;
  }

  /** The first index of a largest entry, as `np.argmax`. */
  function Argmax(xs: seq<real>): (k: nat)
    requires |xs| > 0
    ensures k < |xs|
    ensures forall i | 0 <= i < |xs| :: xs[i] <= xs[k]
    ensures forall i | 0 <= i < k :: xs[i] < xs[k]
  {
    if |xs| == 1 then 0
    else
      var k := Argmax(xs[..|xs| - 1]);
      if xs[k] < xs[|xs| - 1] then |xs| - 1 else k
  }

  /** Multiplying every entry by a positive factor preserves the ranking. */
  lemma ScaleSameOrder(r: seq<real>, c: real)
    requires 0.0 < c
    ensures SameOrder(r, seq(|r|, i requires 0 <= i < |r| => r[i] * c))
  {
    var r' := seq(|r|, i requires 0 <= i < |r| => r[i] * c);
    forall i, j | 0 <= i < |r| && 0 <= j < |r|
      ensures r[i] < r[j] <==> r'[i] < r'[j]
    {
      MulStrictMono(r[i], r[j], c);
    }
  }

  lemma MulStrictMono(x: real, y: real, c: real)
    requires 0.0 < c
    ensures x < y <==> x * c < y * c
  {
    if x < y {
      assert 0.0 < (y - x) * c;
    } else {
      assert 0.0 <= (x - y) * c;
    }
  }

  lemma {:induction false} InsertSameOrder(r: seq<real>, r': seq<real>, k: nat, o: seq<nat>)
    requires SameOrder(r, r') && k < |r| && InRange(o, |r|)
    ensures Insert(r, k, o) == Insert(r', k, o)
  {
    if o != [] {
      InsertSameOrder(r, r', k, o[1..]);
    }
  }

  lemma {:induction false} SortPrefixSameOrder(r: seq<real>, r': seq<real>, n: nat)
    requires SameOrder(r, r') && n <= |r|
    ensures SortPrefix(r, n) == SortPrefix(r', n)
  {
    if n > 0 {
      SortPrefixSameOrder(r, r', n - 1);
      InsertSameOrder(r, r', n - 1, SortPrefix(r, n - 1));
    }
  }

  /** Score vectors that rank alike select the same elites. */
  lemma ElitesSameOrder(r: seq<real>, r': seq<real>, e: int)
    requires SameOrder(r, r')
    ensures Elites(r, e) == Elites(r', e)
  {
    SortPrefixSameOrder(r, r', |r|);
  }

  /** Score vectors that rank alike have the same argmax. */
  lemma ArgmaxSameOrder(r: seq<real>, r': seq<real>)
    requires SameOrder(r, r') && |r| > 0
    ensures Argmax(r) == Argmax(r')
  {
  }
}
