/**
 * Iterative random shooting with refinement, the cross-entropy variant of
 * section 3.3 of arXiv 1909.11652, as a fold over the iterations. Iteration 0
 * scores the uniform batch; every later iteration scores a Gaussian batch
 * drawn around the running per-timestep mean and variance. Each iteration
 * keeps the elites of its batch and smooths the running mean and variance
 * towards theirs. The result is the elite mean of the last iteration.
 */
module Cem {
  import opened Reals
  import opened Ranking
  import opened Actions
  import opened Ensemble

  /**
   * The Gaussian draw of iteration `i`: a batch sampled per component around
   * the given mean with the given variance. It stands in for
   * `np.random.normal`, so nothing is assumed of it but its shape.
   */
  type GaussianDraw = (nat, Table, Table) -> seq<Candidate>

  /** The settings and the random draws of one refinement run. */
  datatype CemParams = CemParams(
    scorer: Scorer,
    obs: Obs,
    n: nat,
    h: nat,
    a: nat,
    iterations: int,
    numElites: int,
    alpha: real,
    uniform: seq<Candidate>,
    gauss: GaussianDraw)

  /**
   * A run the source completes with real numbers: the draws have shape
   * (n, h, a), at least one iteration runs, and the elite slice is never empty.
   */
  ghost predicate ValidParams(p: CemParams)
  {
    IsBatch(p.uniform, p.n, p.h, p.a) &&
    (forall i: nat, m: Table, v: Table :: IsBatch(p.gauss(i, m, v), p.n, p.h, p.a)) &&
    1 <= p.iterations &&
    0 < p.n && -(p.n as int) < p.numElites
  }

  /** The running state threaded through the iterations. */
  datatype CemState = CemState(mean: Table, variance: Table, samples: seq<Candidate>, elites: seq<nat>)

  predicate StateShaped(p: CemParams, st: CemState)
  {
    IsTable(st.mean, p.h, p.a) && IsTable(st.variance, p.h, p.a) &&
    IsBatch(st.samples, p.n, p.h, p.a) &&
    InRange(st.elites, p.n) && 0 < |st.elites|
  }

  /** The elites of a batch: `evaluate(...).argsort()[-numElites:]`. */
  function SelectElites(p: CemParams, samples: seq<Candidate>): (el: seq<nat>)
    requires ValidParams(p) && IsBatch(samples, p.n, p.h, p.a)
    ensures InRange(el, p.n) && 0 < |el|
  {
    Elites(Scores(p.scorer, p.obs, samples), p.numElites)
  }

  /** Component (t, d) of every elite: `samples[elites][:, t, d]`. */
  function Column(samples: seq<Candidate>, el: seq<nat>, n: nat, h: nat, a: nat, t: nat, d: nat): seq<real>
    requires IsBatch(samples, n, h, a) && InRange(el, n) && t < h && d < a
  {
    seq(|el|, k requires 0 <= k < |el| => samples[el[k]][t][d])
  }

  /** `np.mean(samples[elites], axis=0)`. */
  function EliteMean(samples: seq<Candidate>, el: seq<nat>, n: nat, h: nat, a: nat): (m: Table)
    requires IsBatch(samples, n, h, a) && InRange(el, n) && 0 < |el|
    ensures IsTable(m, h, a)
  {
    seq(h, t requires 0 <= t < h =>
      seq(a, d requires 0 <= d < a => Mean(Column(samples, el, n, h, a, t, d))))
  }

  /** `np.var(samples[elites], axis=0)`: the population variance per component. */
  function EliteVar(samples: seq<Candidate>, el: seq<nat>, n: nat, h: nat, a: nat): (v: Table)
    requires IsBatch(samples, n, h, a) && InRange(el, n) && 0 < |el|
    ensures IsTable(v, h, a)
  {
    seq(h, t requires 0 <= t < h =>
      seq(a, d requires 0 <= d < a => Variance(Column(samples, el, n, h, a, t, d))))
  }

  /** `alpha * x + (1 - alpha) * y`, component by component. */
  function SmoothTable(alpha: real, x: Table, y: Table, h: nat, a: nat): (z: Table)
    requires IsTable(x, h, a) && IsTable(y, h, a)
    ensures IsTable(z, h, a)
  {
    seq(h, t requires 0 <= t < h =>
      seq(a, d requires 0 <= d < a => Smooth(alpha, x[t][d], y[t][d])))
  }

  /** The state after the first `k` iterations: what iteration `k - 1` leaves behind. */
  function CemAfter(p: CemParams, k: nat): (st: CemState)
    requires ValidParams(p) && 1 <= k
    ensures StateShaped(p, st)
    decreases k, 1
  {
    Iteration(p, k - 1)
  }

  /**
   * One pass of the loop, iteration `i` counted from 0. The first scores the
   * uniform batch and takes its elites' mean and variance; every later one
   * draws around the running mean and variance left by the iterations before
   * it and smooths them towards its elites.
   */
  function Iteration(p: CemParams, i: nat): (st: CemState)
    requires ValidParams(p)
    ensures StateShaped(p, st)
    decreases i + 1, 0
  {
    if i == 0 then
      var el := SelectElites(p, p.uniform);
      CemState(EliteMean(p.uniform, el, p.n, p.h, p.a), EliteVar(p.uniform, el, p.n, p.h, p.a), p.uniform, el)
    else
      var prev := CemAfter(p, i);
      var s := p.gauss(i, prev.mean, prev.variance);
      var el := SelectElites(p, s);
      CemState(
        SmoothTable(p.alpha, EliteMean(s, el, p.n, p.h, p.a), prev.mean, p.h, p.a),
        SmoothTable(p.alpha, EliteVar(s, el, p.n, p.h, p.a), prev.variance, p.h, p.a),
        s, el)
  }

  /** The refined action sequence: the elite mean of the last iteration. */
  function CemAction(p: CemParams): (plan: Table)
    requires ValidParams(p)
    ensures IsTable(plan, p.h, p.a)
  {
    var st := CemAfter(p, p.iterations);
    EliteMean(st.samples, st.elites, p.n, p.h, p.a)
  }

  /** Each elite of an iteration scores at least as much as every candidate it leaves out. */
  lemma ElitesAreTopScoring(p: CemParams, k: nat, j: nat, i: nat)
    requires ValidParams(p) && 1 <= k
    requires j in CemAfter(p, k).elites
    requires i < p.n && i !in CemAfter(p, k).elites
    ensures |Scores(p.scorer, p.obs, CemAfter(p, k).samples)| == p.n
    ensures Scores(p.scorer, p.obs, CemAfter(p, k).samples)[i] <= Scores(p.scorer, p.obs, CemAfter(p, k).samples)[j]
  {
    var st := CemAfter(p, k);
    ElitesDominate(Scores(p.scorer, p.obs, st.samples), p.numElites, j, i);
  }

  /**
   * Every component of the refined sequence lies between the smallest and
   * the largest value of that component over the last iteration's elites.
   */
  lemma CemActionWithinElites(p: CemParams, t: nat, d: nat)
    requires ValidParams(p) && t < p.h && d < p.a
    ensures
      var st := CemAfter(p, p.iterations);
      var col := Column(st.samples, st.elites, p.n, p.h, p.a, t, d);
      0 < |col| && Min(col) <= CemAction(p)[t][d] <= Max(col)
  {
    var st := CemAfter(p, p.iterations);
    MeanWithinRange(Column(st.samples, st.elites, p.n, p.h, p.a, t, d));
  }

  /** For a smoothing factor in [0, 1] the running variance never goes negative. */
  lemma {:induction false} RunningVarianceNonnegative(p: CemParams, k: nat)
    requires ValidParams(p) && 1 <= k && 0.0 <= p.alpha <= 1.0
    ensures forall t, d | 0 <= t < p.h && 0 <= d < p.a :: 0.0 <= CemAfter(p, k).variance[t][d]
  {
    if k > 1 {
      RunningVarianceNonnegative(p, k - 1);
      var prev := CemAfter(p, k - 1);
      var st := CemAfter(p, k);
      var ev := EliteVar(st.samples, st.elites, p.n, p.h, p.a);
      VarianceStep(p, k);
      forall t, d | 0 <= t < p.h && 0 <= d < p.a
        ensures 0.0 <= st.variance[t][d]
      {
        SmoothIsConvex(p.alpha, ev[t][d], prev.variance[t][d]);
      }
    }
  }

  /** After iteration 0 the running variance is the new elites' variance smoothed with the previous one. */
  lemma VarianceStep(p: CemParams, k: nat)
    requires ValidParams(p) && 2 <= k
    ensures CemAfter(p, k).variance ==
      SmoothTable(p.alpha, EliteVar(CemAfter(p, k).samples, CemAfter(p, k).elites, p.n, p.h, p.a),
                  CemAfter(p, k - 1).variance, p.h, p.a)
  {
  }

  /**
   * With `alpha = 1` (the default) there is no smoothing: the running mean
   * and variance are those of the current elites.
   */
  lemma NoSmoothingAtAlphaOne(p: CemParams, k: nat)
    requires ValidParams(p) && 1 <= k && p.alpha == 1.0
    ensures
      var st := CemAfter(p, k);
      st.mean == EliteMean(st.samples, st.elites, p.n, p.h, p.a) &&
      st.variance == EliteVar(st.samples, st.elites, p.n, p.h, p.a)
  {
    if k > 1 {
      var prev := CemAfter(p, k - 1);
      var s := p.gauss(k - 1, prev.mean, prev.variance);
      var el := SelectElites(p, s);
      SmoothTableOne(EliteMean(s, el, p.n, p.h, p.a), prev.mean, p.h, p.a);
      SmoothTableOne(EliteVar(s, el, p.n, p.h, p.a), prev.variance, p.h, p.a);
    }
  }

  lemma SmoothTableOne(x: Table, y: Table, h: nat, a: nat)
    requires IsTable(x, h, a) && IsTable(y, h, a)
    ensures SmoothTable(1.0, x, y, h, a) == x
  {
    var z := SmoothTable(1.0, x, y, h, a);
    forall t | 0 <= t < h
      ensures z[t] == x[t]
    {
      assert forall d | 0 <= d < a :: z[t][d] == x[t][d];
    }
  }
}
