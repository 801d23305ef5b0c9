/**
 * The MPC policy object: its configuration, the calibration state set from
 * outside, and the four operations that pick an action: the rollout scorer,
 * the ensemble evaluator, the sequence sampler and the action selector.
 */
module Policy {
  import opened Wrappers
  import Reals
  import opened Ranking
  import opened Actions
  import opened Rollout
  import opened Ensemble
  import opened Cem

  /** The two action-sampling strategies the policy accepts. */
  datatype Strategy = RandomShooting | CrossEntropy

  /** The configuration name of a strategy. */
  function StrategyName(s: Strategy): string
  {
    match s
    case RandomShooting => "random"
    case CrossEntropy => "cem"
  }

  /** Reads `sample_strategy`; any name but "random" and "cem" is refused. */
  function ParseStrategy(name: string): (r: Option<Strategy>)
    ensures r.Some? <==> name == "random" || name == "cem"
    ensures r.Some? ==> StrategyName(r.value) == name
  {
    if name == "random" then Some(RandomShooting)
    else if name == "cem" then Some(CrossEntropy)
    else None
  }

  /** Every strategy's name is read back as that strategy. */
  lemma ParseStrategyName(s: Strategy)
    ensures ParseStrategy(StrategyName(s)) == Some(s)
  {
  }

  class MPCPolicy {
    /** The environment's reward function. */
    const reward: RewardFn
    /** The action bounds of the environment's action space. */
    const low: seq<real>
    const high: seq<real>
    const acDim: nat
    /** The ensemble, in order. */
    const dynModels: seq<Model>
    const horizon: nat
    const N: nat
    const sampleStrategy: Strategy
    const cemIterations: int
    const cemNumElites: int
    const cemAlpha: real
    /** Unset until assigned from outside; while unset the policy is uncalibrated. */
    var dataStatistics: Option<Stats>

    /** Stores the configuration; the policy starts uncalibrated. */
    constructor (reward: RewardFn, low: seq<real>, high: seq<real>, acDim: nat, dynModels: seq<Model>,
                 horizon: nat, N: nat, sampleStrategy: Strategy,
                 cemIterations: int, cemNumElites: int, cemAlpha: real)
      ensures this.reward == reward && this.low == low && this.high == high && this.acDim == acDim
      ensures this.dynModels == dynModels && this.horizon == horizon && this.N == N
      ensures this.sampleStrategy == sampleStrategy && this.cemIterations == cemIterations
      ensures this.cemNumElites == cemNumElites && this.cemAlpha == cemAlpha
      ensures dataStatistics == None
    {
      this.reward, this.low, this.high, this.acDim := reward, low, high, acDim;
      this.dynModels, this.horizon, this.N := dynModels, horizon, N;
      this.sampleStrategy := sampleStrategy;
      this.cemIterations, this.cemNumElites, this.cemAlpha := cemIterations, cemNumElites, cemAlpha;
      dataStatistics := None;
    }

    /**
     * Construction from a strategy name, with the source's defaults. An
     * unknown name fails the construction (None) instead of building a policy.
     */
    static method Create(reward: RewardFn, low: seq<real>, high: seq<real>, acDim: nat, dynModels: seq<Model>,
                         horizon: nat, N: nat, sampleStrategy: string := "random",
                         cemIterations: int := 4, cemNumElites: int := 5, cemAlpha: real := 1.0)
      returns (r: Option<MPCPolicy>)
      ensures r.Some? <==> ParseStrategy(sampleStrategy).Some?
      ensures r.Some? ==>
        fresh(r.value) && r.value.dataStatistics == None &&
        r.value.sampleStrategy == ParseStrategy(sampleStrategy).value &&
        r.value.reward == reward && r.value.low == low && r.value.high == high && r.value.acDim == acDim &&
        r.value.dynModels == dynModels && r.value.horizon == horizon && r.value.N == N &&
        r.value.cemIterations == cemIterations && r.value.cemNumElites == cemNumElites &&
        r.value.cemAlpha == cemAlpha
    {
      var strategy := ParseStrategy(sampleStrategy);
      if strategy.None? {
        return None;
      }
      var policy := new MPCPolicy(reward, low, high, acDim, dynModels, horizon, N, strategy.value,
                                  cemIterations, cemNumElites, cemAlpha);
      r := Some(policy);
    }

    /** The outside assignment of the normalisation statistics, which calibrates the policy. */
    method SetDataStatistics(stats: Stats)
      modifies this`dataStatistics
      ensures dataStatistics == Some(stats)
    {
      dataStatistics := Some(stats);
    }

    /** The reward, the ensemble and the current statistics, as the evaluator uses them. */
    function CurrentScorer(): Scorer
      reads this
    {
      Scorer(reward, dynModels, dataStatistics)
    }

    /** The settings of a refinement run from this configuration and the given draws. */
    function CemParamsFor(numSequences: nat, h: nat, obs: Obs, uniform: seq<Candidate>, gauss: GaussianDraw): CemParams
      reads this
    {
      CemParams(CurrentScorer(), obs, numSequences, h, acDim, cemIterations, cemNumElites, cemAlpha, uniform, gauss)
    }

    /**
     * Rolls every candidate out through `model`, all candidates at once, and
     * returns each one's summed reward over the whole horizon.
     */
    method CalculateSumOfRewards(obs: Obs, candidates: seq<Candidate>, model: Model) returns (sums: seq<real>)
      requires forall j | 0 <= j < |candidates| :: |candidates[j]| == horizon
      ensures |sums| == |candidates|
      ensures forall j | 0 <= j < |candidates| :: sums[j] == Return(reward, model, dataStatistics, obs, candidates[j])
    {
      var n := |candidates|;
      sums := seq(n, _ => 0.0);
      var o := seq(n, _ => obs);
      var stats := dataStatistics;
      for t := 0 to horizon
        invariant |sums| == n && |o| == n
        invariant forall j | 0 <= j < n :: o[j] == ObsAfter(model, dataStatistics, obs, candidates[j], t)
        invariant forall j | 0 <= j < n ::
          sums[j] == Reals.Sum(StepRewards(reward, model, dataStatistics, obs, candidates[j])[..t])
      {
        var actions := seq(n, j requires 0 <= j < n => candidates[j][t]);
        var stepped := seq(n, j requires 0 <= j < n => reward(o[j], actions[j]));
        var rewards := seq(n, j requires 0 <= j < n => stepped[j].0);
        forall j | 0 <= j < n
          ensures sums[j] + rewards[j] ==
                  Reals.Sum(StepRewards(reward, model, dataStatistics, obs, candidates[j])[..t + 1])
        {
          Reals.SumPrefixStep(StepRewards(reward, model, dataStatistics, obs, candidates[j]), t);
        }
        sums := seq(n, j requires 0 <= j < n => sums[j] + rewards[j]);
        o := seq(n, j requires 0 <= j < n => model(o[j], actions[j], stats));
      }
      forall j | 0 <= j < n
        ensures sums[j] == Return(reward, model, dataStatistics, obs, candidates[j])
      {
        var xs := StepRewards(reward, model, dataStatistics, obs, candidates[j]);
        assert xs[..horizon] == xs;
      }
    }

    /**
     * Scores a batch: the sum over the ensemble of each candidate's return,
     * divided by the number of candidates.
     */
    method EvaluateCandidateSequences(candidates: seq<Candidate>, obs: Obs) returns (predicted: seq<real>)
      requires forall j | 0 <= j < |candidates| :: |candidates[j]| == horizon
      ensures predicted == Scores(CurrentScorer(), obs, candidates)
    {
      var n := |candidates|;
      var total := seq(n, _ => 0.0);
      for m := 0 to |dynModels|
        invariant |total| == n
        invariant forall j | 0 <= j < n ::
          total[j] == Reals.Sum(ModelReturns(CurrentScorer(), obs, candidates[j])[..m])
      {
        var sums := CalculateSumOfRewards(obs, candidates, dynModels[m]);
        forall j | 0 <= j < n
          ensures total[j] + sums[j] == Reals.Sum(ModelReturns(CurrentScorer(), obs, candidates[j])[..m + 1])
        {
          Reals.SumPrefixStep(ModelReturns(CurrentScorer(), obs, candidates[j]), m);
        }
        total := seq(n, j requires 0 <= j < n => total[j] + sums[j]);
      }
      forall j | 0 <= j < n
        ensures total[j] == EnsembleTotal(CurrentScorer(), obs, candidates[j])
      {
        var rs := ModelReturns(CurrentScorer(), obs, candidates[j]);
        assert rs[..|dynModels|] == rs;
      }
      predicted := seq(n, j requires 0 <= j < n => total[j] / n as real);
    }

    /**
     * Draws candidates. The uniform draw is returned as it is for random
     * shooting, and for refinement when there is no observation; otherwise
     * the refinement loop runs and its result is a batch of one sequence.
     */
    method SampleActionSequences(numSequences: nat, h: nat, obs: Option<Obs>,
                                 uniform: seq<Candidate>, gauss: GaussianDraw)
      returns (batch: seq<Candidate>)
      requires IsBatch(uniform, numSequences, h, acDim) && InBounds(uniform, low, high)
      requires sampleStrategy == CrossEntropy && obs.Some? ==>
        h == horizon && ValidParams(CemParamsFor(numSequences, h, obs.value, uniform, gauss))
      ensures sampleStrategy == RandomShooting || obs.None? ==>
        batch == uniform && IsBatch(batch, numSequences, h, acDim) && InBounds(batch, low, high)
      ensures sampleStrategy == CrossEntropy && obs.Some? ==>
        batch == [CemAction(CemParamsFor(numSequences, h, obs.value, uniform, gauss))]
    {
      if sampleStrategy == RandomShooting || obs.None? {
        batch := uniform;
      } else {
        var cemAction := RefineActionSequence(numSequences, h, obs.value, uniform, gauss);
        batch := [cemAction];
      }
    }

    /** One iteration's elites: the batch is scored and the top `cemNumElites` are kept. */
    method ScoreElites(ghost p: CemParams, obs: Obs, samples: seq<Candidate>) returns (elites: seq<nat>)
      requires ValidParams(p) && p.scorer == CurrentScorer() && p.obs == obs
      requires p.h == horizon && p.numElites == cemNumElites
      requires IsBatch(samples, p.n, p.h, p.a)
      ensures elites == SelectElites(p, samples)
    {
      var allRewards := EvaluateCandidateSequences(samples, obs);
      elites := Elites(allRewards, cemNumElites);
    }

    /**
     * One pass of the refinement loop, iteration `i` counted from 0: draw the
     * batch (uniform at first, then Gaussian around the running mean and
     * variance), keep its elites, and set or smooth the running mean and
     * variance towards theirs. The new state is `Cem.Iteration(p, i)`.
     */
    method RefineIteration(ghost p: CemParams, obs: Obs, uniform: seq<Candidate>, gauss: GaussianDraw,
                           n: nat, h: nat, i: nat, runningMean: Table, runningVar: Table)
      returns (mean': Table, var': Table, samples: seq<Candidate>, elites: seq<nat>)
      requires h == horizon && p == CemParamsFor(n, h, obs, uniform, gauss) && ValidParams(p)
      requires 1 <= i ==> CemAfter(p, i).mean == runningMean && CemAfter(p, i).variance == runningVar
      ensures Iteration(p, i) == CemState(mean', var', samples, elites)
      ensures CemAfter(p, i + 1) == CemState(mean', var', samples, elites)
    {
      assert p.n == n && p.h == h && p.a == acDim && p.obs == obs && p.uniform == uniform && p.gauss == gauss;
      assert p.scorer == CurrentScorer() && p.numElites == cemNumElites && p.alpha == cemAlpha;
      if i == 0 {
        samples := uniform;
      } else {
        samples := gauss(i, runningMean, runningVar);
      }
      assert IsBatch(samples, p.n, p.h, p.a);
      elites := ScoreElites(p, obs, samples);
      var eliteMean := EliteMean(samples, elites, n, h, acDim);
      var eliteVar := EliteVar(samples, elites, n, h, acDim);
      if i == 0 {
        mean', var' := eliteMean, eliteVar;
      } else {
        mean' := SmoothTable(cemAlpha, eliteMean, runningMean, h, acDim);
        var' := SmoothTable(cemAlpha, eliteVar, runningVar, h, acDim);
      }
    }

    /**
     * The refinement loop: score the current batch, keep its elites, smooth
     * the running mean and variance towards theirs, and draw the next batch
     * around them; return the elite mean of the last iteration.
     */
    method RefineActionSequence(numSequences: nat, h: nat, obs: Obs, uniform: seq<Candidate>, gauss: GaussianDraw)
      returns (cemAction: Table)
      requires h == horizon && ValidParams(CemParamsFor(numSequences, h, obs, uniform, gauss))
      ensures cemAction == CemAction(CemParamsFor(numSequences, h, obs, uniform, gauss))
    {
      ghost var p := CemParamsFor(numSequences, h, obs, uniform, gauss);
      assert p.n == numSequences && p.h == h && p.a == acDim && p.iterations == cemIterations;
      var samples := uniform;
      var elites: seq<nat> := [];
      var runningMean: Table := [];
      var runningVar: Table := [];
      for i := 0 to cemIterations
        invariant 1 <= i ==> CemAfter(p, i) == CemState(runningMean, runningVar, samples, elites)
      {
        runningMean, runningVar, samples, elites :=
          RefineIteration(p, obs, uniform, gauss, numSequences, h, i, runningMean, runningVar);
      }
      cemAction := EliteMean(samples, elites, numSequences, h, acDim);
    }

    /**
     * What picking an action needs of the calibrated policy and its draws:
     * a non-empty horizon, a uniform batch of shape (N, horizon, acDim)
     * inside the bounds, at least one candidate for random shooting, and a
     * well-formed refinement run for the cross-entropy strategy.
     */
    ghost predicate CalibratedReady(obs: Obs, uniform: seq<Candidate>, gauss: GaussianDraw)
      reads this
    {
      1 <= horizon &&
      IsBatch(uniform, N, horizon, acDim) && InBounds(uniform, low, high) &&
      (sampleStrategy == RandomShooting ==> 1 <= N) &&
      (sampleStrategy == CrossEntropy ==> ValidParams(CemParamsFor(N, horizon, obs, uniform, gauss)))
    }

    /**
     * The next action. Uncalibrated: the single action of a one-step uniform
     * draw. Calibrated: the first action of the one refined sequence, or of
     * the only candidate, or of the first best-scoring candidate.
     */
    method GetAction(obs: Obs, uniformStep: seq<Candidate>, uniform: seq<Candidate>, gauss: GaussianDraw)
      returns (action: Action)
      requires IsBatch(uniformStep, 1, 1, acDim) && InBounds(uniformStep, low, high)
      requires dataStatistics.Some? ==> CalibratedReady(obs, uniform, gauss)
      ensures dataStatistics.None? ==> action == uniformStep[0][0]
      ensures dataStatistics.Some? && sampleStrategy == CrossEntropy ==>
        action == CemAction(CemParamsFor(N, horizon, obs, uniform, gauss))[0]
      ensures dataStatistics.Some? && sampleStrategy == RandomShooting && N == 1 ==>
        action == uniform[0][0]
      ensures dataStatistics.Some? && sampleStrategy == RandomShooting && N > 1 ==>
        |Scores(CurrentScorer(), obs, uniform)| == N &&
        action == uniform[Argmax(Scores(CurrentScorer(), obs, uniform))][0]
      ensures dataStatistics.None? || sampleStrategy == RandomShooting ==>
        |action| == acDim && ActionInBounds(action, low, high)
    {
      if dataStatistics.None? {
        var b := SampleActionSequences(1, 1, None, uniformStep, gauss);
        return b[0][0];
      }
      var candidates := SampleActionSequences(N, horizon, Some(obs), uniform, gauss);
      if |candidates| == 1 {
        action := candidates[0][0];
      } else {
        var predictedRewards := EvaluateCandidateSequences(candidates, obs);
        var best := Argmax(predictedRewards);
        action := candidates[best][0];
      }
    }
  }
}
