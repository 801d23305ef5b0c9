/**
 * The rollout of one candidate through one dynamics model: starting from the
 * current observation, each step adds the environment's reward for the
 * current observation and action, then advances the observation with the
 * model. The "done" flags play no part, so every rollout runs the whole
 * horizon.
 */
module Rollout {
  import opened Wrappers
  import opened Reals
  import opened Actions

  /** The observation the model predicts after the first `t` actions of `s`. */
  function ObsAfter(model: Model, stats: Option<Stats>, o: Obs, s: Candidate, t: nat): Obs
    requires t <= |s|
  {
    if t == 0 then o else model(ObsAfter(model, stats, o, s, t - 1), s[t - 1], stats)
  }

  /** The reward collected at each step along the predicted observations. */
  function StepRewards(reward: RewardFn, model: Model, stats: Option<Stats>, o: Obs, s: Candidate): (xs: seq<real>)
    ensures |xs| == |s|
  {
    seq(|s|, t requires 0 <= t < |s| => reward(ObsAfter(model, stats, o, s, t), s[t]).0)
  }

  /** The predicted return of a candidate: the sum of its step rewards. */
  function Return(reward: RewardFn, model: Model, stats: Option<Stats>, o: Obs, s: Candidate): real
  {
    Sum(StepRewards(reward, model, stats, o, s))
  }

  /** Predicting `t + 1` steps is one step followed by `t` steps from the next observation. */
  lemma {:induction false} ObsAfterShift(model: Model, stats: Option<Stats>, o: Obs, s: Candidate, t: nat)
    requires 0 < |s| && t < |s|
    ensures ObsAfter(model, stats, o, s, t + 1) == ObsAfter(model, stats, model(o, s[0], stats), s[1..], t)
  {
    if t > 0 {
      ObsAfterShift(model, stats, o, s, t - 1);
    }
  }

  /**
   * The return satisfies the one-step recurrence: nothing for an empty
   * sequence, otherwise the first reward plus the return of the rest from
   * the predicted next observation.
   */
  lemma ReturnUnfold(reward: RewardFn, model: Model, stats: Option<Stats>, o: Obs, s: Candidate)
    ensures |s| == 0 ==> Return(reward, model, stats, o, s) == 0.0
    ensures |s| > 0 ==>
      Return(reward, model, stats, o, s) ==
      reward(o, s[0]).0 + Return(reward, model, stats, model(o, s[0], stats), s[1..])
  {
    if |s| > 0 {
      var xs := StepRewards(reward, model, stats, o, s);
      var o1 := model(o, s[0], stats);
      var ys := StepRewards(reward, model, stats, o1, s[1..]);
      SumFront(xs);
      forall t | 0 <= t < |s| - 1
        ensures xs[1..][t] == ys[t]
      {
        ObsAfterShift(model, stats, o, s, t);
      }
      assert xs[1..] == ys;
      assert ObsAfter(model, stats, o, s, 0) == o;
      assert xs[0] == reward(ObsAfter(model, stats, o, s, 0), s[0]).0;
    }
  }

  /** With a constant reward `c` the return is the horizon times `c`, done flags or not. */
  lemma ConstantRewardReturn(reward: RewardFn, model: Model, stats: Option<Stats>, o: Obs, s: Candidate, c: real)
    requires forall o': Obs, a: Action :: reward(o', a).0 == c
    ensures Return(reward, model, stats, o, s) == |s| as real * c
  {
    var xs := StepRewards(reward, model, stats, o, s);
    forall t | 0 <= t < |s|
      ensures xs[t] == c
    {
      var ot := ObsAfter(model, stats, o, s, t);
      assert reward(ot, s[t]).0 == c;
    }
    SumConstant(xs, c);
  }

  /** Two reward functions that differ only in their done flags give the same return. */
  lemma ReturnIgnoresDone(r1: RewardFn, r2: RewardFn, model: Model, stats: Option<Stats>, o: Obs, s: Candidate)
    requires forall o': Obs, a: Action :: r1(o', a).0 == r2(o', a).0
    ensures Return(r1, model, stats, o, s) == Return(r2, model, stats, o, s)
  {
    var xs, ys := StepRewards(r1, model, stats, o, s), StepRewards(r2, model, stats, o, s);
    forall t | 0 <= t < |s|
      ensures xs[t] == ys[t]
    {
      var ot := ObsAfter(model, stats, o, s, t);
      assert r1(ot, s[t]).0 == r2(ot, s[t]).0;
    }
    SumEqual(xs, ys);
  }
}
