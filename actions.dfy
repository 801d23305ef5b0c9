/**
 * The data the policy works on. Actions and observations are vectors of
 * reals; a candidate is one action per step of the horizon; a batch is
 * `numpy`'s array of shape (N, H, A), read here as a sequence of candidates.
 */
module Actions {
  import opened Wrappers

  type Obs = seq<real>
  type Action = seq<real>

  /** One candidate action sequence: an action for each step of the horizon. */
  type Candidate = seq<Action>

  /** A per-timestep table of shape (H, A): a running mean or variance. */
  type Table = seq<seq<real>>

  /**
   * The normalisation statistics handed to every model prediction: a
   * dictionary of arrays the policy never looks into.
   */
  type Stats = map<string, seq<real>>

  /**
   * The environment's reward, row by row: the reward of taking an action in
   * an observation, and the "done" flag the environment reports with it.
   */
  type RewardFn = (Obs, Action) -> (real, bool)

  /** One dynamics model's one-step prediction, row by row. */
  type Model = (Obs, Action, Option<Stats>) -> Obs

  /** `b` has shape (n, h, a). */
  predicate IsBatch(b: seq<Candidate>, n: nat, h: nat, a: nat)
  {
    |b| == n &&
    forall j | 0 <= j < n :: |b[j]| == h && forall t | 0 <= t < h :: |b[j][t]| == a
  }

  /** `m` has shape (h, a). */
  predicate IsTable(m: Table, h: nat, a: nat)
  {
    |m| == h && forall t | 0 <= t < h :: |m[t]| == a
  }

  /** Component `d` of an action lies in `[low[d], high[d]]`. */
  predicate ActionInBounds(act: Action, low: seq<real>, high: seq<real>)
  {
    forall d | 0 <= d < |act| :: d < |low| && d < |high| && low[d] <= act[d] <= high[d]
  }

  /** Every action of every candidate lies inside the action bounds. */
  predicate InBounds(b: seq<Candidate>, low: seq<real>, high: seq<real>)
  {
    forall j, t | 0 <= j < |b| && 0 <= t < |b[j]| :: ActionInBounds(b[j][t], low, high)
  }
}
