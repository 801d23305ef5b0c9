# MPC action-selection policy, modelled in Dafny

This project models `MPCPolicy` from `hw4/cs285/policies/MPC_policy.py`. It is the
model-predictive-control policy of a model-based reinforcement-learning agent. At
each step it samples candidate action sequences and scores each one by rolling it
out through an ensemble of learned dynamics models. It then returns the first
action of the best candidate. Two sampling strategies are modelled: random shooting,
and random shooting with iterative refinement (the cross-entropy method of section
3.3 of arXiv 1909.11652).

Floating point is replaced by Dafny `real`. numpy arrays become sequences: a batch
of shape (N, H, A) is a `seq<Candidate>`, where a candidate is a `seq<Action>` of
length H and an action is a `seq<real>` of length A.

Files and modules:

- `reals.dfy` (`Reals`): sum, mean, population variance, min, max and the
  smoothing update, with their bounds lemmas.
- `ranking.dfy` (`Ranking`): `argsort`, the elite slice `argsort()[-E:]`, `argmax`,
  and the lemmas that these depend only on how the scores rank.
- `actions.dfy` (`Actions`): the data types (observations, actions, candidates,
  reward function, dynamics model) and the shape and bounds predicates.
- `rollout.dfy` (`Rollout`): the rollout of one candidate through one model,
  as a specification.
- `ensemble.dfy` (`Ensemble`): scoring a batch with the whole ensemble, as a
  specification.
- `cem.dfy` (`Cem`): the refinement loop as a fold over iterations, and its
  properties.
- `policy.dfy` (`Policy`): the strategy check and the class `MPCPolicy`. Its
  methods carry the source's loops and are proved against the specifications above.

Assumptions about the collaborators outside this file:

- `env.get_reward` and `model.get_prediction` operate on whole batches in the
  source. Here they are function parameters that act row by row: the reward of one
  (observation, action) pair, with its done flag, and one model's next observation
  for one row. The batched calls are modelled as applying these to every row.
- `data_statistics` is passed unchanged to every prediction. It is a dictionary of
  arrays that the policy never reads.
- The random draws are inputs:
  - the uniform batch comes with a precondition that it has the requested shape
    and that every component `d` lies in `[low[d], high[d]]`;
  - the Gaussian draw of iteration `i` is a function of `i` and of the running
    mean and variance; all that is assumed of it is its shape.
- `np.argsort` is modelled by a stable insertion sort: tied scores stay in index
  order, so an elite slice cut through a tie keeps the highest tied indices.
  numpy's default sort is not stable. The contracts of `Ranking` state only
  score ordering (the elites outscore the candidates left out), which holds
  under any tie order. The refinement result (`Cem.CemAction` and the methods
  proved equal to it) is, however, the one this stable tie-break gives; see
  "Left out". `np.argmax` is modelled exactly: it returns the first index of a
  maximum.

The evaluator divides the ensemble total by the number of candidates, not by the
number of models (`MPC_policy.py:135`). The model keeps that divisor.
`Ensemble.ScoresRankLikeEnsembleMeans` proves that this rescaling is by a positive
factor. So it selects the same elites and the same best candidate as the ensemble
mean would.

## Model

| member | source | states |
|---|---|---|
| `Policy.ParseStrategy` | hw4/cs285/policies/MPC_policy.py:37-40 | a strategy is accepted exactly when the name is "random" or "cem", and the accepted strategy carries that name |
| `Policy.ParseStrategyName` | hw4/cs285/policies/MPC_policy.py:38 | each of the two strategies' names is read back as that strategy |
| `Policy.MPCPolicy.constructor` | hw4/cs285/policies/MPC_policy.py:20-43 | every configuration field holds its argument and the policy starts with no data statistics |
| `Policy.MPCPolicy.Create` | hw4/cs285/policies/MPC_policy.py:8-43 | construction succeeds exactly when the strategy name is allowed; the defaults are random, 4 iterations, 5 elites, alpha 1; a new policy holds its arguments and is uncalibrated |
| `Policy.MPCPolicy.SetDataStatistics` | hw4/cs285/policies/MPC_policy.py:27 | after the outside assignment the policy is calibrated with exactly those statistics |
| `Policy.MPCPolicy.CalculateSumOfRewards` | hw4/cs285/policies/MPC_policy.py:170-191 | when every candidate has length `horizon`, entry j is candidate j's return: the sum over all `horizon` steps of the reward at the observation the model predicts from the copied current observation |
| `Rollout.ReturnUnfold` | hw4/cs285/policies/MPC_policy.py:185-189 | a return is the first step's reward plus the return of the remaining actions from the predicted next observation, and zero for no actions |
| `Rollout.ObsAfterShift` | hw4/cs285/policies/MPC_policy.py:189 | predicting t+1 steps equals predicting one step and then t steps from the predicted observation |
| `Rollout.ConstantRewardReturn` | hw4/cs285/policies/MPC_policy.py:185-189 | with a constant reward c the return is the horizon times c, whatever the done flags say |
| `Rollout.ReturnIgnoresDone` | hw4/cs285/policies/MPC_policy.py:187-188 | reward functions that differ only in their done flags give equal returns, so no rollout stops early |
| `Rollout.ObsAfter` | hw4/cs285/policies/MPC_policy.py:184-189 | definition: the observation after t predicted steps, starting from the copied current observation and applying the model once per action |
| `Rollout.StepRewards` | hw4/cs285/policies/MPC_policy.py:185-188 | one reward per action of the candidate, the one the environment gives at the predicted observation for that step |
| `Rollout.Return` | hw4/cs285/policies/MPC_policy.py:185-191 | definition: the sum of the step rewards, the value `calculate_sum_of_rewards` returns for one candidate and one model; `ReturnUnfold` gives its recurrence |
| `Ensemble.Scores` | hw4/cs285/policies/MPC_policy.py:118-135 | one score per candidate: its ensemble total divided by the number of candidates |
| `Policy.MPCPolicy.EvaluateCandidateSequences` | hw4/cs285/policies/MPC_policy.py:118-135 | the result equals `Ensemble.Scores`: entry j is the sum over the models of candidate j's return, divided by the number of candidates |
| `Ensemble.ScoresRankLikeEnsembleMeans` | hw4/cs285/policies/MPC_policy.py:116-135 | dividing by the number of candidates ranks the candidates exactly as the mean over models does, so the elites and the argmax are the same |
| `Ensemble.SingleModelSingleCandidate` | hw4/cs285/policies/MPC_policy.py:118-135 | with one model and one candidate the score is that model's return |
| `Ensemble.ConstantRewardTotal` | hw4/cs285/policies/MPC_policy.py:118-122 | with constant reward c the ensemble total of a candidate is models × its length × c |
| `Ensemble.ConstantRewardScores` | hw4/cs285/policies/MPC_policy.py:118-135 | with constant reward c and horizon h every score is models × h × c / candidates |
| `Policy.MPCPolicy.SampleActionSequences` | hw4/cs285/policies/MPC_policy.py:50-110 | random shooting (and refinement without an observation) returns the uniform draw: shape (N, H, A), every component inside the bounds; refinement returns a batch of one sequence, the refined plan |
| `Policy.MPCPolicy.RefineActionSequence` | hw4/cs285/policies/MPC_policy.py:63-88 | the loop's result equals `Cem.CemAction`, the elite mean of the last iteration of the refinement fold |
| `Policy.MPCPolicy.ScoreElites` | hw4/cs285/policies/MPC_policy.py:76-77 | the iteration's elites are exactly `Cem.SelectElites` of its batch: the top `cemNumElites` by the ensemble score |
| `Policy.MPCPolicy.RefineIteration` | hw4/cs285/policies/MPC_policy.py:72-83 | one pass of the loop body, given the running mean and variance left by the earlier passes, yields exactly the state `Cem.Iteration` defines for that pass, which is the fold's state `Cem.CemAfter` after one more iteration |
| `Cem.CemAfter` | hw4/cs285/policies/MPC_policy.py:63-83 | the state after k iterations is what iteration k − 1 leaves behind; its running mean and variance have shape (H, A), its batch shape (N, H, A), and its elites are a non-empty set of candidate indices |
| `Cem.Iteration` | hw4/cs285/policies/MPC_policy.py:72-83 | iteration 0 takes the uniform batch's elite mean and variance; iteration i > 0 draws around the running mean and variance and smooths them towards its elites; the resulting state is well shaped |
| `Cem.SelectElites` | hw4/cs285/policies/MPC_policy.py:76-77 | the elites of a batch are valid candidate indices, and there is at least one |
| `Cem.ElitesAreTopScoring` | hw4/cs285/policies/MPC_policy.py:77 | in every iteration each elite scores at least as much as every candidate outside the elites |
| `Cem.EliteMean` | hw4/cs285/policies/MPC_policy.py:79 | the elite mean is a table of shape (H, A) |
| `Cem.EliteVar` | hw4/cs285/policies/MPC_policy.py:80 | the elite variance is a table of shape (H, A) |
| `Reals.Mean` | hw4/cs285/policies/MPC_policy.py:79 | definition: `np.mean` of a non-empty sequence, the sum over the length; `Reals.MeanBounds` and `Reals.MeanWithinRange` carry its properties |
| `Reals.MeanBounds` | hw4/cs285/policies/MPC_policy.py:79 | the mean of values that all lie in [lo, hi] lies in [lo, hi] |
| `Reals.Variance` | hw4/cs285/policies/MPC_policy.py:80 | a population variance is never negative |
| `Cem.SmoothTable` | hw4/cs285/policies/MPC_policy.py:82-83 | the smoothed table keeps the shape (H, A) |
| `Reals.SmoothIsConvex` | hw4/cs285/policies/MPC_policy.py:82-83 | for alpha in [0, 1] the update lies between its two inputs |
| `Cem.VarianceStep` | hw4/cs285/policies/MPC_policy.py:83 | after iteration 0 the running variance is alpha times the new elites' variance plus (1 − alpha) times the previous running variance |
| `Cem.RunningVarianceNonnegative` | hw4/cs285/policies/MPC_policy.py:80-83 | for alpha in [0, 1] every component of the running variance stays non-negative through all iterations |
| `Cem.NoSmoothingAtAlphaOne` | hw4/cs285/policies/MPC_policy.py:82-83 | with alpha = 1 the running mean and variance are the current elites' mean and variance |
| `Cem.CemAction` | hw4/cs285/policies/MPC_policy.py:88 | the refined plan has shape (H, A) |
| `Cem.CemActionWithinElites` | hw4/cs285/policies/MPC_policy.py:88 | every component of the refined plan lies between the smallest and the largest value of that component over the last iteration's elites |
| `Reals.MeanWithinRange` | hw4/cs285/policies/MPC_policy.py:88 | a mean lies between the minimum and the maximum of its elements |
| `Ranking.Argsort` | hw4/cs285/policies/MPC_policy.py:77 | the order has one entry per candidate, every entry is a candidate index and every candidate appears (so it is a permutation), and the scores never decrease along it |
| `Ranking.SliceStart` | hw4/cs285/policies/MPC_policy.py:77 | definition: Python's start index for `o[k:]`, never past the end; `Ranking.ElitesCount` states what `[-E:]` keeps for each sign of E |
| `Ranking.Elites` | hw4/cs285/policies/MPC_policy.py:77 | `argsort()[-E:]`: valid candidate indices, no more than there are candidates, forming a suffix of the ascending order |
| `Ranking.ElitesCount` | hw4/cs285/policies/MPC_policy.py:77 | `[-E:]` keeps E candidates when 0 < E ≤ N; every candidate when E = 0 or E ≥ N (the slice clamps); and N + E, or none, when E < 0 |
| `Ranking.ElitesDominate` | hw4/cs285/policies/MPC_policy.py:77 | every elite's score is at least every non-elite's score |
| `Ranking.ElitesSameOrder` | hw4/cs285/policies/MPC_policy.py:77 | score vectors that rank the candidates alike select the same elites |
| `Ranking.Argmax` | hw4/cs285/policies/MPC_policy.py:152 | the index is in range, its score is maximal, and every earlier index scores strictly less |
| `Ranking.ArgmaxSameOrder` | hw4/cs285/policies/MPC_policy.py:152 | score vectors that rank the candidates alike have the same argmax |
| `Policy.MPCPolicy.GetAction` | hw4/cs285/policies/MPC_policy.py:137-155 | uncalibrated: the action of the one-step uniform draw; refinement: the refined plan's first action; random shooting: the only candidate's first action, or the first action of the first best-scoring candidate; uncalibrated and random-shooting actions lie inside the bounds |

## Left out

- The random draws themselves (`np.random.uniform`, `np.random.normal`, `np.sqrt` of the variance) are inputs instead. A uniform batch is assumed to be in bounds. A Gaussian batch is assumed only to have the right shape.
- Floating-point rounding and NaN: every sum, mean, variance and division is exact over `real`.
- `env.get_reward`, `model.get_prediction` and `BasePolicy` are foreign code. They are function parameters, assumed to act row by row on a batch.
- `ob_dim` and the `env` object are gone. Of `env`, only the reward and the action bounds are kept. `ac_space` becomes `low`, `high` and `acDim`.
- The `print` logging at lines 45-48.
- The commented-out alternatives at lines 91-106 and 123-133 are dead code.
- Tie order inside `np.argsort`. The model breaks ties stably. The `Ranking` contracts state only score ordering, but the elite indices the model picks inside a tie at the cut-off are the stable sort's.
- `Cem.CemAction`: when scores tie at the elite cut-off (for example a constant reward with fewer elites than candidates), numpy may keep other tied candidates, and then its elite mean differs from the one this model fixes. The model's value is the stable tie-break's.
- `Policy.MPCPolicy.RefineActionSequence`: equal to `Cem.CemAction`, so its result under ties at the elite cut-off is the stable tie-break's, not necessarily numpy's.
- `Policy.MPCPolicy.SampleActionSequences`: the refinement branch returns `[Cem.CemAction(...)]`, with the same tie-break caveat.
- `Policy.MPCPolicy.GetAction`: the refinement branch's action is the first action of `Cem.CemAction`, with the same tie-break caveat. The random-shooting branch has no such gap, because `np.argmax` does return the first maximum.
- The `raise Exception` at lines 109-110 cannot be reached: `Strategy` has exactly the two accepted values.
- The outer axis of length one that `get_action` adds with `[None]` is dropped. `GetAction` returns the action vector itself.
- Inputs on which the source crashes, or produces NaN, are excluded by preconditions:
  - 0 refinement iterations (an unbound local at line 88);
  - an empty elite slice, where `np.mean` gives NaN (N = 0, or E ≤ -N);
  - `argmax` of an empty score vector (random shooting with N = 0);
  - `[0][0]` on a zero-length horizon;
  - a candidate whose length differs from `horizon` (the assertion at line 183).
- `get_action` is never passed `obs=None`: its observation is always present.
