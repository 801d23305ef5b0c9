/**
 * Scoring a batch of candidates with an ensemble of dynamics models. Each
 * model rolls every candidate out; the per-model returns are added up, and
 * the total is divided by the number of candidates in the batch (not by the
 * number of models).
 */
module Ensemble {
  import opened Wrappers
  import opened Reals
  import opened Ranking
  import opened Actions
  import opened Rollout

  /** What scoring needs: the environment's reward, the ensemble, and the statistics passed to it. */
  datatype Scorer = Scorer(reward: RewardFn, models: seq<Model>, stats: Option<Stats>)

  /** The return of candidate `s` under each model of the ensemble, in ensemble order. */
  function ModelReturns(sc: Scorer, o: Obs, s: Candidate): seq<real>
  {
    seq(|sc.models|, m requires 0 <= m < |sc.models| => Return(sc.reward, sc.models[m], sc.stats, o, s))
  }

  /** The sum over the ensemble of the returns of `s`. */
  function EnsembleTotal(sc: Scorer, o: Obs, s: Candidate): real
  {
    Sum(ModelReturns(sc, o, s))
  }

  /** The score of every candidate of the batch: its ensemble total over the batch size. */
  function Scores(sc: Scorer, o: Obs, batch: seq<Candidate>): (r: seq<real>)
    ensures |r| == |batch|
  {
    seq(|batch|, j requires 0 <= j < |batch| => EnsembleTotal(sc, o, batch[j]) / |batch| as real)
  }

  /** The mean over the ensemble of each candidate's return, the usual ensemble average. */
  function EnsembleMeans(sc: Scorer, o: Obs, batch: seq<Candidate>): (r: seq<real>)
    requires |sc.models| > 0
  {
    seq(|batch|, j requires 0 <= j < |batch| => EnsembleTotal(sc, o, batch[j]) / |sc.models| as real)
  }

  /**
   * The batch-size divisor only rescales the ensemble mean by the positive
   * factor (models / candidates), so both rank the candidates alike and
   * pick the same elites and the same best candidate.
   */
  lemma ScoresRankLikeEnsembleMeans(sc: Scorer, o: Obs, batch: seq<Candidate>, e: int)
    requires |sc.models| > 0
    ensures SameOrder(Scores(sc, o, batch), EnsembleMeans(sc, o, batch))
    ensures Elites(Scores(sc, o, batch), e) == Elites(EnsembleMeans(sc, o, batch), e)
    ensures |batch| > 0 ==> Argmax(Scores(sc, o, batch)) == Argmax(EnsembleMeans(sc, o, batch))
  {
    var n, m := |batch| as real, |sc.models| as real;
    var means, scores := EnsembleMeans(sc, o, batch), Scores(sc, o, batch);
    if |batch| > 0 {
      var c := m / n;
      assert 0.0 < c;
      var scaled := seq(|means|, i requires 0 <= i < |means| => means[i] * c);
      forall j | 0 <= j < |batch|
        ensures scaled[j] == scores[j]
      {
        RescaleDivisor(EnsembleTotal(sc, o, batch[j]), m, n);
      }
      assert scaled == scores;
      ScaleSameOrder(means, c);
      assert SameOrder(means, scores);
      SameOrderSymmetric(means, scores);
      ArgmaxSameOrder(scores, means);
    }
    ElitesSameOrder(scores, means, e);
  }

  lemma RescaleDivisor(x: real, m: real, n: real)
    requires 0.0 < m && 0.0 < n
    ensures (x / m) * (m / n) == x / n
  {
  }

  lemma SameOrderSymmetric(r: seq<real>, r': seq<real>)
    requires SameOrder(r, r')
    ensures SameOrder(r', r)
  {
  }

  /** One model and one candidate: the score is that model's return for it. */
  lemma SingleModelSingleCandidate(sc: Scorer, o: Obs, s: Candidate)
    requires |sc.models| == 1
    ensures Scores(sc, o, [s]) == [Return(sc.reward, sc.models[0], sc.stats, o, s)]
  {
    var rs := ModelReturns(sc, o, [s][0]);
    assert rs[..0] == [];
    assert Sum(rs) == rs[0];
  }

  /** With a constant reward `c`, the ensemble total of `s` is models * |s| * c. */
  lemma ConstantRewardTotal(sc: Scorer, o: Obs, s: Candidate, c: real)
    requires forall o': Obs, a: Action :: sc.reward(o', a).0 == c
    ensures EnsembleTotal(sc, o, s) == |sc.models| as real * (|s| as real * c)
  {
    var rs := ModelReturns(sc, o, s);
    forall m | 0 <= m < |rs|
      ensures rs[m] == |s| as real * c
    {
      ConstantRewardReturn(sc.reward, sc.models[m], sc.stats, o, s, c);
    }
    SumConstant(rs, |s| as real * c);
  }

  /**
   * With a constant reward `c` and candidates all of length `h`, every score
   * is (models * h * c) / candidates.
   */
  lemma ConstantRewardScores(sc: Scorer, o: Obs, batch: seq<Candidate>, h: nat, c: real)
    requires forall o': Obs, a: Action :: sc.reward(o', a).0 == c
    requires forall j | 0 <= j < |batch| :: |batch[j]| == h
    ensures forall j | 0 <= j < |batch| ::
      Scores(sc, o, batch)[j] == (|sc.models| as real * (h as real * c)) / |batch| as real
  {
    forall j | 0 <= j < |batch|
      ensures EnsembleTotal(sc, o, batch[j]) == |sc.models| as real * (h as real * c)
    {
      ConstantRewardTotal(sc, o, batch[j], c);
    }
  }
}
