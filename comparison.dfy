/**
 * Where the two metric implementations agree and where they part:
 * app/evaluation_metrics.py scores lists of entries, utils/metrics.py
 * lists of strings; on plain-string entries recall and precision agree,
 * while average precision and MAP use different divisors and different
 * rules for which queries count.
 */
module MetricsComparison {
  import opened Entries
  import opened Ranking
  import EvaluationMetrics
  import opened UtilsMetrics

  /** The entries the first implementation would be given for a batch of queries. */
  function RecommendationLists(queries: seq<Query>): (ls: seq<seq<Entry>>)
    ensures |ls| == |queries|
  {
    seq(|queries|, i requires 0 <= i < |queries| => Plain(queries[i].recommendedItems))
  }

  function RelevantLists(queries: seq<Query>): (ls: seq<seq<string>>)
    ensures |ls| == |queries|
  {
    seq(|queries|, i requires 0 <= i < |queries| => queries[i].relevantItems)
  }

  /** Both implementations compute the same recall from the entries' names. */
  lemma RecallImplementationsAgree(recs: seq<Entry>, relevant: seq<string>, k: nat)
    ensures EvaluationMetrics.Recall(recs, relevant, k) == CalculateRecallAtK(relevant, Names(recs), k)
  {
  }

  /**
   * The guards differ (K = 0 against an empty top-K slice) but the results
   * agree: an empty slice with K > 0 has no hit, so both give 0.
   */
  lemma PrecisionImplementationsAgree(recs: seq<Entry>, relevant: seq<string>, k: nat)
    ensures EvaluationMetrics.Precision(recs, relevant, k) == CalculatePrecisionAtK(relevant, Names(recs), k)
  {
  }

  /**
   * The per-query average precision of the second implementation divides by
   * the number of relevant items instead of min(K, that number): it is never
   * larger, equal when there are at most K relevant items, and absent exactly
   * when the first implementation scores 0.
   */
  lemma AveragePrecisionDivisors(recs: seq<Entry>, relevant: seq<string>, k: nat)
    ensures QueryAveragePrecision(Query(relevant, Names(recs)), k).None?
      <==> EvaluationMetrics.AveragePrecision(recs, relevant, k) == 0.0
    ensures QueryAveragePrecision(Query(relevant, Names(recs)), k).Some? ==>
      && QueryAveragePrecision(Query(relevant, Names(recs)), k).value <= EvaluationMetrics.AveragePrecision(recs, relevant, k)
      && (|relevant| <= k ==>
            QueryAveragePrecision(Query(relevant, Names(recs)), k).value == EvaluationMetrics.AveragePrecision(recs, relevant, k))
  {
    var top := TopK(Names(recs), k);
    if relevant != [] {
      EvaluationMetrics.AveragePrecisionPositiveIffHit(recs, relevant, k);
      if Hits(top, relevant) != 0 {
        PrecisionSumBounds(top, relevant);
        HitsAtMostLength(top, relevant);
        DivByLarger(PrecisionSum(top, relevant), Min(k, |relevant|) as real, |relevant| as real);
      }
    }
  }

  lemma DivByLarger(a: real, b: real, c: real)
    requires 0.0 <= a && 0.0 < b <= c
    ensures a / c <= a / b
  {
    assert a / c * c == a == a / b * b;
  }

  /** On a non-empty batch the mean recalls agree; on an empty one the first gives 0 and the second NaN. */
  lemma MeanRecallsAgree(queries: seq<Query>, k: nat)
    ensures queries != [] ==>
      MeanRecallScore(queries, k) == Num(EvaluationMetrics.MeanRecall(RecommendationLists(queries), RelevantLists(queries), k))
    ensures queries == [] ==>
      MeanRecallScore(queries, k) == NaN && EvaluationMetrics.MeanRecall(RecommendationLists(queries), RelevantLists(queries), k) == 0.0
  {
    var recs, rels := RecommendationLists(queries), RelevantLists(queries);
    forall i | 0 <= i < |queries|
      ensures QueryRecalls(queries, k)[i] == EvaluationMetrics.Recalls(recs, rels, k)[i]
    {
      NamesOfPlain(queries[i].recommendedItems);
    }
    assert QueryRecalls(queries, k) == EvaluationMetrics.Recalls(recs, rels, k);
  }

  /** When every query has a hit and at most K relevant items, both MAP@K values agree. */
  lemma MapsAgreeWhenEveryQueryHits(queries: seq<Query>, k: nat)
    requires forall i :: 0 <= i < |queries| ==>
      |queries[i].relevantItems| <= k && QueryAveragePrecision(queries[i], k).Some?
    ensures MapAtK(queries, k) == EvaluationMetrics.MeanAveragePrecision(RecommendationLists(queries), RelevantLists(queries), k)
  {
    ApScoresAreAveragePrecisions(queries, k);
  }

  lemma {:induction false} ApScoresAreAveragePrecisions(queries: seq<Query>, k: nat)
    requires forall i :: 0 <= i < |queries| ==>
      |queries[i].relevantItems| <= k && QueryAveragePrecision(queries[i], k).Some?
    ensures ApScores(queries, k) == EvaluationMetrics.AveragePrecisions(RecommendationLists(queries), RelevantLists(queries), k)
  {
    if queries != [] {
      var n := |queries|;
      var p, q := queries[..n - 1], queries[n - 1];
      ApScoresAreAveragePrecisions(p, k);
      var whole := EvaluationMetrics.AveragePrecisions(RecommendationLists(queries), RelevantLists(queries), k);
      var front := EvaluationMetrics.AveragePrecisions(RecommendationLists(p), RelevantLists(p), k);
      assert whole[..n - 1] == front;
      NamesOfPlain(q.recommendedItems);
      AveragePrecisionDivisors(Plain(q.recommendedItems), q.relevantItems, k);
      assert whole == front + [whole[n - 1]];
    }
  }

  /**
   * MAP differs on a batch where one query misses: the first implementation
   * averages a 1 and a 0, the second skips the miss.
   */
  lemma MapImplementationsDiverge()
    ensures MapAtK([Query(["a"], ["a"]), Query(["b"], ["c"])], 1) == 1.0
    ensures EvaluationMetrics.MeanAveragePrecision([Plain(["a"]), Plain(["c"])], [["a"], ["b"]], 1) == 0.5
  {
    var qa, qb := Query(["a"], ["a"]), Query(["b"], ["c"]);
    assert ["a"][..0] == [] && ["c"][..0] == [];
    assert QueryAveragePrecision(qa, 1) == Some(1.0);
    assert QueryAveragePrecision(qb, 1) == None;
    assert [qa, qb][..1] == [qa] && [qa][..0] == [];
    assert ApScores([qa], 1) == [1.0];
    assert ApScores([qa, qb], 1) == [1.0];
    assert [1.0][..0] == [];
    var aps := EvaluationMetrics.AveragePrecisions([Plain(["a"]), Plain(["c"])], [["a"], ["b"]], 1);
    assert Names(Plain(["a"])) == ["a"] && Names(Plain(["c"])) == ["c"];
    assert aps == [1.0, 0.0];
    assert aps[..1] == [1.0];
  }
}
