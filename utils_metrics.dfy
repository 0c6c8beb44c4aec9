/**
 * The second implementation of the metrics, utils/metrics.py, over plain
 * string lists. Recall and precision are pure expressions; MAP and the
 * evaluation report loop over the queries, appending scores. Its MAP
 * divides each query's precision sum by the number of relevant items and
 * averages only over queries with a hit; its mean recall over an empty
 * batch is NaN.
 */
module UtilsMetrics {
  import opened Entries
  import opened Ranking

  /** One test query: its ground-truth items and the ranked recommendations. */
  datatype Query = Query(relevantItems: seq<string>, recommendedItems: seq<string>)

  /** A floating-point score as the report holds it: a number, or NaN. */
  datatype Score = Num(value: real) | NaN

  /**
   * Recall@K; the relevant list comes first. It is 0 when nothing is
   * relevant, never negative, and at most 1 when the top K items are distinct.
   */
  function CalculateRecallAtK(relevantItems: seq<string>, recommendedItems: seq<string>, k: nat): (r: real)
    ensures relevantItems == [] ==> r == 0.0
    ensures 0.0 <= r
    ensures Distinct(TopK(recommendedItems, k)) ==> r <= 1.0
  {
    if relevantItems == [] then 0.0
    else
      var top := TopK(recommendedItems, k);
      if Distinct(top) then
        HitsOfDistinctAtMostRelevant(top, relevantItems);
        DivBounds(Hits(top, relevantItems) as real, |relevantItems| as real);
        Hits(top, relevantItems) as real / |relevantItems| as real
      else
        Hits(top, relevantItems) as real / |relevantItems| as real
  }

  /**
   * Precision@K: 0 when the top-K slice is empty (K = 0 or no
   * recommendations), and otherwise within [0, 1].
   */
  function CalculatePrecisionAtK(relevantItems: seq<string>, recommendedItems: seq<string>, k: nat): (r: real)
    ensures k == 0 || recommendedItems == [] ==> r == 0.0
    ensures 0.0 <= r <= 1.0
  {
    var top := TopK(recommendedItems, k);
    if top == [] then 0.0
    else
      HitsAtMostLength(top, relevantItems);
      DivBounds(Hits(top, relevantItems) as real, k as real);
      Hits(top, relevantItems) as real / k as real
  }

  /**
   * The average precision one query contributes to MAP: none when its
   * relevant list is empty or its top K has no hit, otherwise the precision
   * sum divided by the number of relevant items.
   */
  function QueryAveragePrecision(q: Query, k: nat): Option<real> {
    if q.relevantItems == [] then None
    else
      var top := TopK(q.recommendedItems, k);
      if Hits(top, q.relevantItems) == 0 then None
      else Some(PrecisionSum(top, q.relevantItems) / |q.relevantItems| as real)
  }

  /** The list of average precisions MAP collects, in query order. */
  function ApScores(queries: seq<Query>, k: nat): seq<real> {
    if queries == [] then []
    else
      ApScores(queries[..|queries| - 1], k)
      + match QueryAveragePrecision(queries[|queries| - 1], k)
        case Some(ap) => [ap]
        case None => []
  }

  /** MAP@K: the mean of the collected scores, 0 when there are none. */
  function MapAtK(queries: seq<Query>, k: nat): real {
    if queries == [] then 0.0
    else
      var scores := ApScores(queries, k);
      if scores == [] then 0.0 else Sum(scores) / |scores| as real
  }

  /** The recall of every query, in order. */
  function QueryRecalls(queries: seq<Query>, k: nat): (rs: seq<real>)
    ensures |rs| == |queries|
  {
    seq(|queries|, i requires 0 <= i < |queries| =>
      CalculateRecallAtK(queries[i].relevantItems, queries[i].recommendedItems, k))
  }

  /** The mean of the per-query recalls; NaN for an empty batch. */
  function MeanRecallScore(queries: seq<Query>, k: nat): Score {
    if queries == [] then NaN
    else Num(Sum(QueryRecalls(queries, k)) / |queries| as real)
  }

  /** The decimal digits of n, as an integer is formatted into a string. */
  function DecimalString(n: nat): (s: string)
    ensures |s| > 0
    ensures forall i :: 0 <= i < |s| ==> '0' <= s[i] <= '9'
  {
    var d := ['0', '1', '2', '3', '4', '5', '6', '7', '8', '9'][n % 10];
    if n < 10 then [d] else DecimalString(n / 10) + [d]
  }

  function RecallKey(k: nat): string {
    "recall@" + DecimalString(k)
  }

  function MapKey(k: nat): string {
    "map@" + DecimalString(k)
  }

  /** MAP@K over a list of queries. */
  method CalculateMapAtK(queries: seq<Query>, k: nat) returns (mapK: real)
    ensures mapK == MapAtK(queries, k)
  {
    if queries == [] {
      return 0.0;
    }
    var apScores: seq<real> := [];
    for q := 0 to |queries|
      invariant apScores == ApScores(queries[..q], k)
    {
      var relevantItems := queries[q].relevantItems;
      var recommendedItems := queries[q].recommendedItems;
      assert queries[..q + 1][..q] == queries[..q];
      if relevantItems == [] {
        continue;
      }
      var top := TopK(recommendedItems, k);
      var precisions: seq<real> := [];
      var count: nat := 0;
      for i := 0 to |top|
        invariant count == Hits(top[..i], relevantItems)
        invariant Sum(precisions) == PrecisionSum(top[..i], relevantItems)
        invariant (precisions == []) == (count == 0)
      {
        assert top[..i + 1][..i] == top[..i];
        if top[i] in relevantItems {
          count := count + 1;
          var precision := count as real / (i + 1) as real;
          SumAppend(precisions, precision);
          precisions := precisions + [precision];
        }
      }
      assert top[..|top|] == top;
      if precisions != [] {
        var ap := Sum(precisions) / |relevantItems| as real;
        apScores := apScores + [ap];
      }
    }
    assert queries[..|queries|] == queries;
    if apScores != [] {
      mapK := Sum(apScores) / |apScores| as real;
    } else {
      mapK := 0.0;
    }
  }

  /** The report: exactly the keys "recall@K" and "map@K". */
  method EvaluateRecommendations(testQueries: seq<Query>, k: nat) returns (metrics: map<string, Score>)
    ensures metrics.Keys == {RecallKey(k), MapKey(k)}
    ensures metrics[RecallKey(k)] == MeanRecallScore(testQueries, k)
    ensures metrics[MapKey(k)] == Num(MapAtK(testQueries, k))
  {
    var recallScores: seq<real> := [];
    var mapScore := CalculateMapAtK(testQueries, k);
    for i := 0 to |testQueries|
      invariant recallScores == QueryRecalls(testQueries, k)[..i]
    {
      var recall := CalculateRecallAtK(testQueries[i].relevantItems, testQueries[i].recommendedItems, k);
      recallScores := recallScores + [recall];
    }
    assert recallScores == QueryRecalls(testQueries, k);
    var meanRecall := if recallScores == [] then NaN else Num(Sum(recallScores) / |recallScores| as real);
    assert RecallKey(k)[0] == 'r' && MapKey(k)[0] == 'm';
    metrics := map[RecallKey(k) := meanRecall, MapKey(k) := Num(mapScore)];
  }

  /** The default cut-off is 3. */
  const DefaultK: nat := 3

  /** The report at the default cut-off K = 3, used when the caller names none. */
  method EvaluateAtDefaultK(testQueries: seq<Query>) returns (metrics: map<string, Score>)
    ensures metrics.Keys == {"recall@3", "map@3"}
    ensures metrics["recall@3"] == MeanRecallScore(testQueries, DefaultK)
    ensures metrics["map@3"] == Num(MapAtK(testQueries, DefaultK))
  {
    metrics := EvaluateRecommendations(testQueries, DefaultK);
    ReportKeys(DefaultK);
  }

  // ------------------------------------------------------------- lemmas

  /** A query contributes to MAP exactly when it has a relevant item and a hit in its top K. */
  lemma QueryAveragePrecisionDefinedIffHit(q: Query, k: nat)
    ensures QueryAveragePrecision(q, k).Some? <==>
      q.relevantItems != [] && exists i :: 0 <= i < Min(k, |q.recommendedItems|) && q.recommendedItems[i] in q.relevantItems
  {
    var top := TopK(q.recommendedItems, k);
    HitsPositiveIffSomeHit(top, q.relevantItems);
  }

  /** Each contributed score lies in (0, 1] when the top K names are distinct. */
  lemma QueryAveragePrecisionBounds(q: Query, k: nat)
    requires QueryAveragePrecision(q, k).Some?
    ensures 0.0 < QueryAveragePrecision(q, k).value
    ensures Distinct(TopK(q.recommendedItems, k)) ==> QueryAveragePrecision(q, k).value <= 1.0
  {
    var top := TopK(q.recommendedItems, k);
    PrecisionSumBounds(top, q.relevantItems);
    PrecisionSumPositive(top, q.relevantItems);
    if Distinct(top) {
      HitsOfDistinctAtMostRelevant(top, q.relevantItems);
      DivBounds(PrecisionSum(top, q.relevantItems), |q.relevantItems| as real);
    }
  }

  /** A query without a hit (or without relevant items) leaves MAP unchanged: it is skipped, not scored 0. */
  lemma SkippedQueryLeavesMapUnchanged(queries: seq<Query>, q: Query, k: nat)
    requires QueryAveragePrecision(q, k).None?
    ensures MapAtK(queries + [q], k) == MapAtK(queries, k)
  {
    assert (queries + [q])[..|queries|] == queries;
    assert ApScores(queries + [q], k) == ApScores(queries, k);
  }

  /** A query with a hit is one more term of the mean. */
  lemma ScoredQueryExtendsMap(queries: seq<Query>, q: Query, k: nat)
    requires QueryAveragePrecision(q, k).Some?
    ensures ApScores(queries + [q], k) == ApScores(queries, k) + [QueryAveragePrecision(q, k).value]
  {
    assert (queries + [q])[..|queries|] == queries;
  }

  /** Every query examines distinct names in its top K. */
  predicate DistinctQueryTops(queries: seq<Query>, k: nat) {
    forall i :: 0 <= i < |queries| ==> Distinct(TopK(queries[i].recommendedItems, k))
  }

  /** The collected scores are positive, and at most 1 when every query's top K names are distinct. */
  lemma {:induction false} ApScoresBounds(queries: seq<Query>, k: nat)
    ensures forall j :: 0 <= j < |ApScores(queries, k)| ==> 0.0 <= ApScores(queries, k)[j]
    ensures DistinctQueryTops(queries, k) ==>
      forall j :: 0 <= j < |ApScores(queries, k)| ==> ApScores(queries, k)[j] <= 1.0
  {
    if queries != [] {
      var p, q := queries[..|queries| - 1], queries[|queries| - 1];
      ApScoresBounds(p, k);
      assert DistinctQueryTops(queries, k) ==> DistinctQueryTops(p, k);
      if QueryAveragePrecision(q, k).Some? {
        QueryAveragePrecisionBounds(q, k);
      }
    }
  }

  /** MAP@K is never negative, and at most 1 when every query's top K names are distinct. */
  lemma MapBounds(queries: seq<Query>, k: nat)
    ensures 0.0 <= MapAtK(queries, k)
    ensures DistinctQueryTops(queries, k) ==> MapAtK(queries, k) <= 1.0
  {
    var s := ApScores(queries, k);
    ApScoresBounds(queries, k);
    if queries != [] && s != [] {
      SumNonNegative(s);
      if DistinctQueryTops(queries, k) {
        MeanBounds(s);
      }
    }
  }

  /** An empty batch gives map@K = 0 but recall@K = NaN. */
  lemma EmptyBatch(k: nat)
    ensures MapAtK([], k) == 0.0
    ensures MeanRecallScore([], k) == NaN
  {
  }

  /** Unlike MAP, mean recall counts a query with no relevant items, as a 0. */
  lemma EmptyRelevantQueryCountsAsZeroRecall(queries: seq<Query>, recommendedItems: seq<string>, k: nat)
    ensures MeanRecallScore(queries + [Query([], recommendedItems)], k)
      == Num(Sum(QueryRecalls(queries, k)) / (|queries| + 1) as real)
  {
    var all := queries + [Query([], recommendedItems)];
    assert QueryRecalls(all, k) == QueryRecalls(queries, k) + [0.0];
    SumAppend(QueryRecalls(queries, k), 0.0);
  }

  /** The two report keys differ, and at the default K they read "recall@3" and "map@3". */
  lemma ReportKeys(k: nat)
    ensures RecallKey(k) != MapKey(k)
    ensures RecallKey(DefaultK) == "recall@3" && MapKey(DefaultK) == "map@3"
  {
    assert RecallKey(k)[0] == 'r' && MapKey(k)[0] == 'm';
  }
}
