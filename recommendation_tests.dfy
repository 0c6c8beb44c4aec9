/**
 * The scenarios of tests/test_recommendations.py, worked out exactly on the
 * model of utils/metrics.py (the module that test exercises).
 */
module RecommendationTests {
  import opened Entries
  import opened Ranking
  import EvaluationMetrics
  import opened UtilsMetrics
  import opened MetricsComparison

  /** The three sample queries (their free-text prompts play no part in scoring). */
  const TestQueries: seq<Query> := [
    Query(
      ["java-programming-test", "collaboration-skills-assessment", "technical-communication-test"],
      ["java-programming-test", "collaboration-skills-assessment", "technical-communication-test",
       "problem-solving-assessment"]),
    Query(
      ["python-programming-test", "sql-skills-assessment", "javascript-test", "full-stack-assessment"],
      ["full-stack-assessment", "python-programming-test", "sql-skills-assessment", "javascript-test",
       "web-development-test"]),
    Query(
      ["cognitive-ability-test", "personality-assessment", "analytical-thinking-test"],
      ["cognitive-ability-test", "personality-assessment", "analytical-thinking-test", "data-analysis-test"])
  ]

  /** A query whose first k recommendations are all relevant hits k times, at precision 1 each. */
  lemma TopAllRelevant(q: Query, k: nat)
    requires 0 < k <= |q.recommendedItems| && q.relevantItems != []
    requires forall i :: 0 <= i < k ==> q.recommendedItems[i] in q.relevantItems
    ensures CalculateRecallAtK(q.relevantItems, q.recommendedItems, k) == k as real / |q.relevantItems| as real
    ensures QueryAveragePrecision(q, k) == Some(k as real / |q.relevantItems| as real)
  {
    var top := TopK(q.recommendedItems, k);
    HitsAllRelevant(top, q.relevantItems);
    PrecisionSumAllRelevant(top, q.relevantItems);
  }

  lemma SampleQueriesPerQuery()
    ensures QueryRecalls(TestQueries, 3) == [1.0, 0.75, 1.0]
    ensures ApScores(TestQueries, 3) == [1.0, 0.75, 1.0]
  {
    var q0, q1, q2 := TestQueries[0], TestQueries[1], TestQueries[2];
    TopAllRelevant(q0, 3);
    TopAllRelevant(q1, 3);
    TopAllRelevant(q2, 3);
    assert QueryRecalls(TestQueries, 3)[1] == 0.75;
    SampleQueriesApScores(q0, q1, q2);
  }

  lemma SampleQueriesApScores(q0: Query, q1: Query, q2: Query)
    requires TestQueries == [q0, q1, q2]
    requires QueryAveragePrecision(q0, 3) == Some(1.0)
    requires QueryAveragePrecision(q1, 3) == Some(0.75)
    requires QueryAveragePrecision(q2, 3) == Some(1.0)
    ensures ApScores(TestQueries, 3) == [1.0, 0.75, 1.0]
  {
    assert TestQueries[..2] == [q0, q1] && [q0, q1][..1] == [q0] && [q0][..0] == [];
    assert ApScores([q0], 3) == [1.0];
    assert ApScores([q0, q1], 3) == [1.0, 0.75];
  }

  /**
   * On the sample queries at K = 3 both recall@3 and map@3 are
   * (1 + 3/4 + 1) / 3 = 11/12: above 0.8, but not the 1.0 the test expects
   * of recall, since the second query finds 3 of its 4 relevant items.
   */
  lemma SampleQueriesScores()
    ensures MeanRecallScore(TestQueries, 3) == Num(11.0 / 12.0)
    ensures MapAtK(TestQueries, 3) == 11.0 / 12.0
    ensures 0.8 < MapAtK(TestQueries, 3) <= 1.0
  {
    SampleQueriesPerQuery();
    var xs := [1.0, 0.75, 1.0];
    assert xs[..2] == [1.0, 0.75] && [1.0, 0.75][..1] == [1.0] && [1.0][..0] == [];
    assert Sum(xs) == 2.75;
  }

  /** With its first k entries all relevant and at least k relevant items, a query has average precision 1. */
  lemma FirstImplementationApAllRelevant(recs: seq<Entry>, relevant: seq<string>, k: nat)
    requires 0 < k <= |recs| && k <= |relevant|
    requires forall i :: 0 <= i < k ==> NameOf(recs[i]) in relevant
    ensures EvaluationMetrics.AveragePrecision(recs, relevant, k) == 1.0
  {
    var top := TopK(Names(recs), k);
    assert |top| == k;
    HitsAllRelevant(top, relevant);
    PrecisionSumAllRelevant(top, relevant);
    assert Hits(top, relevant) == k && PrecisionSum(top, relevant) == k as real;
    assert Min(k, |relevant|) == k && relevant != [];
    DivSelf(k as real);
    assert EvaluationMetrics.AveragePrecision(recs, relevant, k) == PrecisionSum(top, relevant) / k as real;
  }

  /** The first implementation, dividing by min(K, relevant items), gives the same batch MAP@3 = 1. */
  lemma SampleQueriesFirstImplementationMap()
    ensures EvaluationMetrics.MeanAveragePrecision(RecommendationLists(TestQueries), RelevantLists(TestQueries), 3) == 1.0
  {
    var recs, rels := RecommendationLists(TestQueries), RelevantLists(TestQueries);
    var aps := EvaluationMetrics.AveragePrecisions(recs, rels, 3);
    forall i | 0 <= i < 3
      ensures aps[i] == 1.0
    {
      FirstImplementationApAllRelevant(recs[i], rels[i], 3);
    }
    assert aps == [1.0, 1.0, 1.0];
    assert aps[..2] == [1.0, 1.0] && [1.0, 1.0][..1] == [1.0] && [1.0][..0] == [];
    assert Sum(aps) == 3.0;
    assert Min(|recs|, |rels|) == 3;
  }

  /** One query with only its first item in the top 3: recall@3 = 1/3 and map@3 = 1/3, below 1. */
  lemma PartialRelevance()
    ensures MeanRecallScore([Query(["item1", "item2", "item3"], ["item1", "item4", "item5", "item2", "item3"])], 3)
      == Num(1.0 / 3.0)
    ensures MapAtK([Query(["item1", "item2", "item3"], ["item1", "item4", "item5", "item2", "item3"])], 3) == 1.0 / 3.0
  {
    var rel := ["item1", "item2", "item3"];
    var q := Query(rel, ["item1", "item4", "item5", "item2", "item3"]);
    var top := TopK(q.recommendedItems, 3);
    assert top == ["item1", "item4", "item5"];
    assert top[..2] == ["item1", "item4"] && top[..1] == ["item1"] && top[..0] == [];
    assert "item4" !in rel && "item5" !in rel;
    assert Hits(["item1"], rel) == 1;
    assert Hits(["item1", "item4"], rel) == 1;
    assert Hits(top, rel) == 1;
    assert PrecisionSum(["item1"], rel) == 1.0;
    assert PrecisionSum(["item1", "item4"], rel) == 1.0;
    assert PrecisionSum(top, rel) == 1.0;
    assert [q][..0] == [];
    assert ApScores([q], 3) == [1.0 / 3.0];
    assert QueryRecalls([q], 3) == [1.0 / 3.0];
    assert [1.0 / 3.0][..0] == [];
  }

  /** The empty batch: map@3 is 0, but recall@3 is NaN rather than the 0 the test expects. */
  lemma EmptyQueries()
    ensures MapAtK([], 3) == 0.0
    ensures MeanRecallScore([], 3) == NaN
  {
    EmptyBatch(3);
  }
}
