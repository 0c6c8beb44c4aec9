/**
 * The per-query scorers and batch reducers of app/evaluation_metrics.py.
 *
 * Each scorer walks the top-K slice of a ranked list of entries, updating a
 * running hit counter; the reducers walk the zipped batch, appending one
 * score per query. Every method is proved equal to a specification function
 * (Recall, Precision, AveragePrecision, MeanRecall, MeanAveragePrecision),
 * and the lemmas below state what those functions promise.
 */
module EvaluationMetrics {
  import opened Entries
  import opened Ranking

  // ------------------------------------------------------- specification

  /** Hits in the top k over the number of relevant entries; 0 when nothing is relevant. */
  function Recall(recs: seq<Entry>, relevant: seq<string>, k: nat): real {
    if relevant == [] then 0.0
    else Hits(TopK(Names(recs), k), relevant) as real / |relevant| as real
  }

  /** Hits in the top k over the requested k (not the list length); 0 when k is 0. */
  function Precision(recs: seq<Entry>, relevant: seq<string>, k: nat): real {
    if k == 0 then 0.0
    else Hits(TopK(Names(recs), k), relevant) as real / k as real
  }

  /**
   * The precisions recorded at the hits of the top k, summed and divided by
   * min(k, number of relevant entries); 0 when nothing is relevant or nothing is hit.
   */
  function AveragePrecision(recs: seq<Entry>, relevant: seq<string>, k: nat): real {
    if relevant == [] then 0.0
    else
      var top := TopK(Names(recs), k);
      if Hits(top, relevant) == 0 then 0.0
      else
        HitsAtMostLength(top, relevant);
        PrecisionSum(top, relevant) / Min(k, |relevant|) as real
  }

  /** The per-query recalls of the zipped batch (as long as the shorter list). */
  function Recalls(allRecs: seq<seq<Entry>>, allRelevant: seq<seq<string>>, k: nat): (rs: seq<real>)
    ensures |rs| == Min(|allRecs|, |allRelevant|)
  {
    seq(Min(|allRecs|, |allRelevant|), i requires 0 <= i < Min(|allRecs|, |allRelevant|) =>
      Recall(allRecs[i], allRelevant[i], k))
  }

  /** The per-query average precisions of the zipped batch. */
  function AveragePrecisions(allRecs: seq<seq<Entry>>, allRelevant: seq<seq<string>>, k: nat): (aps: seq<real>)
    ensures |aps| == Min(|allRecs|, |allRelevant|)
  {
    seq(Min(|allRecs|, |allRelevant|), i requires 0 <= i < Min(|allRecs|, |allRelevant|) =>
      AveragePrecision(allRecs[i], allRelevant[i], k))
  }

  /** The unweighted mean recall over the zipped batch; 0 when either list is empty. */
  function MeanRecall(allRecs: seq<seq<Entry>>, allRelevant: seq<seq<string>>, k: nat): real {
    if allRecs == [] || allRelevant == [] then 0.0
    else Sum(Recalls(allRecs, allRelevant, k)) / Min(|allRecs|, |allRelevant|) as real
  }

  /** The unweighted mean average precision over the zipped batch; 0 when either list is empty. */
  function MeanAveragePrecision(allRecs: seq<seq<Entry>>, allRelevant: seq<seq<string>>, k: nat): real {
    if allRecs == [] || allRelevant == [] then 0.0
    else Sum(AveragePrecisions(allRecs, allRelevant, k)) / Min(|allRecs|, |allRelevant|) as real
  }

  /** The cut-offs used when the caller names none. */
  const DefaultKValues: seq<nat> := [5, 10, 20]

  // ------------------------------------------------------------- methods

  /** Recall@K of one query. */
  method RecallAtK(recs: seq<Entry>, relevant: seq<string>, k: nat) returns (recall: real)
    ensures recall == Recall(recs, relevant, k)
  {
    if relevant == [] {
      return 0.0;
    }
    var top := TopK(recs, k);
    ghost var names := Names(recs);
    var count: nat := 0;
    for i := 0 to |top|
      invariant count == Hits(names[..i], relevant)
    {
      var name := NameOf(top[i]);
      if name in relevant {
        count := count + 1;
      }
      assert names[..i + 1][..i] == names[..i];
    }
    assert names[..|top|] == TopK(names, k);
    recall := count as real / |relevant| as real;
  }

  /** Precision@K of one query. */
  method PrecisionAtK(recs: seq<Entry>, relevant: seq<string>, k: nat) returns (precision: real)
    ensures precision == Precision(recs, relevant, k)
  {
    if k == 0 {
      return 0.0;
    }
    var top := TopK(recs, k);
    ghost var names := Names(recs);
    var count: nat := 0;
    for i := 0 to |top|
      invariant count == Hits(names[..i], relevant)
    {
      var name := NameOf(top[i]);
      if name in relevant {
        count := count + 1;
      }
      assert names[..i + 1][..i] == names[..i];
    }
    assert names[..|top|] == TopK(names, k);
    precision := count as real / k as real;
  }

  /** Average Precision@K of one query. */
  method AveragePrecisionAtK(recs: seq<Entry>, relevant: seq<string>, k: nat) returns (ap: real)
    ensures ap == AveragePrecision(recs, relevant, k)
  {
    if relevant == [] {
      return 0.0;
    }
    var top := TopK(recs, k);
    ghost var names := Names(recs);
    var precisions: seq<real> := [];
    var count: nat := 0;
    for i := 0 to |top|
      invariant count == Hits(names[..i], relevant)
      invariant Sum(precisions) == PrecisionSum(names[..i], relevant)
      invariant (precisions == []) == (count == 0)
    {
      var name := NameOf(top[i]);
      assert names[..i + 1][..i] == names[..i];
      if name in relevant {
        count := count + 1;
        var precisionAtI := count as real / (i + 1) as real;
        SumAppend(precisions, precisionAtI);
        precisions := precisions + [precisionAtI];
      }
    }
    assert names[..|top|] == TopK(names, k);
    if precisions != [] {
      HitsAtMostLength(names[..|top|], relevant);
      ap := Sum(precisions) / Min(k, |relevant|) as real;
    } else {
      ap := 0.0;
    }
  }

  /** Mean Recall@K over a batch. */
  method MeanRecallAtK(allRecs: seq<seq<Entry>>, allRelevant: seq<seq<string>>, k: nat) returns (meanRecall: real)
    ensures meanRecall == MeanRecall(allRecs, allRelevant, k)
  {
    if allRecs == [] || allRelevant == [] {
      return 0.0;
    }
    var recalls: seq<real> := [];
    for i := 0 to Min(|allRecs|, |allRelevant|)
      invariant recalls == Recalls(allRecs, allRelevant, k)[..i]
    {
      var recall := RecallAtK(allRecs[i], allRelevant[i], k);
      recalls := recalls + [recall];
    }
    assert recalls == Recalls(allRecs, allRelevant, k);
    meanRecall := Sum(recalls) / |recalls| as real;
  }

  /** Mean Average Precision@K over a batch. */
  method MeanAveragePrecisionAtK(allRecs: seq<seq<Entry>>, allRelevant: seq<seq<string>>, k: nat)
    returns (mapK: real)
    ensures mapK == MeanAveragePrecision(allRecs, allRelevant, k)
  {
    if allRecs == [] || allRelevant == [] {
      return 0.0;
    }
    var aps: seq<real> := [];
    for i := 0 to Min(|allRecs|, |allRelevant|)
      invariant aps == AveragePrecisions(allRecs, allRelevant, k)[..i]
    {
      var ap := AveragePrecisionAtK(allRecs[i], allRelevant[i], k);
      aps := aps + [ap];
    }
    assert aps == AveragePrecisions(allRecs, allRelevant, k);
    mapK := Sum(aps) / |aps| as real;
  }

  /**
   * Both metric families at every requested cut-off: a map from
   * "recall_at_k" and "map_at_k" to a map from each K to the batch mean.
   */
  method EvaluateRecommendationSystem(allRecs: seq<seq<Entry>>, allRelevant: seq<seq<string>>, kValues: seq<nat>)
    returns (results: map<string, map<nat, real>>)
    ensures results.Keys == {"recall_at_k", "map_at_k"}
    ensures results["recall_at_k"].Keys == (set k | k in kValues)
    ensures results["map_at_k"].Keys == (set k | k in kValues)
    ensures forall k :: k in results["recall_at_k"] ==> results["recall_at_k"][k] == MeanRecall(allRecs, allRelevant, k)
    ensures forall k :: k in results["map_at_k"] ==> results["map_at_k"][k] == MeanAveragePrecision(allRecs, allRelevant, k)
  {
    results := map["recall_at_k" := map[], "map_at_k" := map[]];
    for i := 0 to |kValues|
      invariant results.Keys == {"recall_at_k", "map_at_k"}
      invariant results["recall_at_k"].Keys == (set k | k in kValues[..i])
      invariant results["map_at_k"].Keys == (set k | k in kValues[..i])
      invariant forall k :: k in results["recall_at_k"] ==> results["recall_at_k"][k] == MeanRecall(allRecs, allRelevant, k)
      invariant forall k :: k in results["map_at_k"] ==> results["map_at_k"][k] == MeanAveragePrecision(allRecs, allRelevant, k)
    {
      var k := kValues[i];
      var recall := MeanRecallAtK(allRecs, allRelevant, k);
      var mapK := MeanAveragePrecisionAtK(allRecs, allRelevant, k);
      assert kValues[..i + 1] == kValues[..i] + [k];
      results := results["recall_at_k" := results["recall_at_k"][k := recall]];
      results := results["map_at_k" := results["map_at_k"][k := mapK]];
    }
    assert kValues[..|kValues|] == kValues;
  }

  /** The report at the default cut-offs 5, 10 and 20, used when the caller names none. */
  method EvaluateAtDefaultCutoffs(allRecs: seq<seq<Entry>>, allRelevant: seq<seq<string>>)
    returns (results: map<string, map<nat, real>>)
    ensures results.Keys == {"recall_at_k", "map_at_k"}
    ensures results["recall_at_k"].Keys == {5, 10, 20} && results["map_at_k"].Keys == {5, 10, 20}
    ensures forall k :: k in results["recall_at_k"] ==> results["recall_at_k"][k] == MeanRecall(allRecs, allRelevant, k)
    ensures forall k :: k in results["map_at_k"] ==> results["map_at_k"][k] == MeanAveragePrecision(allRecs, allRelevant, k)
  {
    results := EvaluateRecommendationSystem(allRecs, allRelevant, DefaultKValues);
    assert (set k | k in DefaultKValues) == {5, 10, 20};
  }

  // ---------------------------------------------------- per-query lemmas

  /** With nothing relevant, recall and average precision are 0 for every list and every K. */
  lemma EmptyRelevantScoresZero(recs: seq<Entry>, k: nat)
    ensures Recall(recs, [], k) == 0.0
    ensures AveragePrecision(recs, [], k) == 0.0
  {
  }

  /**
   * An entry is scored by its name alone: replacing the plain name at any
   * position by a record carrying that name in its field (or, for the empty
   * name, by a record without the field) changes no scorer.
   */
  lemma RecordMatchedByField(recs: seq<Entry>, relevant: seq<string>, k: nat, i: nat, field: Option<string>)
    requires i < |recs| && recs[i] == Name(field.GetOr(""))
    ensures Names(recs[i := Record(field)]) == Names(recs)
    ensures Recall(recs[i := Record(field)], relevant, k) == Recall(recs, relevant, k)
    ensures Precision(recs[i := Record(field)], relevant, k) == Precision(recs, relevant, k)
    ensures AveragePrecision(recs[i := Record(field)], relevant, k) == AveragePrecision(recs, relevant, k)
  {
    assert Names(recs[i := Record(field)]) == Names(recs);
  }

  /** Recall is never negative, and is at most 1 when the examined names are distinct. */
  lemma RecallBounds(recs: seq<Entry>, relevant: seq<string>, k: nat)
    ensures 0.0 <= Recall(recs, relevant, k)
    ensures Distinct(TopK(Names(recs), k)) ==> Recall(recs, relevant, k) <= 1.0
  {
    var top := TopK(Names(recs), k);
    if relevant != [] && Distinct(top) {
      HitsOfDistinctAtMostRelevant(top, relevant);
      DivBounds(Hits(top, relevant) as real, |relevant| as real);
    }
  }

  /** Without distinct names the bound fails: a name recommended twice gives recall 2. */
  lemma RecallCanExceedOne()
    ensures Recall([Name("a"), Name("a")], ["a"], 2) == 2.0
  {
    assert TopK(Names([Name("a"), Name("a")]), 2) == ["a", "a"];
    DuplicateCountsTwice("a");
  }

  /** A larger cut-off never lowers recall. */
  lemma RecallMonotoneInK(recs: seq<Entry>, relevant: seq<string>, k1: nat, k2: nat)
    requires k1 <= k2
    ensures Recall(recs, relevant, k1) <= Recall(recs, relevant, k2)
  {
    var names := Names(recs);
    HitsPrefixMonotone(names, relevant, Min(k1, |names|), Min(k2, |names|));
    if relevant != [] {
      var h1, h2 := Hits(TopK(names, k1), relevant), Hits(TopK(names, k2), relevant);
      DivMonotone(h1 as real, h2 as real, |relevant| as real);
    }
  }

  lemma DivMonotone(a: real, b: real, c: real)
    requires a <= b && c > 0.0
    ensures a / c <= b / c
  {
  }

  /** When the list reaches K, every top-K name is relevant and there are K relevant entries, recall is 1. */
  lemma RecallOfFullyRelevantTop(recs: seq<Entry>, relevant: seq<string>, k: nat)
    requires 0 < k <= |recs| && |relevant| == k
    requires forall i :: 0 <= i < k ==> NameOf(recs[i]) in relevant
    ensures Recall(recs, relevant, k) == 1.0
  {
    HitsAllRelevant(TopK(Names(recs), k), relevant);
    DivSelf(k as real);
  }

  /** Precision is 0 at K = 0, never negative, at most 1, and at most |recs| / K for short lists. */
  lemma PrecisionBounds(recs: seq<Entry>, relevant: seq<string>, k: nat)
    ensures Precision(recs, relevant, 0) == 0.0
    ensures 0.0 <= Precision(recs, relevant, k) <= 1.0
    ensures k > 0 ==> Precision(recs, relevant, k) <= |recs| as real / k as real
  {
    if k > 0 {
      var top := TopK(Names(recs), k);
      HitsAtMostLength(top, relevant);
      DivBounds(Hits(top, relevant) as real, k as real);
      DivMonotone(Hits(top, relevant) as real, |recs| as real, k as real);
    }
  }

  /** The divisor is the requested K: one relevant entry asked for at K = 2 scores one half. */
  lemma PrecisionPenalisesShortList()
    ensures Precision([Name("a")], ["a"], 2) == 0.5
  {
    assert TopK(Names([Name("a")]), 2) == ["a"];
    assert ["a"][..0] == [];
  }

  /** Average precision is never negative, and at most 1 when the examined names are distinct. */
  lemma AveragePrecisionBounds(recs: seq<Entry>, relevant: seq<string>, k: nat)
    ensures 0.0 <= AveragePrecision(recs, relevant, k)
    ensures Distinct(TopK(Names(recs), k)) ==> AveragePrecision(recs, relevant, k) <= 1.0
  {
    var top := TopK(Names(recs), k);
    if relevant != [] && Hits(top, relevant) != 0 {
      PrecisionSumBounds(top, relevant);
      HitsAtMostLength(top, relevant);
      if Distinct(top) {
        HitsOfDistinctAtMostRelevant(top, relevant);
        DivBounds(PrecisionSum(top, relevant), Min(k, |relevant|) as real);
      }
    }
  }

  /** Average precision is positive exactly when the top K holds a relevant name. */
  lemma AveragePrecisionPositiveIffHit(recs: seq<Entry>, relevant: seq<string>, k: nat)
    requires relevant != []
    ensures AveragePrecision(recs, relevant, k) > 0.0 <==> Hits(TopK(Names(recs), k), relevant) > 0
  {
    var top := TopK(Names(recs), k);
    PrecisionSumPositive(top, relevant);
    HitsAtMostLength(top, relevant);
  }

  /**
   * Four recommendations whose first three are exactly the relevant ones:
   * recall, precision and average precision at 3 are all 1.
   */
  lemma PerfectTopThree()
    ensures Recall([Name("a"), Name("b"), Name("c"), Name("d")], ["a", "b", "c"], 3) == 1.0
    ensures Precision([Name("a"), Name("b"), Name("c"), Name("d")], ["a", "b", "c"], 3) == 1.0
    ensures AveragePrecision([Name("a"), Name("b"), Name("c"), Name("d")], ["a", "b", "c"], 3) == 1.0
  {
    var top := TopK(Names([Name("a"), Name("b"), Name("c"), Name("d")]), 3);
    assert top == ["a", "b", "c"];
    assert top[..2] == ["a", "b"] && top[..1] == ["a"] && top[..0] == [];
    assert Hits(["a"], ["a", "b", "c"]) == 1;
    assert Hits(["a", "b"], ["a", "b", "c"]) == 2;
    assert Hits(top, ["a", "b", "c"]) == 3;
    assert PrecisionSum(["a"], ["a", "b", "c"]) == 1.0;
    assert PrecisionSum(["a", "b"], ["a", "b", "c"]) == 2.0;
    assert PrecisionSum(top, ["a", "b", "c"]) == 3.0;
  }

  /**
   * Ranking x, a, y, b, c against relevant a, b, c at K = 3: one hit at
   * rank 2 gives recall 1/3, and average precision (1/2) / 3 = 1/6.
   */
  lemma OneHitAtRankTwo()
    ensures Recall([Name("x"), Name("a"), Name("y"), Name("b"), Name("c")], ["a", "b", "c"], 3) == 1.0 / 3.0
    ensures AveragePrecision([Name("x"), Name("a"), Name("y"), Name("b"), Name("c")], ["a", "b", "c"], 3) == 1.0 / 6.0
  {
    var rel := ["a", "b", "c"];
    var top := TopK(Names([Name("x"), Name("a"), Name("y"), Name("b"), Name("c")]), 3);
    assert top == ["x", "a", "y"];
    assert top[..2] == ["x", "a"] && ["x", "a"][..1] == ["x"] && ["x"][..0] == [];
    assert "x" !in rel && "y" !in rel;
    assert Hits(["x"], rel) == 0;
    assert Hits(["x", "a"], rel) == 1;
    assert Hits(top, rel) == 1;
    assert PrecisionSum(["x"], rel) == 0.0;
    assert PrecisionSum(["x", "a"], rel) == 0.5;
    assert PrecisionSum(top, rel) == 0.5;
  }

  // ------------------------------------------------------- batch lemmas

  /** An empty batch on either side scores 0 for both means. */
  lemma EmptyBatchScoresZero(allRecs: seq<seq<Entry>>, allRelevant: seq<seq<string>>, k: nat)
    requires allRecs == [] || allRelevant == []
    ensures MeanRecall(allRecs, allRelevant, k) == 0.0
    ensures MeanAveragePrecision(allRecs, allRelevant, k) == 0.0
  {
  }

  /** Only the zipped pairs matter: trailing queries of the longer list are ignored. */
  lemma MeansIgnoreUnpairedQueries(allRecs: seq<seq<Entry>>, allRelevant: seq<seq<string>>, k: nat)
    ensures var n := Min(|allRecs|, |allRelevant|);
      MeanRecall(allRecs, allRelevant, k) == MeanRecall(allRecs[..n], allRelevant[..n], k)
      && MeanAveragePrecision(allRecs, allRelevant, k) == MeanAveragePrecision(allRecs[..n], allRelevant[..n], k)
  {
    var n := Min(|allRecs|, |allRelevant|);
    assert Recalls(allRecs, allRelevant, k) == Recalls(allRecs[..n], allRelevant[..n], k);
    assert AveragePrecisions(allRecs, allRelevant, k) == AveragePrecisions(allRecs[..n], allRelevant[..n], k);
  }

  /** Every query examines distinct names in its top K. */
  predicate DistinctTops(allRecs: seq<seq<Entry>>, k: nat) {
    forall i :: 0 <= i < |allRecs| ==> Distinct(TopK(Names(allRecs[i]), k))
  }

  /** Both means are never negative, and at most 1 when every query examines distinct names. */
  lemma MeanBoundsLemma(allRecs: seq<seq<Entry>>, allRelevant: seq<seq<string>>, k: nat)
    ensures 0.0 <= MeanRecall(allRecs, allRelevant, k)
    ensures 0.0 <= MeanAveragePrecision(allRecs, allRelevant, k)
    ensures DistinctTops(allRecs, k) ==> MeanRecall(allRecs, allRelevant, k) <= 1.0
    ensures DistinctTops(allRecs, k) ==> MeanAveragePrecision(allRecs, allRelevant, k) <= 1.0
  {
    var rs, aps := Recalls(allRecs, allRelevant, k), AveragePrecisions(allRecs, allRelevant, k);
    forall i | 0 <= i < |rs|
      ensures 0.0 <= rs[i] && 0.0 <= aps[i]
      ensures Distinct(TopK(Names(allRecs[i]), k)) ==> rs[i] <= 1.0 && aps[i] <= 1.0
    {
      RecallBounds(allRecs[i], allRelevant[i], k);
      AveragePrecisionBounds(allRecs[i], allRelevant[i], k);
    }
    if rs != [] {
      SumNonNegative(rs);
      SumNonNegative(aps);
      if DistinctTops(allRecs, k) {
        MeanBounds(rs);
        MeanBounds(aps);
      }
    }
  }

  /** A larger cut-off never lowers mean recall. */
  lemma MeanRecallMonotoneInK(allRecs: seq<seq<Entry>>, allRelevant: seq<seq<string>>, k1: nat, k2: nat)
    requires k1 <= k2
    ensures MeanRecall(allRecs, allRelevant, k1) <= MeanRecall(allRecs, allRelevant, k2)
  {
    if allRecs != [] && allRelevant != [] {
      var r1, r2 := Recalls(allRecs, allRelevant, k1), Recalls(allRecs, allRelevant, k2);
      forall i | 0 <= i < |r1| ensures r1[i] <= r2[i] {
        RecallMonotoneInK(allRecs[i], allRelevant[i], k1, k2);
      }
      SumMonotone(r1, r2);
      DivMonotone(Sum(r1), Sum(r2), |r1| as real);
    }
  }

  lemma {:induction false} SumMonotone(xs: seq<real>, ys: seq<real>)
    requires |xs| == |ys|
    requires forall i :: 0 <= i < |xs| ==> xs[i] <= ys[i]
    ensures Sum(xs) <= Sum(ys)
  {
    if xs != [] {
      SumMonotone(xs[..|xs| - 1], ys[..|ys| - 1]);
    }
  }

  /** Two queries scoring recall 1 and 1/3 at K = 3 have mean recall 2/3. */
  lemma TwoQueryMeanRecall()
    ensures MeanRecall(
      [[Name("a"), Name("b"), Name("c"), Name("d")], [Name("x"), Name("a"), Name("y"), Name("b"), Name("c")]],
      [["a", "b", "c"], ["a", "b", "c"]], 3) == 2.0 / 3.0
  {
    PerfectTopThree();
    OneHitAtRankTwo();
    var rs := Recalls(
      [[Name("a"), Name("b"), Name("c"), Name("d")], [Name("x"), Name("a"), Name("y"), Name("b"), Name("c")]],
      [["a", "b", "c"], ["a", "b", "c"]], 3);
    assert rs == [1.0, 1.0 / 3.0];
    assert rs[..1] == [1.0] && [1.0][..0] == [];
    assert Sum(rs) == 4.0 / 3.0;
  }
}
