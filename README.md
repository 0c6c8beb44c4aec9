# Ranking-evaluation core of an assessment recommender, in Dafny

This project models the part of the assessment recommender that evaluates a
ranked recommendation list against known relevant assessments. It covers:

- **`app/evaluation_metrics.py`**: three per-query scorers (Recall@K,
  Precision@K, Average Precision@K) and two batch reducers (mean recall and MAP
  over the zipped batch). It also covers the report builder, which fills a map
  from `"recall_at_k"` / `"map_at_k"` to a map from each K to its score.
  Recommendation entries are plain names or records with an optional
  `assessment_name` field (`Entries.Entry`).
- **`utils/metrics.py`**: a second, divergent implementation over plain string
  lists. Recall and precision are pure functions here. MAP is a loop over the
  queries: it skips queries with no relevant items and queries with no hit, and
  divides each precision sum by the number of relevant items. The report has
  the keys `"recall@K"` and `"map@K"`.
- **`app/update_test_queries.py`**: the name canonicaliser (lowercase, strip,
  spaces to hyphens) and the step that rebuilds a query's relevant list from
  the normalised names of a run's first three recommendations.

All arithmetic is on exact `real`s. K is a `nat`. Relevant lists stay
sequences, because their length (duplicates included) is the recall divisor.
The scorers run a loop over the top-K slice in the source, so they are Dafny
methods with loop invariants. Each is proved equal to a specification function
in `EvaluationMetrics` or `UtilsMetrics`, and lemmas state what those functions
promise. The shared vocabulary (`TopK`, `Hits`, `PrecisionSum`, `Sum`) lives in
`Ranking`. `MetricsComparison` proves where the two implementations agree and
where they differ. `RecommendationTests` works out the scenarios of
`tests/test_recommendations.py` exactly.

Inputs are Dafny values, so no operation can change its arguments. This holds
by construction and is the model's form of "inputs are not mutated".

The model follows the code in places where a reader might expect otherwise:

- The relevant items are a list, not a set. Their length counts duplicates.
- In `utils/metrics.py` the mean recall of an empty batch is `np.mean([])`,
  which is NaN, not 0. It is modelled as `UtilsMetrics.Score.NaN`.
- `tests/test_recommendations.py:64` expects recall@3 = 1.0 on the sample
  queries. The code gives 11/12, because the second query finds only 3 of its
  4 relevant items in its top 3 (`RecommendationTests.SampleQueriesScores`).
  Likewise `tests/test_recommendations.py:72` expects recall@3 = 0.0 on an
  empty batch, but the code gives NaN (`RecommendationTests.EmptyQueries`).

## Model

| member | source | states |
|---|---|---|
| `EvaluationMetrics.RecallAtK` | app/evaluation_metrics.py:4-37 | the loop's result equals `Recall`: per-position hits among the first min(K, len) names, divided by len(relevant); 0 when relevant is empty |
| `EvaluationMetrics.PrecisionAtK` | app/evaluation_metrics.py:39-72 | the loop's result equals `Precision`: 0 when K = 0, otherwise top-K hits divided by the requested K |
| `EvaluationMetrics.AveragePrecisionAtK` | app/evaluation_metrics.py:74-114 | the loop's result equals `AveragePrecision`: the sum of hits-so-far/(i+1) at each hit, divided by min(K, len(relevant)); 0 with no relevant items or no hit |
| `EvaluationMetrics.MeanRecallAtK` | app/evaluation_metrics.py:116-139 | the loop's result equals `MeanRecall`: 0 if either outer list is empty, else the unweighted mean of the recalls of the zipped pairs |
| `EvaluationMetrics.MeanAveragePrecisionAtK` | app/evaluation_metrics.py:141-164 | the loop's result equals `MeanAveragePrecision`, defined like `MeanRecall` over the per-query average precisions |
| `EvaluationMetrics.EvaluateRecommendationSystem` | app/evaluation_metrics.py:166-192 | the result has exactly the keys "recall_at_k" and "map_at_k"; each inner map's key set is exactly the set of given K values, and each value is the batch mean at that K |
| `EvaluationMetrics.EvaluateAtDefaultCutoffs` | app/evaluation_metrics.py:166-168 | called without cut-offs, the report holds exactly K = 5, 10 and 20 in both inner maps, each with its batch mean |
| `EvaluationMetrics.EmptyRelevantScoresZero` | app/evaluation_metrics.py:16-17 | with an empty relevant list, recall is 0 (and average precision is 0, lines 86-87) for every list and every K |
| `EvaluationMetrics.RecordMatchedByField` | app/evaluation_metrics.py:24-31 | replacing the plain name at any position of any list by a record carrying that name (or, for "", by a record without the field) leaves recall, precision and average precision unchanged at every K; the same name extraction recurs at lines 59-64 and 97-101 |
| `EvaluationMetrics.RecallBounds` | app/evaluation_metrics.py:20-35 | recall is at least 0, and at most 1 when the examined top-K names are distinct |
| `EvaluationMetrics.RecallCanExceedOne` | app/evaluation_metrics.py:23-35 | matches are counted per position: ["a","a"] against ["a"] at K = 2 gives recall 2 |
| `EvaluationMetrics.RecallMonotoneInK` | app/evaluation_metrics.py:19-35 | for fixed inputs, a larger K never gives a smaller recall |
| `EvaluationMetrics.RecallOfFullyRelevantTop` | app/evaluation_metrics.py:19-35 | if the list has at least K entries, all top-K names are relevant and there are K relevant items, recall is 1 |
| `EvaluationMetrics.PrecisionBounds` | app/evaluation_metrics.py:51-70 | precision is 0 at K = 0, lies in [0, 1], and is at most len(recommendations)/K |
| `EvaluationMetrics.PrecisionPenalisesShortList` | app/evaluation_metrics.py:54-70 | the divisor is the requested K: one relevant entry at K = 2 gives 1/2 |
| `EvaluationMetrics.AveragePrecisionBounds` | app/evaluation_metrics.py:90-114 | average precision is at least 0, and at most 1 when the examined top-K names are distinct |
| `EvaluationMetrics.AveragePrecisionPositiveIffHit` | app/evaluation_metrics.py:103-112 | with relevant items present, average precision is positive exactly when the top-K slice has a hit |
| `EvaluationMetrics.PerfectTopThree` | app/evaluation_metrics.py:90-114 | ["a","b","c","d"] against {a,b,c} at K = 3 gives recall, precision and average precision 1 |
| `EvaluationMetrics.OneHitAtRankTwo` | app/evaluation_metrics.py:90-114 | ["x","a","y","b","c"] against {a,b,c} at K = 3 gives recall 1/3 and average precision 1/6 |
| `EvaluationMetrics.EmptyBatchScoresZero` | app/evaluation_metrics.py:130-131 | if either outer list is empty, both batch means are 0 |
| `EvaluationMetrics.MeansIgnoreUnpairedQueries` | app/evaluation_metrics.py:134-138 | only the zipped pairs count: both means equal the means over the first min(len, len) entries of each list |
| `EvaluationMetrics.MeanBoundsLemma` | app/evaluation_metrics.py:133-163 | both means are at least 0, and at most 1 when every query's top-K names are distinct |
| `EvaluationMetrics.MeanRecallMonotoneInK` | app/evaluation_metrics.py:116-139 | a larger K never lowers mean recall |
| `EvaluationMetrics.TwoQueryMeanRecall` | app/evaluation_metrics.py:133-138 | two queries with recall 1 and 1/3 at K = 3 give mean recall 2/3 |
| `UtilsMetrics.CalculateMapAtK` | utils/metrics.py:44-83 | the loop's result equals `MapAtK`: 0 for no queries; otherwise the mean of the collected per-query scores (precision sum / len(relevant_items)), or 0 if none was collected |
| `UtilsMetrics.EvaluateRecommendations` | utils/metrics.py:85-115 | the report has exactly the keys "recall@K" and "map@K"; recall is the mean over all queries (NaN for none), map is `MapAtK` |
| `UtilsMetrics.EvaluateAtDefaultK` | utils/metrics.py:85-88 | called without a cut-off, the report has exactly the keys "recall@3" and "map@3", holding the mean recall at K = 3 (NaN for an empty batch) and `MapAtK` at K = 3 |
| `UtilsMetrics.CalculateRecallAtK` | utils/metrics.py:4-22 | recall is 0 when the relevant list (the first argument) is empty, never negative, and at most 1 when the top-K items are distinct |
| `UtilsMetrics.CalculatePrecisionAtK` | utils/metrics.py:24-42 | precision is 0 when the top-K slice is empty (K = 0 or no recommendations) and always lies in [0, 1] |
| `UtilsMetrics.QueryAveragePrecisionDefinedIffHit` | utils/metrics.py:65-81 | a query contributes a score exactly when its relevant list is non-empty and some top-K item is relevant |
| `UtilsMetrics.QueryAveragePrecisionBounds` | utils/metrics.py:79-80 | a contributed score is positive, and at most 1 when the top-K items are distinct |
| `UtilsMetrics.SkippedQueryLeavesMapUnchanged` | utils/metrics.py:65-83 | appending a query without relevant items or without a hit leaves MAP unchanged: it is skipped, not scored 0 |
| `UtilsMetrics.ScoredQueryExtendsMap` | utils/metrics.py:79-81 | appending a query with a hit appends its score to the averaged list |
| `UtilsMetrics.ApScoresBounds` | utils/metrics.py:72-81 | every collected score is at least 0, and at most 1 when every query's top-K items are distinct |
| `UtilsMetrics.MapBounds` | utils/metrics.py:56-83 | MAP is at least 0, and at most 1 when every query's top-K items are distinct |
| `UtilsMetrics.EmptyBatch` | utils/metrics.py:99-115 | for an empty batch, map@K is 0 and recall@K is NaN |
| `UtilsMetrics.EmptyRelevantQueryCountsAsZeroRecall` | utils/metrics.py:102-110 | a query with no relevant items adds a 0 to the recall mean, unlike MAP, which skips it |
| `UtilsMetrics.ReportKeys` | utils/metrics.py:112-115 | the two keys differ, and at K = 3 they are "recall@3" and "map@3" |
| `MetricsComparison.RecallImplementationsAgree` | utils/metrics.py:4-22 | the two recall implementations give the same value on the entries' names |
| `MetricsComparison.PrecisionImplementationsAgree` | utils/metrics.py:36-42 | the guards differ (K = 0 against an empty slice), yet both precision implementations agree on every input |
| `MetricsComparison.AveragePrecisionDivisors` | utils/metrics.py:79-81 | the per-query score of utils/metrics.py is missing exactly when the other file's AP is 0; it is never larger than that AP, and equal when len(relevant) <= K |
| `MetricsComparison.MeanRecallsAgree` | utils/metrics.py:99-110 | the mean recalls agree on a non-empty batch; on an empty one the first file gives 0 and the second NaN |
| `MetricsComparison.MapsAgreeWhenEveryQueryHits` | utils/metrics.py:56-83 | when every query has a hit and at most K relevant items, both MAP@K values are equal |
| `MetricsComparison.MapImplementationsDiverge` | utils/metrics.py:65-83 | a batch of one hit query and one miss query at K = 1 has MAP 1 in utils/metrics.py and 1/2 in app/evaluation_metrics.py |
| `RecommendationTests.SampleQueriesScores` | tests/test_recommendations.py:52-67 | on the three sample queries at K = 3, recall@3 = map@3 = (1 + 3/4 + 1)/3 = 11/12, which is above 0.8 and not 1 |
| `RecommendationTests.SampleQueriesFirstImplementationMap` | tests/test_recommendations.py:5-50 | the same sample queries have MAP@3 = 1 under app/evaluation_metrics.py, whose divisor is min(K, len(relevant)) |
| `RecommendationTests.PartialRelevance` | tests/test_recommendations.py:75-87 | relevant [item1, item2, item3] against [item1, item4, item5, item2, item3] at K = 3 gives recall@3 = 1/3 and map@3 = 1/3 |
| `RecommendationTests.EmptyQueries` | tests/test_recommendations.py:69-73 | an empty batch gives map@3 = 0 and recall@3 = NaN |
| `AssessmentNames.NormalizeName` | app/update_test_queries.py:28-29 | lowercasing, stripping and replacing spaces by hyphens gives a name with no space, no ASCII upper-case letter and no whitespace at either end |
| `AssessmentNames.NormalizeAssessmentName` | app/update_test_queries.py:26-29 | an entry normalises as the name the scorers read from it (the string, the record's field, or "" without one), and the result is canonical |
| `AssessmentNames.NormalizeNameIdempotent` | app/update_test_queries.py:28-29 | normalising an already normalised name leaves it unchanged |
| `AssessmentNames.RecordNormalizesAsItsName` | app/update_test_queries.py:27-29 | a corollary of the first ensures of `NormalizeAssessmentName`: a record with name s normalises like the string s; a record without the field normalises to "" |
| `AssessmentNames.NormalizeExample` | app/update_test_queries.py:29 | " Java Test " normalises to "java-test" |
| `AssessmentNames.StripShape` | app/update_test_queries.py:28 | stripping keeps only input characters and leaves no whitespace at either end |
| `AssessmentNames.TopThreeRelevant` | app/update_test_queries.py:38-41 | the rebuilt relevant list has min(3, len) entries: the canonical normalised names of the first recommendations, in order |
| `AssessmentNames.UpdatedRelevant` | app/update_test_queries.py:36-41 | an empty run leaves the relevant list unchanged; otherwise it becomes the normalised names of the first min(3, len) recommendations |

## Left out

- Floating point: all division is exact over `real`. IEEE-754 rounding and
  numpy's summation order are not modelled. `np.mean` is the sum divided by
  the count.
- Negative K: Python's negative slices are not modelled, because K is a `nat`.
- Unicode: `lower()` changes only ASCII capitals. `strip()` removes only the
  ASCII characters Python treats as whitespace (space, `\t`, `\n`, `\v`, `\f`,
  `\r` and `\x1c`-`\x1f`).
- Entries that are neither strings nor dictionaries, the `str(...)` fallback
  of `normalize_assessment_name`, and `assessment_name` values that are not
  strings are not modelled.
- Dictionary insertion order: reports are Dafny maps, so only their keys and
  values are modelled. A repeated K overwrites its entry with the same value.
- The free-text `query` field of a test query plays no part in scoring and is
  not modelled.
- I/O and glue are not part of this model:
  - `load_test_queries`, `save_test_queries`, `get_recommendations`, and the
    file handling and printing in `main` of `app/update_test_queries.py`;
  - `api/main.py` (a remote language-model call);
  - `app/main.py` (the UI);
  - `app/evaluate_recommender.py` (file loading, an HTTP client, printing);
  - `setup.py` and `test_gemini.py`.
