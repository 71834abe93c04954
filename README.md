# Grocery recommender: a Dafny model of its core

This project models the core of the `grocery` recommender:

- **Candidate retrieval.** `DotProductKNN` scores every right-side item against a query embedding, sorts, cuts to `n` and drops self matches.
- **Feature store and enrichment.** `FeatureStorage`, the static and embedding-score extractors, and `FeatureManager`, which merges extractor outputs into each candidate's feature map.
- **Funnel reranking.**
  - `select_top_n`.
  - The CatBoost ranker and the Gumbel-noise softmax sampler. Both write a score feature onto every candidate and then select the top `n`.
  - `RankingPipeline`, which threads the candidates through its stages.
- **Offline evaluation.**
  - The quality metrics: precision, recall, MAP, DCG and NDCG.
  - The aspect metrics: novelty, serendipity and category diversity.
  - The `Evaluator`, which groups test actions into requests, replays them through a recommendation callback (per user or in batches), pairs predictions with requests and reduces each metric with mean, sum, max or min.
- **Index mappings.** The id/index mappings and the rating matrix built from a ratings table.

Every Python exception the code can raise on the modelled paths is a value. Operations return `Result<T> = Ok(value) | Err(error)`, where the error is one of `KeyError`, `TypeError`, `ValueError`, `AttributeError`, `ZeroDivisionError` and `AssertionError`. Where several errors can occur, the first one the code meets wins.

Scores are exact `real`s. Python slicing is modelled with its negative bounds (`Builtins.Take`, `Builtins.Slice`), and `//` is floor division (`Builtins.FloorDiv`).

These classes update their fields in place, so they are Dafny `class`es:

- `FeatureStorage`
- `FeatureManager`
- `DotProductKNN`
- `Evaluator`

The loops of the source are methods proved against specification functions:

- `add_feature`
- the static extractor
- `extract`
- the `DotProductKNN` constructor
- `_apk`
- serendipity
- the CatBoost and softmax score writing
- the pipeline stage loop
- the evaluator's prediction and scoring loops
- the matrix fill

The properties are then proved about those functions.

Modules and files:

- `Builtins`, in builtins.dfy.
- `Primitives`, in primitives.dfy.
- `Sorting`, in sorting.dfy: the stable sort and top-`n` selection.
- `Quality`, in quality.dfy.
- `Aspects`, in aspects.dfy.
- `Evaluation`, in evaluation.dfy.
- `Candidates`, in candidates.dfy.
- `Reranking`, in reranking.dfy.
- `Features`, in features.dfy.
- `Dataset`, in dataset.dfy.

## Model

| member | source | states |
|---|---|---|
| Builtins.Take | grocery/src/grocery/metrics/quality.py:18-19 | `s[:k]` is a prefix of `s` of length `min(k, len)` for `k >= 0` and `max(len + k, 0)` for negative `k` |
| Builtins.Slice | grocery/src/grocery/metrics/base.py:85 | `s[a:b]` is the run between the clamped bounds (negative bounds count from the end), empty when the start passes the stop |
| Builtins.FloorDiv | grocery/src/grocery/metrics/base.py:86 | `a // b` is the floor of the quotient: `q*b <= a < q*b + b` for positive `b`, mirrored for negative `b` |
| Builtins.Distinct | grocery/src/grocery/utils/dataset.py:48-49 | `unique()` (first-appearance order) has no duplicates and exactly the elements of its input |
| Builtins.ElementsCard | grocery/src/grocery/metrics/aspects.py:87 | the number of distinct values is at most the length, and equals it when there are no duplicates |
| Sorting.SortBy | grocery/src/grocery/recommender/candidates.py:37 | the sort is a permutation of its input, of the same length, ordered by the key |
| Sorting.TopN | grocery/src/grocery/recommender/reranking.py:20-25 | `nlargest`/`nsmallest`: `0` items for `n <= 0`, else `min(n, len)`; in key order; a sub-multiset of the input; every selected key is on the right side of every unselected key |
| Sorting.TopNMap | grocery/src/grocery/recommender/reranking.py:94-99 | selecting after a map that preserves the key is the same as mapping the selection |
| Quality.Truncate | grocery/src/grocery/metrics/quality.py:18-19 | no `k` keeps every prediction, `k >= 0` keeps the first `min(k, len)`, and the result is never longer than the input |
| Quality.RelevantBounds | grocery/src/grocery/metrics/quality.py:21 | the distinct relevant ids number at most the predictions and at most the positives |
| Quality.Precision | grocery/src/grocery/metrics/quality.py:13-22 | ZeroDivisionError exactly when no prediction is kept after the cut to `k`; otherwise a value in [0, 1] |
| Quality.Recall | grocery/src/grocery/metrics/quality.py:30-39 | ZeroDivisionError exactly when the positives list is empty; otherwise a value in [0, 1] |
| Quality.RecallIsHitRate | grocery/src/grocery/metrics/quality.py:37-39 | recall times `len(positives)` is the number of distinct kept ids that are positives |
| Quality.PrecisionRecallExample | grocery/src/grocery/metrics/quality.py:20-22 | predictions 5, 7, 9 against positives {5} give precision 1/3 and recall 1 |
| Quality.Apk | grocery/src/grocery/metrics/quality.py:47-58 | empty positives give 1 whatever the predictions; non-empty positives with no `k` raise TypeError (`min(len, None)`); otherwise a value |
| Quality.AveragePrecision | grocery/src/grocery/metrics/quality.py:47-58 | the `_apk` loop computes `Apk` |
| Quality.HitsAreDistinctPositives | grocery/src/grocery/metrics/quality.py:49-51 | after `i` positions the hit counter equals the number of distinct positives among the first `i` predictions, so a repeated id counts once |
| Quality.ScoreAtMostHits | grocery/src/grocery/metrics/quality.py:48-52 | the accumulated precision sum lies between 0 and the number of hits |
| Quality.MeanAveragePrecision | grocery/src/grocery/metrics/quality.py:60-67 | empty positives give 1; non-empty positives with no `k` raise TypeError |
| Quality.MeanAveragePrecisionInUnit | grocery/src/grocery/metrics/quality.py:49-58 | for no `k` or `k >= 0`, a successful MAP lies in [0, 1] |
| Quality.Ideal | grocery/src/grocery/metrics/quality.py:104 | `sorted(relevance, reverse=True)` has the same length, with ones in the first `count` positions and zeros after |
| Quality.IdealIsSorted | grocery/src/grocery/metrics/quality.py:104 | for 0/1 relevances the ideal list is non-increasing and a permutation of the relevances |
| Quality.DcgAtMostIdealFrom | grocery/src/grocery/metrics/quality.py:70-71 | with a positive non-increasing discount, the DCG of a 0/1 list lies between 0 and the DCG of its ones moved to the front |
| Quality.DiscountedGain | grocery/src/grocery/metrics/quality.py:79-87 | DCG of the kept predictions lies between 0 and the ideal DCG |
| Quality.NormalizedGain | grocery/src/grocery/metrics/quality.py:95-105 | NDCG lies in [0, 1] |
| Quality.RelevanceCount | grocery/src/grocery/metrics/quality.py:102 | relevances are 0/1, and their count is 0 exactly when no prediction is a positive |
| Quality.NormalizedGainNoHit | grocery/src/grocery/metrics/quality.py:103-105 | no kept prediction is a positive: NDCG is 0 (the zero-denominator branch) |
| Quality.NormalizedGainHitsFirst | grocery/src/grocery/metrics/quality.py:102-105 | at least one hit and every hit ahead of every miss: NDCG is 1 |
| Quality.HitsFirstIsIdeal | grocery/src/grocery/metrics/quality.py:104 | a 0/1 list whose ones all come first equals its descending sort |
| Aspects.NoveltyTable | grocery/src/grocery/metrics/aspects.py:11-21 | one entry per item, valued `1 - popularity / num_users`, which lies in [0, 1] |
| Aspects.NoveltySumBounds | grocery/src/grocery/metrics/aspects.py:32 | with table values in [0, 1] and a default of 1, the novelty sum lies between 0 and the number of predictions |
| Aspects.Novelty | grocery/src/grocery/metrics/aspects.py:23-34 | no predictions give 0 (checked before the cut); otherwise ZeroDivisionError exactly when none are kept, and the value times the kept count is the novelty sum |
| Aspects.NoveltyInUnit | grocery/src/grocery/metrics/aspects.py:23-34 | with table values in [0, 1], novelty lies in [0, 1] |
| Aspects.NoveltyOfCountsInUnit | grocery/src/grocery/metrics/aspects.py:11-34 | a table built from popularity counts gives novelty in [0, 1] |
| Aspects.SerendipityCounts | grocery/src/grocery/metrics/aspects.py:59-62 | numerator <= denominator <= number of kept predictions |
| Aspects.SerendipityCountsAppend | grocery/src/grocery/metrics/aspects.py:60-62 | both counters add up over a concatenation, so a repeated prediction counts every time |
| Aspects.SerendipityValue | grocery/src/grocery/metrics/aspects.py:49-63 | no predictions give 0; otherwise KeyError exactly when the user has no history; the value lies in [0, 1], is 0 when no kept prediction is relevant, and otherwise times the relevant count equals the relevant-and-unseen count |
| Aspects.Serendipity | grocery/src/grocery/metrics/aspects.py:49-63 | the counting loop computes `SerendipityValue` |
| Aspects.CategoryDiversity | grocery/src/grocery/metrics/aspects.py:78-88 | no predictions give 0; nothing kept raises ZeroDivisionError; otherwise KeyError exactly when a kept item has no category; a value lies in (0, 1] |
| Aspects.CategoryDiversityValue | grocery/src/grocery/metrics/aspects.py:83-88 | a successful diversity of a non-empty list keeps at least one prediction, every kept prediction has a category, and the value is the number of distinct categories among the kept predictions over their number |
| Aspects.CategoryDiversityExample | grocery/src/grocery/metrics/aspects.py:87-88 | categories A, A, B give 2/3 |
| Evaluation.MaxK | grocery/src/grocery/metrics/base.py:32 | ValueError exactly when no metric has a `k`; otherwise some metric's `k`, at least every other given `k` |
| Evaluation.Aggregate | grocery/src/grocery/metrics/base.py:51-61 | an unknown reduction raises AssertionError; mean is sum/len and raises ZeroDivisionError exactly on an empty list; sum; max and min are members and bounds of the list, ValueError on an empty list |
| Evaluation.MeanBetweenMinAndMax | grocery/src/grocery/metrics/base.py:55-61 | for a non-empty list, min <= mean <= max |
| Evaluation.ItemsOf | grocery/src/grocery/metrics/base.py:45 | an item id is in a group's list exactly when some action of that group has it (how often and in what order: `ItemsOfRows`) |
| Evaluation.RowsOf | grocery/src/grocery/metrics/base.py:44 | the positions of a group's rows, strictly ascending, holding exactly the rows whose `(request_id, user_id)` is the group's |
| Evaluation.ItemsOfAppend | grocery/src/grocery/metrics/base.py:44-45 | aggregating a log split in two gives the first part's items followed by the second's |
| Evaluation.ItemsOfSingle | grocery/src/grocery/metrics/base.py:44-45 | one row contributes its item id to its own group and nothing to any other |
| Evaluation.ItemsOfRows | grocery/src/grocery/metrics/base.py:44-45 | a group's item list has one entry per row of the group, in log order: entry `i` is the item id of the group's `i`-th row, duplicates kept |
| Evaluation.GroupActions | grocery/src/grocery/metrics/base.py:42-47 | one request per distinct (request_id, user_id) pair |
| Evaluation.GroupActionsSpec | grocery/src/grocery/metrics/base.py:42-48 | the groups are distinct and cover every action; request `i` carries its group's user, and an item id is among its positives exactly when an action of the group has it |
| Evaluation.GroupActionsRows | grocery/src/grocery/metrics/base.py:42-47 | request `i`'s positives have one entry per row of its group, in log order, so `len(positives)` counts repeated items each time |
| Evaluation.RecommendEach | grocery/src/grocery/metrics/base.py:78-82 | one call per request, in request order, each with `max_k` |
| Evaluation.Batches | grocery/src/grocery/metrics/base.py:84-87 | `len // bs + 1` batches, batch `i` being the slice `[i*bs : (i+1)*bs]` of the user ids |
| Evaluation.BatchesCoverUsers | grocery/src/grocery/metrics/base.py:84-87 | for `bs > 0` the concatenated batches are the user ids in order |
| Evaluation.LastBatchEmpty | grocery/src/grocery/metrics/base.py:86 | when `bs` divides the number of requests, the last batch is empty |
| Evaluation.RecommendBatchesPointwise | grocery/src/grocery/metrics/base.py:88-90 | if the batch callable answers each batch as the per-user callable would, extending batch by batch gives the per-user predictions of the concatenation |
| Evaluation.BatchedEqualsUnbatched | grocery/src/grocery/metrics/base.py:78-90 | for `bs > 1` and such a consistent callable, batched and unbatched evaluation predict the same lists |
| Evaluation.MetricValuesPairing | grocery/src/grocery/metrics/base.py:94-97 | value `i` is the metric computed on prediction `i` against request `i`'s positives and user; only `min(len, len)` pairs are scored |
| Evaluation.MetricValuesFailure | grocery/src/grocery/metrics/base.py:94-97 | once a pair fails, the metric's values fail with that error |
| Evaluation.StoreNames | grocery/src/grocery/metrics/base.py:91-98 | a successful result has a key exactly for each metric name, and every metric succeeded |
| Evaluation.StoreLastWins | grocery/src/grocery/metrics/base.py:98 | a name holds the value of the last metric with that name |
| Evaluation.StoreFailure | grocery/src/grocery/metrics/base.py:91-98 | the first failing metric's error is the result |
| Evaluation.PrecisionExample | grocery/src/grocery/metrics/base.py:64-99 | two requests with one hit each among two predictions give `{"precision@2": 0.5}` |
| Evaluation.Evaluator.constructor | grocery/src/grocery/metrics/base.py:25-32 | stores the metrics and their largest `k`; no requests loaded yet |
| Evaluation.Evaluator.LoadTestActions | grocery/src/grocery/metrics/base.py:35-48 | the requests become the grouped actions |
| Evaluation.Evaluator.Evaluate | grocery/src/grocery/metrics/base.py:64-99 | computes `Evaluation`: AttributeError without loaded requests, the prediction phase, then every metric stored by name |
| Evaluation.ScoreAll | grocery/src/grocery/metrics/base.py:91-98 | the metrics loop stores each metric's aggregated value under its name, stopping at the first error |
| Evaluation.ScoreMetric | grocery/src/grocery/metrics/base.py:93-98 | one metric's values over the zipped pairs, aggregated |
| Evaluation.Predict | grocery/src/grocery/metrics/base.py:78-90 | the prediction phase: per user for `bs == 1`, ZeroDivisionError for `bs == 0`, per batch otherwise |
| Evaluation.PredictEach | grocery/src/grocery/metrics/base.py:79-82 | the per-user loop computes `RecommendEach` |
| Evaluation.PredictBatches | grocery/src/grocery/metrics/base.py:88-90 | the `extend` loop computes the concatenated batch results |
| Evaluation.ComputeValues | grocery/src/grocery/metrics/base.py:93-97 | the `values` loop over `zip` computes `MetricValues` |
| Evaluation.NewEvaluator | grocery/src/grocery/metrics/base.py:25-32 | ValueError when no metric has a `k`; otherwise a fresh evaluator with the metrics and `max_k` |
| Candidates.WithoutId | grocery/src/grocery/recommender/candidates.py:39-40 | the filter keeps exactly the candidates with another id, and never lengthens the list |
| Candidates.WithoutIdOrdered | grocery/src/grocery/recommender/candidates.py:39-40 | the filter keeps the score order |
| Candidates.WithoutIdLength | grocery/src/grocery/recommender/candidates.py:39-40 | with distinct ids the filter removes one candidate if the id is present and none otherwise |
| Candidates.NewDotProductKNN | grocery/src/grocery/recommender/candidates.py:19-32 | right-side embeddings of unequal length make `np.array` raise ValueError; otherwise a fresh generator over the two tables, as the constructor states it |
| Candidates.DotProductKNN.constructor | grocery/src/grocery/recommender/candidates.py:19-32 | for right-side embeddings of one length (the ragged case is `NewDotProductKNN`'s ValueError): row `i` of the matrix is the embedding of `right_id_map[i]`, the `i`-th right id in insertion order; `right_id_map` is defined exactly on `0..len-1`; self mode holds exactly when both tables hold equal entries (value equality; see "## Left out") |
| Candidates.DotProductKNN.Ranking | grocery/src/grocery/recommender/candidates.py:36-37 | the argsort is a permutation of the row indices in non-increasing score order |
| Candidates.DotProductKNN.RankingIsPermutation | grocery/src/grocery/recommender/candidates.py:37 | the ranking lists each row index exactly once |
| Candidates.DotProductKNN.FitsEveryRow | grocery/src/grocery/recommender/candidates.py:31-36 | a query as long as the first row is as long as every row, so the length test is numpy's shape rule for `matrix @ q` |
| Candidates.DotProductKNN.ExtractCandidates | grocery/src/grocery/recommender/candidates.py:34-41 | an unknown query id raises KeyError; an empty right side, or a query whose length differs from the rows', raises ValueError; a known query succeeds exactly when it fits the matrix |
| Candidates.DotProductKNN.TopCandidatesSpec | grocery/src/grocery/recommender/candidates.py:34-38 | before the self filter: `min(n, len)` candidates (`max(len + n, 0)` for negative `n`) with distinct right-side ids and no features, in non-increasing score order, and every omitted right item scoring at most every returned one |
| Candidates.DotProductKNN.TopEntry | grocery/src/grocery/recommender/candidates.py:38 | entry `i` is the right id of ranked row `i`, and its score is that row's score |
| Candidates.DotProductKNN.OmittedScoresLower | grocery/src/grocery/recommender/candidates.py:37-38 | an omitted right item scores at most any returned candidate |
| Candidates.DotProductKNN.InTopWhenRankedHigh | grocery/src/grocery/recommender/candidates.py:37-38 | a row ranked within the cut is returned |
| Candidates.DotProductKNN.ExtractCandidatesSpec | grocery/src/grocery/recommender/candidates.py:34-41 | for a known query that fits the matrix, the full contract: the length is the cut, or in self mode the cut or one less with the query id absent; distinct right-side ids; score order; every omitted item, other than the query itself in self mode, scoring at most every returned one |
| Candidates.DotProductKNN.BatchExtractAsWritten | grocery/src/grocery/recommender/candidates.py:43-56 | as written: KeyError for an unknown id; for known ids, ValueError exactly when the batch is empty or some query's length differs from the rows'; success only outside self mode, with every query fitting, where row `i` is query `i`'s top `n` |
| Candidates.DotProductKNN.BatchExtract | grocery/src/grocery/recommender/candidates.py:43-50 | corrected: succeeds exactly when every single extraction does, and row `i` is `extract_candidates(object_ids[i], n)`; otherwise some query's error |
| Candidates.DotProductKNN.BatchSelfModeFails | grocery/src/grocery/recommender/candidates.py:51-55 | in self mode with known ids that fit the matrix, the code as written raises AttributeError while the corrected batch succeeds |
| Candidates.DotProductKNN.BatchAgreesWithoutSelfMode | grocery/src/grocery/recommender/candidates.py:43-56 | outside self mode, on a non-empty batch, the code as written and the corrected batch succeed together and then agree row by row; on known ids they agree outright, error included |
| Reranking.SelectTopN | grocery/src/grocery/recommender/reranking.py:20-25 | `n <= 0` gives `[]`; otherwise success exactly when every candidate has the feature as a number (else the first failing candidate's error; non-numeric keys are covered under "## Left out"); `min(n, len)` candidates; a sub-multiset; in key order; every selected key on the right side of every unselected one |
| Reranking.SetFeature | grocery/src/grocery/recommender/reranking.py:73 | writing a feature needs a feature map, keeps the id and changes only that name |
| Reranking.WriteScores | grocery/src/grocery/recommender/reranking.py:72-73 | the `zip` loop writes score `i` onto candidate `i` for the first `min(len, len)` candidates and leaves the rest as they were; ids and order are kept |
| Reranking.AnnotateScores | grocery/src/grocery/recommender/reranking.py:72-73 | the write loop computes `WriteScores` |
| Reranking.BuildCbmFeatures | grocery/src/grocery/recommender/reranking.py:53-67 | one row per candidate with one entry per schema name; a stored value is used, a missing numeric becomes -9999999.0 and a missing categorical becomes "EMPTY"; a non-number in a numeric column (see "## Left out") or a missing feature map fails |
| Reranking.CatboostRank | grocery/src/grocery/recommender/reranking.py:69-74 | build the rows, score them, write the scores, select the top `n` |
| Reranking.CatboostScoresEveryCandidate | grocery/src/grocery/recommender/reranking.py:69-74 | with one score per candidate, the result has `min(n, len)` candidates, each carrying its own model score, in non-increasing score order |
| Reranking.Perturbed | grocery/src/grocery/recommender/reranking.py:89-92 | value `i` is relevance `i` plus noise `i` times the temperature |
| Reranking.SoftmaxRank | grocery/src/grocery/recommender/reranking.py:94-99 | KeyError for a candidate without relevance; otherwise the perturbed values are written and the top `n` by them selected |
| Reranking.SoftmaxZeroTemperature | grocery/src/grocery/recommender/reranking.py:89-99 | at temperature 0 the sampler returns the `select_top_n` by relevance, with the relevance copied into the sampled feature |
| Reranking.NewRankingPipeline | grocery/src/grocery/recommender/reranking.py:103-110 | AssertionError exactly when the two lists differ in length |
| Reranking.PipelineRank | grocery/src/grocery/recommender/reranking.py:113-116 | stage `i` is invoked in order on the previous output with `max(nc_i, n)`; no stages return the input unchanged; no final cut to `n` |
| Reranking.FunnelStops | grocery/src/grocery/recommender/reranking.py:114-115 | a failing stage's error is the pipeline's error |
| Reranking.FunnelKeepsN | grocery/src/grocery/recommender/reranking.py:113-116 | when every stage returns `min(count, len)` candidates, the result keeps between `min(n, len)` and `len` candidates, and at most `max(nc_i, n)` for every stage |
| Features.WithFeatureSpec | grocery/src/grocery/recommender/features.py:24-25 | `fmap[o][name] = values[o]` for each `o`; every other (object, name) entry is unchanged; a new object gets just that name |
| Features.FeatureStorage.constructor | grocery/src/grocery/recommender/features.py:14-17 | empty map, names and defaults |
| Features.FeatureStorage.Get | grocery/src/grocery/recommender/features.py:19-20 | a stored key gives its map; an unknown key gives `{}`, and reading changes nothing |
| Features.FeatureStorage.AddFeature | grocery/src/grocery/recommender/features.py:22-26 | appends the name (a re-added name appears twice), records the default, writes the values, and keeps the defaults in step with the names |
| Features.FeatureStorage.GetFeatureDefault | grocery/src/grocery/recommender/features.py:28-29 | the recorded default, or KeyError |
| Features.DefaultFoundIffAdded | grocery/src/grocery/recommender/features.py:22-29 | a default is found exactly for a name that was added |
| Features.StaticValues | grocery/src/grocery/recommender/features.py:61-67 | KeyError exactly when a requested name has no default, even when a value is stored; otherwise exactly the requested names, each the stored value or its default |
| Features.CallStatic | grocery/src/grocery/recommender/features.py:61-67 | the loop computes `StaticValues` |
| Features.DotFailure | grocery/src/grocery/recommender/features.py:84 | one key scores only when both sides hold embeddings of equal length under it; a missing key is KeyError, unequal lengths or a number against an array is ValueError, any other pair is TypeError |
| Features.EmbeddingScores | grocery/src/grocery/recommender/features.py:80-84 | fails exactly when some key is missing or mismatched on either side; otherwise exactly the embedding keys, each the dot product of the two embeddings |
| Features.OutputAsWritten | grocery/src/grocery/recommender/features.py:99 | as written: an embedding-score extractor has no `key`, so it raises AttributeError; a static extractor runs normally |
| Features.EmbeddingKeyMissing | grocery/src/grocery/recommender/features.py:99 | with all embeddings present, the code as written fails while the corrected call returns every embedding key |
| Features.MergeSnoc | grocery/src/grocery/recommender/features.py:100 | one `|=` step is a right-biased union |
| Features.MergeKeys | grocery/src/grocery/recommender/features.py:98-100 | after merging, a name is present exactly when it was there before or some extractor wrote it |
| Features.MergeLastWriter | grocery/src/grocery/recommender/features.py:98-100 | a name takes the value of the last extractor that wrote it |
| Features.MergeKeepsPrior | grocery/src/grocery/recommender/features.py:98-100 | a name no extractor wrote keeps its prior value |
| Features.EnrichOne | grocery/src/grocery/recommender/features.py:95-100 | corrected call (Findings row 2): one candidate: same id, features `{}` for `None` merged with every extractor output in order; fails exactly when some extractor fails |
| Features.EnrichShape | grocery/src/grocery/recommender/features.py:94-101 | corrected call (Findings row 2): the output is the input candidates in order with ids unchanged, each with its merged features |
| Features.OutputNamesPresent | grocery/src/grocery/recommender/features.py:94-101 | corrected call (Findings row 2): every name any extractor writes is present in every enriched candidate |
| Features.FeatureManager.constructor | grocery/src/grocery/recommender/features.py:88-89 | stores the extractor list |
| Features.FeatureManager.AddExtractor | grocery/src/grocery/recommender/features.py:91-92 | appends the extractor |
| Features.FeatureManager.Extract | grocery/src/grocery/recommender/features.py:94-101 | corrected call (Findings row 2): the nested loops compute `Enrich`; the first failing candidate's error ends the run |
| Features.EnrichCandidate | grocery/src/grocery/recommender/features.py:95-100 | corrected call (Findings row 2): the inner loop over extractors computes `EnrichOne` |
| Features.CallExtractor | grocery/src/grocery/recommender/features.py:99-100 | corrected call (Findings row 2): one extractor call, with the (object, candidate) pair as the embedding extractor's key |
| Features.EnrichFailure | grocery/src/grocery/recommender/features.py:95-101 | corrected call (Findings row 2): once a candidate fails, the whole extraction fails with its error |
| Dataset.Users | grocery/src/grocery/utils/dataset.py:48 | the unique user ids: no duplicates, exactly the ids of the user column |
| Dataset.Items | grocery/src/grocery/utils/dataset.py:49 | the unique item ids: no duplicates, exactly the ids of the item column |
| Dataset.Enumerate | grocery/src/grocery/utils/dataset.py:50-51 | `id2idx` is defined exactly on the ids, and sends each to a position holding it |
| Dataset.InvertInOrder | grocery/src/grocery/utils/dataset.py:52-53 | every entry of `{v: k for k, v in ...}` comes from some pair of the inverted map |
| Dataset.IdsBijection | grocery/src/grocery/utils/dataset.py:50-53 | for distinct ids, `id2idx` is a bijection onto `0..n-1` and `idx2id` its inverse in both directions |
| Dataset.BuildMappingsSpec | grocery/src/grocery/utils/dataset.py:47-54 | both user and item mappings are bijections with their inverses, and index `u` names the `u`-th unique id |
| Dataset.UnratedCellIsZero | grocery/src/grocery/utils/dataset.py:34-43 | a pair with no rating row leaves its cell 0 in both modes |
| Dataset.LastRowWins | grocery/src/grocery/utils/dataset.py:42-43 | overwrite mode: the cell holds the rating of the last row for the pair |
| Dataset.RatingSumAppend | grocery/src/grocery/utils/dataset.py:40-41 | additive mode: a cell is the sum over the pair's rows, additive over concatenation |
| Dataset.RatedOnceModesAgree | grocery/src/grocery/utils/dataset.py:37-43 | a pair rated once has the same cell in both modes |
| Dataset.CellSnoc | grocery/src/grocery/utils/dataset.py:37-43 | one more row adds to or overwrites its own pair's cell and no other |
| Dataset.RowHitsOneCell | grocery/src/grocery/utils/dataset.py:38-39 | a row's ids address exactly one cell |
| Dataset.RowIndexed | grocery/src/grocery/utils/dataset.py:38-39 | every row's user and item ids have an index, so the lookups never raise |
| Dataset.BuildMatrixWithMappings | grocery/src/grocery/utils/dataset.py:31-44 | the matrix is `num_users × num_items`, cell `(u, i)` is the cell value of the `u`-th user and `i`-th item in the chosen mode, and the mappings are `build_mappings` |
| Dataset.FillRow | grocery/src/grocery/utils/dataset.py:37-43 | one loop iteration extends the filled prefix by a row |
| Dataset.AddRating | grocery/src/grocery/utils/dataset.py:40-43 | the `+=` or `=` on the row's cell keeps every cell equal to its value over the rows so far |

## Left out

- Features.StaticFeatureExtractor: the constructor's acceptance of a single feature name as a string, wrapped into a one-element list, is not modelled; the datatype always takes the list.
- Reranking.SelectTopN: ranking keys are modelled as numbers only, and any other key (a string, an array, a candidate without a feature map) is an error. `heapq` compares whatever keys it gets. Strings order lexicographically and succeed. A lone candidate is never compared, so any key kind succeeds there. A number against a string raises TypeError, and two arrays raise ValueError. The model does not capture string ordering or those distinctions, and the same holds for the CatBoost and softmax rankers that select through it.
- Reranking.BuildCbmFeatures: a numeric column accepts only numbers. The float32 conversion also parses a numeric string such as "1.5", which the model treats as a ValueError. float32 rounding is not modelled either.
- Candidates.DotProductKNN.constructor: self mode is modelled as value equality of the two tables. In Python, `left_embeddings == right_embeddings` compares numpy arrays under each shared key. Unless both dicts hold the very same array objects, comparing two arrays of more than one element raises ValueError at construction. Object identity is outside this value model, so that failure is not captured.
- Features.FeatureManager.Extract: it and the members it rests on (`EnrichOne`, `Enrich`, `EnrichShape`, `OutputNamesPresent`, `EnrichCandidate`, `CallExtractor`, `EnrichFailure`) use the corrected extractor call of Findings row 2. As written, the first embedding-score extractor reached raises AttributeError. `Features.OutputAsWritten` models that behaviour.
- Quality.Precision: the product form "precision times the kept count equals the number of distinct relevant ids" is carried by the contract of `Quality.Ratio`, which the body uses, and is not restated as a separate lemma.
- `FeatureRanker.rank` (recommender/reranking.py:33-35) calls a `sort` method that no class defines, so it always raises; it is not modelled.
- `AUC` calls CatBoost's `eval_metric`, a foreign library, and is not modelled.
- The CatBoost model (`load_model`, `predict`) is a function parameter from feature rows to scores, so its output is arbitrary.
- The numpy dot products are an abstract score function (`DotProductKNN.score`, the embedding extractor's `dot`). float32 rounding in `build_cbm_features` is not modelled; all numbers are exact reals.
- `math.log` in `_dcg` is an abstract discount that is positive and non-increasing, so DCG and NDCG are exact only up to that discount.
- The Gumbel random generator is an input: `SoftmaxRank` takes the noise draws of one call as a sequence.
- Tie order among equal scores: `np.argsort` fixes no order among ties. The model uses one fixed order, a stable sort with earlier rows first. So statements about which of several tied items is returned are not captured.
- The candidate values are not shared: candidates are values, and each ranker or the feature manager returns the updated list. Mutation of shared `Candidate` objects through aliases is not captured.
- The `extract` generator is modelled consumed to the end. Its laziness, and the partial results a consumer could see before an error, are not captured.
- The recommendation callable of `evaluate` is given in both of its calling conventions, one per user and one per batch. The model does not tie them together except where a lemma requires it.
- `user_id` is an `int`; the optional `None` user of `compute` is not modelled.
- The polars grouping and `unique` order is unspecified. The model uses first-appearance order for `load_test_actions` and `build_mappings`.
- The dataframe plumbing of the metric constructors is not modelled: novelty popularity counts, serendipity histories and item categories are given as maps. `NoveltyTable` shows how the novelty table follows from the counts.
- `load_test_actions` keeps only the grouping. `timestamp` and the column selection are not modelled.
- `download_and_extract`, the joblib `save` and `load`, tqdm progress bars, printing and the viewer are I/O and are not modelled.
- The ALS model and the abstract `Recommender`/`CandidateGenerator` interfaces hold no logic to model.
- `scipy`'s sparse matrix is a dense `array2<real>` whose unset cells are 0.
- Dataset.BuildMappingsSpec: the inverse maps are stated as a bijection on `0..n-1`; the size of the Python dict is not stated separately.

## Findings

| source | as written | input that shows it | evidently intended | confidence | as-written member | corrected member |
|---|---|---|---|---|---|---|
| grocery/src/grocery/recommender/candidates.py:51-55 | in self mode the filter runs over the list of per-query lists and reads `.id` of a list | equal left and right embedding maps, any non-empty list of known ids | drop each query's own id from its own row, as `extract_candidates` does | high, not executed | Candidates.DotProductKNN.BatchExtractAsWritten | Candidates.DotProductKNN.BatchExtract |
| grocery/src/grocery/recommender/features.py:99 | `extractor.key(...)` is called on every extractor, but `EmbeddingScoreExtractor` defines no `key` | a manager holding an `EmbeddingScoreExtractor` and any candidate | pass the `(object_id, candidate.id)` pair, which the extractor unpacks | high, not executed | Features.OutputAsWritten | Features.EmbeddingScores |
