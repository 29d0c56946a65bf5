# Model scorer: URL classification, metrics and net score

The repository scores machine-learning artifacts. A batch of URLs is classified as
model, dataset, code or unknown. The known ones get resource handlers, and eight
metrics score the handlers. Licence, size, ramp-up time, bus factor and
performance claims are five of them; dataset-and-code availability, dataset
quality and code quality are the other three.
Each MODEL URL of the batch then gets one record holding its name, every
metric's score and latency, and a weighted net score. A URL file is read line by
line, and each line's comma-separated URLs form one batch.

This Dafny project models that core and proves the promises it makes.

- `UrlClassification` (`url_classification.dfy`): `classify_url` as a decision
  on the host and the path of a URL. It comes with a small `scheme://host/path`
  splitter standing in for `urlparse`. It also holds the grouping of a batch into
  four ordered buckets.
- `Resources` (`resources.dfy`): a handler as the values its getters produce.
  `None` stands for a getter that raised.
- `Metrics` (`metrics.dfy`): the eight metric rules and the metric registry.
  The rules that loop or accumulate are methods proved against specification
  functions.
- `MetricProperties` (`metric_properties.dfy`): bounds, defaults and test
  examples of each metric.
- `ModelEvaluation` (`model_evaluator.dfy`): the `ModelEvaluator` class and its
  imperative operations. Each operation is proved equal to a specification
  function. They cover building handlers, restricting resources, running the
  metrics, the net score, single-model evaluation, batches and URL files.
- `EvaluatorProperties` (`evaluator_properties.dfy`): what the orchestration
  promises. The handler map drops failures. Every metric is recorded. The
  weights sum to 1 and the net score lies in the unit interval. A batch yields
  one record per model, in order, and a line yields the URLs it names.
- `Text` (`text.dfy`) and `Wrappers` (`wrappers.dfy`): Python string helpers
  (`strip`, `split`, `lower`, `in`) and `Option`.

Handler construction is a parameter `construct: (UrlType, string) -> Option<Resource>`.
`None` means the constructor raised. The elapsed time of a metric is a parameter
`clock: MetricKind -> nat`.

## Model

| member | source | states |
|---|---|---|
| UrlClassification.Classify | url_classification.py:7-17 | The decision of `classify_url` on a netloc and a path: a case-sensitive domain test on the netloc, the registry domain first, then a prefix test on the lower-cased path. `ClassifyTable` gives each outcome exactly. |
| UrlClassification.SplitUrl | url_classification.py:6-7 | `urlparse(url)` reduced to `(netloc, path)`. The scheme goes first, the netloc runs after `//` up to `/`, `?` or `#`, and the path up to `?` or `#`. `SplitWellFormedUrl` gives the result on well-formed URLs. |
| UrlClassification.ClassifyUrl | url_classification.py:5-17 | `classify_url`: `Classify` applied to the netloc and path of the split URL. |
| UrlClassification.Bucket | model_evaluator.py:39-45 | The URLs of one type, in batch order. `BucketMembers` and `BucketAppend` state exactly that. |
| UrlClassification.GroupByType | model_evaluator.py:39-45 | `group_urls_by_type`: a bucket for each of the four types, by `ClassifyUrl`. `GroupByTypePartitions` states it. |
| UrlClassification.ClassifyTable | url_classification.py:7-17 | DATASET exactly for a host containing `huggingface.co` whose lower-cased path starts with `/datasets/`. MODEL exactly for such a host with any other path. CODE exactly for a host containing `github.com` but not `huggingface.co`. UNKNOWN exactly for the rest. |
| UrlClassification.RegistryWinsOverCodeHost | url_classification.py:9-15 | A host containing both domains is never CODE: the registry test comes first. |
| UrlClassification.DatasetsWithoutSlashIsModel | url_classification.py:9-13 | `/datasets` without its trailing slash is a MODEL path. `/DATASETS/org/name` is a DATASET path. |
| UrlClassification.PathIsCaseInsensitive | url_classification.py:7 | Lower-casing the path first never changes the classification. |
| UrlClassification.HostIsCaseSensitive | url_classification.py:7-9 | The host is used as written: `HuggingFace.co` is UNKNOWN. |
| UrlClassification.SplitWellFormedUrl | url_classification.py:6-7 | For `scheme://host/path` without query or fragment, the split yields exactly the host and the path. |
| UrlClassification.TestSuiteClassifications | test_model_evaluator.py:23-45 | The four test URLs classify as MODEL, DATASET, CODE and UNKNOWN. |
| UrlClassification.BucketMembers | model_evaluator.py:39-45 | A bucket holds exactly the URLs of its type. |
| UrlClassification.BucketAppend | model_evaluator.py:39-45 | Bucketing distributes over concatenation, so each bucket keeps the batch order. |
| UrlClassification.BucketsPartition | model_evaluator.py:39-45 | The four buckets together are a permutation of the batch, as multisets. |
| UrlClassification.GroupByTypePartitions | model_evaluator.py:39-45 | The grouping has all four keys. Each bucket holds exactly the URLs of its type. Together the buckets hold every URL as often as the batch does, so their sizes sum to the batch size. |
| UrlClassification.GroupByTypeAppend | model_evaluator.py:39-45 | Grouping a longer batch appends the new URLs to each bucket. |
| UrlClassification.TestSuiteGrouping | test_model_evaluator.py:47-59 | The three test URLs give one MODEL, one DATASET and one CODE URL, and no UNKNOWN one. |
| Text.Lower | url_classification.py:7 | `str.lower()` restricted to ASCII letters. Every other character is kept as it is. |
| Text.Strip | model_evaluator.py:239-242 | `str.strip()`: `lstrip` then `rstrip` over the `str.isspace` characters. `StripTrimsBothEnds` states its result. |
| Text.Split | model_evaluator.py:242 | `str.split(sep)` for one separator character: all pieces between separators, at least one. `JoinSplit` and `SplitPiecesLackSeparator` state it. |
| Text.TrimStart | model_evaluator.py:239 | The result is a suffix of the input. Everything dropped is white space, and the result starts with a non-space. |
| Text.TrimEnd | model_evaluator.py:239 | The result is a prefix of the input. Everything dropped is white space, and the result ends with a non-space. |
| Text.StripTrimsBothEnds | model_evaluator.py:239 | A stripped string has no white space at either end, and stripping is idempotent. |
| Text.JoinSplit | model_evaluator.py:242 | Joining the pieces of `split(',')` with `,` gives the line back. |
| Text.SplitPiecesLackSeparator | model_evaluator.py:242 | No piece of a split contains the separator. |
| Text.SplitLastPiece | model_evaluator.py:104 | The last piece of a split is the separator-free suffix after the final separator. |
| Text.SplitWithoutSeparator | model_evaluator.py:242 | A string without the separator splits into itself alone. |
| Text.TrimEndDropsTail | model_evaluator.py:239 | After a string ending in a non-space, trailing white space is exactly what `rstrip` removes. |
| Text.LowerIdempotent | url_classification.py:7 | Lower-casing twice is lower-casing once. |
| Text.Find | url_classification.py:6 | The first index holding a stop character, or the length when there is none. |
| Metrics.RequiredTypes | metrics.py:36-283 | `required_url_types()` of each metric class. `RegistryShape` lists the values that matter. |
| Metrics.LicenseScore | metrics.py:40-66 | The minimum licence over the handlers of the required types, 0.5 with none. `LicenseIsMinimum` states its meaning. |
| Metrics.HardwareCompatibility | metrics.py:90-103 | The four-device threshold table for a size in MB, and the fixed fallback table when the size getter raises. `HardwareMonotone`, `HardwareExtremes` and `FailingSizeFallback` state its properties. |
| Metrics.SizeScoreOf | metrics.py:76-88 | The first model's table, or the scalar 0.0 without a model. `SizeScoreCases` states it. |
| Metrics.RampUpScore | metrics.py:113-137 | The mean documentation score over the handlers, 0.0 with none. `RampUpBetween` states it. |
| Metrics.Band | metrics.py:161-169 | The contributor bands 1.0, 0.8, 0.5 and 0.2. `BandRanges` gives each band's range. |
| Metrics.BusFactorScore | metrics.py:147-181 | The band of the mean contributor count, 0 with no handlers. `BusFactorValues` states it. |
| Metrics.Evidence | metrics.py:210-217 | 0.5 for benchmarks, 0.3 for evaluation code and 0.2 for dataset information. |
| Metrics.PerformanceClaimsScore | metrics.py:191-224 | The capped evidence sum from the first handler of each type, or `None` when a flag getter raises. `PerformanceClaimsCases` states it. |
| Metrics.DatasetAndCode | metrics.py:233-248 | 0.6 for a dataset plus 0.4 for code. `DatasetAndCodeCases` states it. |
| Metrics.DatasetQualityScore | metrics.py:257-276 | The first dataset's quality, 0.0 with none. `DatasetQualityCases` states it. |
| Metrics.CodeQualityScore | metrics.py:285-304 | The first repository's quality, 0.0 with none. `CodeQualityCases` states it. |
| Metrics.Calculate | model_evaluator.py:179-180 | `metric.calculate(resources)` for each metric, `None` when it raises. `OnlyPerformanceClaimsRaises` and `CalculateInUnit` state it. |
| Metrics.MinOf | metrics.py:53 | Python's `min` of a non-empty list is an element of the list, and no element is below it. |
| Metrics.CollectScores | metrics.py:44-50 | The nested loop over required types and their handlers yields the specification list `Gather`: per-handler values in type order, then handler order. |
| Metrics.CalculateLicense | metrics.py:40-58 | Equals `LicenseScore`, whose meaning `LicenseIsMinimum` proves. |
| Metrics.CalculateRampUp | metrics.py:113-130 | Equals `RampUpScore`, the mean of the collected documentation scores (0.0 when none). |
| Metrics.CalculateBusFactor | metrics.py:147-174 | Equals `BusFactorScore`, the band of the mean contributor count. |
| Metrics.CalculatePerformanceClaims | metrics.py:191-224 | Equals `PerformanceClaimsScore`. `None` when a flag getter of a first handler raises. |
| Metrics.CalculateDatasetAndCode | metrics.py:233-248 | The `score +=` accumulation equals `DatasetAndCode`. |
| Metrics.CalculateMetric | model_evaluator.py:179-180 | Dispatching `metric.calculate` on the metric equals `Calculate`. |
| MetricProperties.GatherMembers | metrics.py:46-50 | A value is collected exactly when some handler of a required type yields it. |
| MetricProperties.GatherEmpty | metrics.py:46-53 | Nothing is collected exactly when every required type is absent or has an empty list. |
| MetricProperties.GatherAgree | metrics.py:46-47 | Maps that agree on the required types collect the same list. |
| MetricProperties.MeanBounds | metrics.py:125 | The mean of values between `lo` and `hi` lies between them. |
| MetricProperties.MeanInUnit | metrics.py:125 | The mean of unit values, or the 0.0 of an empty list, is in the unit interval. |
| MetricProperties.GatherInUnit | metrics.py:118-122 | When each handler yields a unit value, everything collected is in the unit interval. |
| MetricProperties.LicenseIsMinimum | metrics.py:44-53 | No handler's licence is below the licence score, and one handler attains it. With no handler the score is 0.5. |
| MetricProperties.FailingLicenseCapsScore | metrics.py:60-66 | A handler whose licence getter raises caps the score at 0.5. |
| MetricProperties.LicenseInUnit | metrics.py:40-66 | With unit getter values the licence score is in the unit interval. |
| MetricProperties.LicenseTestExample | test_model_evaluator.py:144-156 | Licences 0.8, 0.9 and 0.7 give 0.7. |
| MetricProperties.HardwareKeys | metrics.py:95-100 | The size table has exactly the keys raspberry_pi, jetson_nano, desktop_pc and aws_server, in that order. |
| MetricProperties.HardwareInUnit | metrics.py:95-103 | Every table value is in the unit interval. |
| MetricProperties.HardwareMonotone | metrics.py:96-99 | A bigger model never scores better on any hardware. |
| MetricProperties.HardwareExtremes | metrics.py:96-99 | Under 100 MB every value is 1.0. At 20000 MB or more the table is {0.0, 0.3, 0.5, 0.9}. |
| MetricProperties.FailingSizeFallback | metrics.py:101-103 | A raising size getter gives {0.0, 0.0, 0.5, 0.5}, which beats no real size's table on any hardware. |
| MetricProperties.SizeScoreCases | metrics.py:79-88 | The size score is the scalar 0.0 exactly when there is no model, and otherwise a four-entry table. |
| MetricProperties.SizeUsesFirstModelOnly | metrics.py:82-83 | Maps whose first model agrees give the same size score. |
| MetricProperties.SizeTestExample | test_model_evaluator.py:158-168 | A 500 MB model scores 0.0 on a Raspberry Pi and 1.0 elsewhere; the table contains raspberry_pi and desktop_pc. |
| MetricProperties.RampUpInUnit | metrics.py:113-137 | With unit documentation scores the ramp-up score is in the unit interval. |
| MetricProperties.RampUpBetween | metrics.py:125 | The ramp-up score lies between any bounds on the collected documentation scores. |
| MetricProperties.RampUpDefault | metrics.py:125 | With no handler the ramp-up score is 0.0. |
| MetricProperties.RampUpOfOne | metrics.py:132-137 | A single handler gives its documentation score, or 0.0 when the getter raises. |
| MetricProperties.BandRanges | metrics.py:162-169 | Each band value holds exactly on its range: at least 10, at least 5, at least 2, below 2. |
| MetricProperties.BandMonotone | metrics.py:162-169 | A larger mean never falls into a lower band. |
| MetricProperties.BusFactorValues | metrics.py:159-169 | The bus factor is always one of 0.2, 0.5, 0.8 and 1.0. |
| MetricProperties.BusFactorDefault | metrics.py:159-169 | With no handler the mean is 0 and the bus factor is 0.2. |
| MetricProperties.BusFactorOfFailingHandler | metrics.py:176-181 | A raising contributor getter counts as one contributor, so alone it gives 0.2. |
| MetricProperties.EvidenceUncapped | metrics.py:211-219 | The evidence points lie in the unit interval, so the cap at 1.0 never changes them. |
| MetricProperties.PerformanceClaimsCases | metrics.py:194-219 | The metric raises exactly when a present first handler's flag getter raises. Otherwise the score is 0.5, 0.3 and 0.2 summed over the true flags of the first handlers; a missing type counts as false. |
| MetricProperties.PerformanceClaimsDefault | metrics.py:194-219 | With no handler the score is 0.0. |
| MetricProperties.DatasetAndCodeCases | metrics.py:236-243 | The score is one of 0, 0.4, 0.6 and 1.0. It is at least 0.6 exactly when a dataset is present, and 0.4 or 1.0 exactly when code is present. |
| MetricProperties.DatasetQualityCases | metrics.py:257-276 | The score is the first dataset's quality. It is 0.0 without a dataset or when the getter raises. |
| MetricProperties.CodeQualityCases | metrics.py:285-304 | The score is the first repository's quality. It is 0.0 without one or when the getter raises. |
| MetricProperties.QualityTestExamples | test_model_evaluator.py:170-199 | Qualities 0.85 and 0.75 come back exactly, and an empty map gives 0.0. |
| MetricProperties.RegistryShape | metrics.py:308-317 | The registry holds all eight metrics under eight distinct names. Licence needs [MODEL, DATASET, CODE] and size needs [MODEL]; no metric needs UNKNOWN. |
| MetricProperties.NameInjective | metrics.py:308-317 | Different metrics have different registry names. |
| MetricProperties.CalculateReadsOnlyRequiredTypes | model_evaluator.py:153-158 | A metric's result depends only on the lists of its required types. |
| MetricProperties.AbsentIsEmpty | metrics.py:236-237 | An absent key and an empty list give every metric the same result. |
| MetricProperties.OnlyPerformanceClaimsRaises | metrics.py:191-224 | Performance claims is the only metric without its own error handling, so it is the only one that can raise. |
| MetricProperties.CalculateInUnit | metrics.py:40-304 | With unit getter values, every score any metric produces is in the unit interval. |
| ModelEvaluation.HandlerMap | model_evaluator.py:55-95 | The handler map of `_create_resource_handlers`. `HandlerMapShape` and `HandlerMapFromConstruct` state it. |
| ModelEvaluation.Restrict | model_evaluator.py:155-158 | A metric's `available_resources`: its required types, with `[]` for a missing one. `RestrictShape` states it. |
| ModelEvaluation.Results | model_evaluator.py:151-175 | The results dictionary of a list of metrics. `ResultsAt` and `EveryMetricRecorded` state it. |
| ModelEvaluation.MetricsRun | model_evaluator.py:144-175 | `_calculate_metrics_parallel` with `max_workers` threads: `None` when there are fewer than one, since starting the pool raises. Otherwise the results of the whole registry. |
| ModelEvaluation.NetScore | model_evaluator.py:185-222 | The weighted mean over the metrics present, and their latency sum. `NetScoreInUnit`, `WeightsShape` and `NetScoreTestExample` state it. |
| ModelEvaluation.ModelName | model_evaluator.py:102-106 | The model name from the id. `ModelNameIsLastSegment` states it. |
| ModelEvaluation.EvaluateSingle | model_evaluator.py:97-142 | A model's record, or `None` when its handler or the metric pool raises. `EvaluateAllRecords` states it. |
| ModelEvaluation.EvaluateBatch | model_evaluator.py:28-53 | `evaluate_urls`. `BatchRecords` and `NoWorkersNoRecords` state it. |
| ModelEvaluation.NonEmptyStripped | model_evaluator.py:242 | The list comprehension over the comma-separated pieces. `NonEmptyStrippedExact` and `NonEmptyStrippedAppend` state it. |
| ModelEvaluation.ParseLine | model_evaluator.py:239-242 | The URLs of one line. `ParseLineExact` states it. |
| ModelEvaluation.LineResults | model_evaluator.py:239-247 | The records one line adds. `LineResultsCases` states it. |
| ModelEvaluation.FileResults | model_evaluator.py:236-248 | The records of all lines. `FileResultsAppend` states it. |
| ModelEvaluation.FromFile | model_evaluator.py:224-257 | `evaluate_from_file` on the file's lines, or [] when the file cannot be read. |
| ModelEvaluation.ModelEvaluator.constructor | model_evaluator.py:20-26 | The new evaluator's `max_workers` is the argument, any integer, 4 by default. Its `metrics` field is the registry. |
| ModelEvaluation.ModelEvaluator.BuildHandlers | model_evaluator.py:61-67 | The construction loop equals `Built`: the successful constructions, in URL order. |
| ModelEvaluation.ModelEvaluator.CreateResourceHandlers | model_evaluator.py:55-95 | The three blocks equal `HandlerMap`, whose shape `HandlerMapShape` proves. |
| ModelEvaluation.HandlerMapByBlocks | model_evaluator.py:59-95 | Running the MODEL, DATASET and CODE blocks in turn builds `HandlerMap`. |
| ModelEvaluation.ModelEvaluator.RestrictResources | model_evaluator.py:155-158 | The per-metric loop equals `Restrict`: its keys are the required types, and missing types are filled with `[]`. |
| ModelEvaluation.ModelEvaluator.SafeCalculateMetric | model_evaluator.py:177-183 | A raising metric becomes (0.0, 0); otherwise the result is the score with its latency. |
| ModelEvaluation.ModelEvaluator.CalculateMetrics | model_evaluator.py:144-175 | Equals `MetricsRun` on the evaluator's `max_workers`. With fewer than one worker the pool raises and there are no results. Otherwise the loop over the registry yields `Results`, which `EveryMetricRecorded` characterises. |
| ModelEvaluation.ModelEvaluator.CalculateNetScore | model_evaluator.py:185-222 | The accumulation loop equals `NetScore`, whose bounds `NetScoreInUnit` proves. |
| ModelEvaluation.ModelEvaluator.EvaluateSingleModel | model_evaluator.py:97-142 | Equals `EvaluateSingle` on the evaluator's `max_workers`. `None` when the model handler cannot be built or the pool cannot start. Otherwise the record of its name and the metric results. |
| ModelEvaluation.ModelEvaluator.EvaluateUrls | model_evaluator.py:28-53 | The loop over MODEL URLs equals `EvaluateBatch`, and `BatchRecords` states what it holds. |
| ModelEvaluation.ModelEvaluator.EvaluateFromFile | model_evaluator.py:224-257 | The loop over lines equals `FromFile`: an unreadable file gives [], and otherwise the lines' records follow one another. |
| ModelEvaluation.Values | model_evaluator.py:212 | The values of a size table, in its order. |
| EvaluatorProperties.BuiltAppend | model_evaluator.py:62-65 | Building handlers distributes over concatenation, so URL order is kept. |
| EvaluatorProperties.BuiltOne | model_evaluator.py:63-67 | One URL gives its handler, or none when construction raises. |
| EvaluatorProperties.FailedConstructionSkipped | model_evaluator.py:63-67 | A raising construction is skipped, and the URLs before and after it are still built. |
| EvaluatorProperties.BuiltMembers | model_evaluator.py:61-67 | The handlers built are exactly the successful constructions, at most one per URL. |
| EvaluatorProperties.HandlerMapShape | model_evaluator.py:57-95 | A type has a key exactly when it is known and got at least one handler, so UNKNOWN never appears; each list is that type's built handlers. |
| EvaluatorProperties.HandlerMapFromConstruct | model_evaluator.py:59-95 | Every handler in the map was constructed from a URL of its own type. |
| EvaluatorProperties.HandlerMapTestExample | test_model_evaluator.py:214-229 | One URL per known type gives keys MODEL, DATASET and CODE, with one MODEL handler. |
| EvaluatorProperties.RestrictShape | model_evaluator.py:155-158 | The restricted map's keys are exactly the required types, and each holds the full map's list or []. |
| EvaluatorProperties.MeasureIgnoresRestriction | model_evaluator.py:155-162 | Restricting the resources never changes what a metric computes. |
| EvaluatorProperties.ResultsAt | model_evaluator.py:151-170 | Running a list of metrics records each of them, with its own measurement, and nothing else. |
| EvaluatorProperties.EveryMetricRecorded | model_evaluator.py:166-183 | Every registered metric is recorded. A raising metric records exactly score 0.0 and latency 0. |
| EvaluatorProperties.WeightsShape | model_evaluator.py:188-197 | The weights are non-negative and name each of the eight metrics once. With all metrics present they sum to 1.0. |
| EvaluatorProperties.WeightedSumBounds | model_evaluator.py:203-217 | With unit numbers the weighted sum lies between 0 and the total weight. |
| EvaluatorProperties.NetScoreInUnit | model_evaluator.py:199-220 | With unit numbers the net score is in the unit interval. |
| EvaluatorProperties.NetScoreOfNothing | model_evaluator.py:220-222 | With no weighted metric present, the net score is 0.0 with latency 0. |
| EvaluatorProperties.NetScoreOfAll | model_evaluator.py:203-220 | With every metric present, the net score is the weighted sum itself. |
| EvaluatorProperties.ReduceInUnit | model_evaluator.py:209-214 | A size table reduces to the mean of its values (0.0 when empty), which is in the unit interval when its values are. |
| EvaluatorProperties.NetScoreTestExample | test_model_evaluator.py:231-250 | The test suite's metric results give net score 0.72 and latency 820. |
| EvaluatorProperties.TestWeightedSum | model_evaluator.py:203-216 | The test suite's scores give the weighted sum 0.72. |
| EvaluatorProperties.TestLatency | model_evaluator.py:218-222 | The test suite's latencies sum to 820. |
| EvaluatorProperties.ModelNameIsLastSegment | model_evaluator.py:102-106 | The name is the `/`-free suffix after the id's last `/`, or the whole id without `/`. An empty id gives "unknown". |
| EvaluatorProperties.ModelNameTestExample | model_evaluator.py:101-106 | `google/gemma-3-270m` is named `gemma-3-270m`. |
| EvaluatorProperties.EvaluateAllAppend | model_evaluator.py:47-53 | Evaluating model URLs distributes over concatenation, so records keep URL order. |
| EvaluatorProperties.FailingModelDropped | model_evaluator.py:140-142 | A model whose handler cannot be built is dropped, and the others are still evaluated. |
| EvaluatorProperties.EvaluateAllRecords | model_evaluator.py:97-138 | With at least one worker, there is one record per buildable model, in order, at most one per URL. Each is category MODEL and holds that model's name with the shared metric results. With no worker there is no record. |
| EvaluatorProperties.BatchRecords | model_evaluator.py:28-53 | A batch gives at most one record per MODEL URL, each of category MODEL. All of them carry the same scores: those of the whole batch's resources. With no worker the batch gives no record. |
| EvaluatorProperties.BatchWithoutModels | model_evaluator.py:45-53 | A batch without MODEL URLs gives no record. |
| EvaluatorProperties.RecordsShareNetScore | model_evaluator.py:109-118 | Every record carries the net score of the shared metric results. |
| EvaluatorProperties.HandlerMapInUnit | model_evaluator.py:59-95 | When constructions yield unit getter values, so does every handler in the map. |
| EvaluatorProperties.ResultsInUnit | model_evaluator.py:144-183 | With unit getter values, every recorded score is in the unit interval, defaults included. |
| EvaluatorProperties.BatchNetScoreInUnit | model_evaluator.py:109-118 | When constructions yield unit getter values, every record of a batch has a net score in the unit interval. |
| EvaluatorProperties.ScoresIgnoreClock | model_evaluator.py:169-170 | Measured latencies never change a recorded score or the net score. |
| EvaluatorProperties.SameScoresSameWeightedSum | model_evaluator.py:203-216 | Results that agree on keys and scores give the same weighted sum, whatever their latencies. |
| EvaluatorProperties.KeepNonEmptyAppend | model_evaluator.py:242 | Cleaning pieces and dropping the empty results distributes over concatenation. |
| EvaluatorProperties.KeepNonEmptyExact | model_evaluator.py:242 | A result is kept exactly when it is the non-empty cleaned text of some piece. |
| EvaluatorProperties.NonEmptyStrippedAppend | model_evaluator.py:242 | Stripping pieces and dropping the empty ones distributes over concatenation, so the pieces keep their order. |
| EvaluatorProperties.NonEmptyStrippedOne | model_evaluator.py:242 | A single piece yields its stripped text, or nothing when that is empty. |
| EvaluatorProperties.NonEmptyStrippedExact | model_evaluator.py:242 | A URL is kept exactly when it is the non-empty stripped text of some piece. |
| EvaluatorProperties.NonEmptyStrippedOrder | model_evaluator.py:242 | Wherever the pieces are cut, the URLs of the first part precede those of the rest. |
| EvaluatorProperties.NonEmptyStrippedClean | model_evaluator.py:242 | The kept pieces are non-empty, comma-free and stripped, at most one per piece. |
| EvaluatorProperties.ParseLineClean | model_evaluator.py:239-242 | A line's URLs are non-empty, comma-free and stripped, at most one per comma-separated piece. |
| EvaluatorProperties.ParseLineExact | model_evaluator.py:239-242 | A line's pieces are comma-free and join back to the stripped line. A URL is listed exactly when it is the non-empty stripped text of some piece. The URLs of earlier pieces come first. |
| EvaluatorProperties.ParseLineOfOneUrl | model_evaluator.py:239-242 | A line holding one URL and then white space, such as its newline, yields exactly that URL. |
| EvaluatorProperties.BlankLineHasNoUrls | model_evaluator.py:239-240 | A line that strips to nothing names no URL. |
| EvaluatorProperties.LineResultsCases | model_evaluator.py:239-247 | A blank line, or one without URLs, adds no record. Any other line adds exactly the batch of its URLs. |
| EvaluatorProperties.FileResultsAppend | model_evaluator.py:236-254 | A file's records are its lines' records, in line order. An unreadable file gives []. |
| EvaluatorProperties.ConcatLinesOfNothing | model_evaluator.py:238-247 | Lines that each add no record give no record. |
| EvaluatorProperties.NoWorkersNoRecords | model_evaluator.py:148 | With fewer than one worker, every batch and every URL file give no record. |

## Left out

- `url_classifier.py`, which defines the `URLClassifier.group_urls_by_type` that `evaluate_urls` calls, is not part of this model. The grouping is modelled as a partition of the batch on `classify_url` from `url_classification.py`. All four buckets are present, and each keeps the batch order.
- UrlClassification.SplitUrl: `urlparse` is modelled as scheme removal, then the netloc up to the first `/`, `?` or `#`, then the path up to `?` or `#`. Its IPv6, `;params` and special-scheme handling are left out, and so is its removal of leading control characters and of embedded tabs and newlines.
- Text.Lower: lower-cases ASCII letters only. Two non-ASCII characters lower to ASCII letters in Python, and neither of those letters occurs in `/datasets/`, so the dataset test is unaffected.
- Scores are `real`, not IEEE floats. Rounding is gone: the net score of the test's metric results is exactly 0.72 here (`NetScoreTestExample`), while the test itself only checks that it lies in the unit interval.
- Latency: `time.time()` becomes the parameter `clock`. A metric's latency depends only on the metric, so it is the same for every record of a batch. Latency never influences a score (`ScoresIgnoreClock`).
- ModelEvaluation.ModelEvaluator.CalculateMetrics: the thread pool and `as_completed` become a sequential loop over the registry. Completion order does not change which keys and values the dictionary holds; it does change their insertion order, which nothing reads. The one pool failure modelled is `max_workers` below 1. Starting the pool then raises `ValueError`, so `_evaluate_single_model` returns `None` for every model (`NoWorkersNoRecords`). Thread-creation failures are not modelled.
- Results are keyed by metric rather than by name string. `Name` maps each metric to its registry name and is injective (`NameInjective`).
- The size dictionary is a sequence of (hardware, value) pairs in insertion order.
- Handler internals (HTTP calls to the model hub and the code host) are out of scope. A handler is the tuple of values its getters return.
- Model ids come from the handler, so the parsing that derives `model_id` from a URL is not modelled.
- Opening and reading the URL file: the file is given as `Option<seq<string>>`, its lines or `None` when it cannot be read. `FileNotFoundError` and other read errors both become `None`, which gives [].
- Logging, `setup_logging` (environment variables, log files), `print_results_ndjson` (JSON, standard output) and both `main` functions are CLI and I/O.
- `main.py`, `evaluate.py`, `lambda_function.py`, `lambda_handler.py`, `handlers/metrics_writer.py`, `db_writer.py` and `codeset.py` are left out. They are web, inference, lambda, database and subprocess glue around the core.
- ModelEvaluation.EvaluateSingle: `ModelHandler(url)` is built twice, once in `_create_resource_handlers` and again in `_evaluate_single_model`. Both calls are the one function `construct(MODEL, url)`, so the model assumes a constructor only depends on the type and the URL. A handler that succeeds on one call and raises on the other, say because of a transient network error, is not modelled. `EvaluateAllRecords` and `BatchRecords` rely on this assumption.
- UrlClassification.SplitUrl: the model is total, but `urlparse` raises `ValueError("Invalid IPv6 URL")` when the netloc has a `[` without a `]` or the other way round, e.g. `https://[::1/x`. `classify_url` then raises too, and the model does not capture this.
- ModelEvaluation.ModelEvaluator.EvaluateFromFile: the model gives a URL that `urlparse` rejects a type. In the source, a grouping built on `classify_url` would raise in `evaluate_urls`, and the `except Exception` of `evaluate_from_file` (model_evaluator.py:255-257) would then return [] for the whole file. The model keeps the other lines' records. `FromFile` gives [] only for an unreadable file or a pool without workers.
