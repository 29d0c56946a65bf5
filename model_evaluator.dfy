/**
 * The orchestration of `model_evaluator.py`. It groups a batch of URLs, builds the
 * handlers, runs every metric on the handlers it asks for, combines the scores
 * into a weighted net score, and emits one record per model URL.
 *
 * Handler construction and the clock are parameters. `construct(t, url)` is
 * `ModelHandler(url)`, `DatasetHandler(url)` or `CodeHandler(url)` for `t`, and
 * yields `None` when that constructor raises. `clock(k)` is the latency in
 * milliseconds that metric `k` measures.
 */
module ModelEvaluation {
  import opened Wrappers
  import opened Text
  import opened UrlClassification
  import opened Resources
  import opened Metrics

  type Construct = (UrlType, string) -> Option<Resource>

  type Clock = MetricKind -> nat

  /** The `{"score": ..., "latency": ...}` entry a metric leaves in the results. */
  datatype Measured = Measured(score: Score, latency: nat)

  /** The results of one round of metrics, keyed by metric. */
  type MetricResults = map<MetricKind, Measured>

  /** The result dict of one model, its metric entries in output order. */
  datatype Record = Record(
    name: string,
    category: string,
    netScore: real,
    netScoreLatency: nat,
    rampUpTime: Measured,
    busFactor: Measured,
    performanceClaims: Measured,
    license: Measured,
    sizeScore: Measured,
    datasetAndCodeScore: Measured,
    datasetQuality: Measured,
    codeQuality: Measured)

  // ---------------------------------------------------------------------------
  // Handlers
  // ---------------------------------------------------------------------------

  /** The types handlers are built for; UNKNOWN URLs get none. */
  const HandledTypes: set<UrlType> := {MODEL, DATASET, CODE}

  /** `grouped_urls.get(t)`, an absent key read as the empty list. */
  function Listed(grouped: map<UrlType, seq<string>>, t: UrlType): seq<string>
  {
    if t in grouped then grouped[t] else []
  }

  /** The handlers built for `urls`, in order, leaving out every construction that raised. */
  function Built(urls: seq<string>, t: UrlType, construct: Construct): seq<Resource>
  {
    if urls == [] then []
    else
      var init := Built(urls[..|urls| - 1], t, construct);
      match construct(t, urls[|urls| - 1])
      case None => init
      case Some(h) => init + [h]
  }

  /** The handlers built for the URLs of type `t`. */
  function Handlers(grouped: map<UrlType, seq<string>>, t: UrlType, construct: Construct): seq<Resource>
  {
    Built(Listed(grouped, t), t, construct)
  }

  /** `_create_resource_handlers`: a key for every handled type that got at least one handler. */
  function HandlerMap(grouped: map<UrlType, seq<string>>, construct: Construct): ResourceMap
  {
    map t | t in HandledTypes && Handlers(grouped, t, construct) != [] :: Handlers(grouped, t, construct)
  }

  /** One block of `_create_resource_handlers`: store the handlers of `t` when there are any. */
  function AddHandlers(resources: ResourceMap, grouped: map<UrlType, seq<string>>, t: UrlType, construct: Construct): ResourceMap
  {
    var handlers := Handlers(grouped, t, construct);
    if handlers != [] then resources[t := handlers] else resources
  }

  /** The three blocks, run in turn, build exactly the handler map. */
  lemma HandlerMapByBlocks(grouped: map<UrlType, seq<string>>, construct: Construct)
    ensures AddHandlers(AddHandlers(AddHandlers(map[], grouped, MODEL, construct), grouped, DATASET, construct),
                        grouped, CODE, construct)
            == HandlerMap(grouped, construct)
  {
    var afterModels := AddHandlers(map[], grouped, MODEL, construct);
    var afterDatasets := AddHandlers(afterModels, grouped, DATASET, construct);
    var blocks := AddHandlers(afterDatasets, grouped, CODE, construct);
    var spec := HandlerMap(grouped, construct);
    forall t
      ensures t in blocks <==> t in spec
      ensures t in spec ==> blocks[t] == spec[t]
    {
      var h := Handlers(grouped, t, construct);
      if t == UNKNOWN {
        assert t !in afterModels && t !in afterDatasets && t !in blocks;
      }
    }
  }

  // ---------------------------------------------------------------------------
  // Metrics
  // ---------------------------------------------------------------------------

  /** The resources a metric receives: exactly its required types, a missing one as `[]`. */
  function Restrict(resources: ResourceMap, types: seq<UrlType>): ResourceMap
  {
    map t | t in types :: Of(resources, t)
  }

  /** `_safe_calculate_metric`: the metric's score and latency, or `(0.0, 0)` when it raises. */
  function Safe(k: MetricKind, available: ResourceMap, clock: Clock): Measured
  {
    match Calculate(k, available)
    case None => Measured(Scalar(0.0), 0)
    case Some(s) => Measured(s, clock(k))
  }

  /** One metric run on its restricted resources. */
  function Measure(k: MetricKind, resources: ResourceMap, clock: Clock): Measured
  {
    Safe(k, Restrict(resources, RequiredTypes(k)), clock)
  }

  /** The results of running `kinds` one after the other. */
  function Results(kinds: seq<MetricKind>, resources: ResourceMap, clock: Clock): MetricResults
  {
    if kinds == [] then map[]
    else Results(kinds[..|kinds| - 1], resources, clock)[kinds[|kinds| - 1] := Measure(kinds[|kinds| - 1], resources, clock)]
  }

  // ---------------------------------------------------------------------------
  // Net score
  // ---------------------------------------------------------------------------

  /** The weight table of `_calculate_net_score`, in its order. */
  const Weights: seq<(MetricKind, real)> :=
    [(License, 0.2), (PerformanceClaims, 0.15), (RampUpTime, 0.15), (BusFactor, 0.1),
     (SizeScore, 0.1), (DatasetAndCodeScore, 0.1), (DatasetQuality, 0.1), (CodeQuality, 0.1)]

  /** The values of a hardware table. */
  function Values(entries: seq<(string, real)>): (vs: seq<real>)
    ensures |vs| == |entries| && forall i | 0 <= i < |entries| :: vs[i] == entries[i].1
  {
    seq(|entries|, i requires 0 <= i < |entries| => entries[i].1)
  }

  /** A score as a number: a hardware table counts as the mean of its values, an empty one as 0.0. */
  function Reduce(s: Score): real
  {
    match s
    case Scalar(v) => v
    case Hardware(entries) => Mean(Values(entries))
  }

  /** `weighted_sum` after the weights `ws`: each present metric's number times its weight. */
  function WeightedSum(ws: seq<(MetricKind, real)>, results: MetricResults): real
  {
    if ws == [] then 0.0
    else
      var (k, w) := ws[|ws| - 1];
      WeightedSum(ws[..|ws| - 1], results) + (if k in results then Reduce(results[k].score) * w else 0.0)
  }

  /** `total_weight` after the weights `ws`: the weights of the metrics present. */
  function TotalWeight(ws: seq<(MetricKind, real)>, results: MetricResults): real
  {
    if ws == [] then 0.0
    else
      var (k, w) := ws[|ws| - 1];
      TotalWeight(ws[..|ws| - 1], results) + (if k in results then w else 0.0)
  }

  /** `total_latency` after the weights `ws`: the latencies of the metrics present. */
  function TotalLatency(ws: seq<(MetricKind, real)>, results: MetricResults): nat
  {
    if ws == [] then 0
    else
      var (k, _) := ws[|ws| - 1];
      TotalLatency(ws[..|ws| - 1], results) + (if k in results then results[k].latency else 0)
  }

  /** `_calculate_net_score`: the weighted mean over the metrics present, 0.0 when none is. */
  function NetScore(results: MetricResults): (real, nat)
  {
    var tw := TotalWeight(Weights, results);
    (if tw > 0.0 then WeightedSum(Weights, results) / tw else 0.0, TotalLatency(Weights, results))
  }

  // ---------------------------------------------------------------------------
  // Records
  // ---------------------------------------------------------------------------

  /** The part of a model id after its last `/`; `"unknown"` for an empty id. */
  function ModelName(modelId: string): string
  {
    var id := if modelId == "" then "unknown" else modelId;
    if '/' in id then
      var pieces := Split(id, '/');
      pieces[|pieces| - 1]
    else id
  }

  /** `metric_results.get(name, {}).get(...)`: a missing metric reads as its default and latency 0. */
  function Entry(results: MetricResults, k: MetricKind): Measured
  {
    if k in results then results[k]
    else Measured(if k == SizeScore then Hardware([]) else Scalar(0.0), 0)
  }

  /** The record of one model with the given name and metric results. */
  function MakeRecord(name: string, results: MetricResults): Record
  {
    var (net, latency) := NetScore(results);
    Record(name, "MODEL", net, latency,
           Entry(results, RampUpTime), Entry(results, BusFactor), Entry(results, PerformanceClaims),
           Entry(results, License), Entry(results, SizeScore), Entry(results, DatasetAndCodeScore),
           Entry(results, DatasetQuality), Entry(results, CodeQuality))
  }

  /**
   * `_calculate_metrics_parallel` with a pool of `workers` threads. `ThreadPoolExecutor`
   * raises `ValueError` for a pool of fewer than one worker, and then there are no results.
   */
  function MetricsRun(workers: int, resources: ResourceMap, clock: Clock): Option<MetricResults>
  {
    if workers <= 0 then None else Some(Results(Registry, resources, clock))
  }

  /**
   * `_evaluate_single_model`: `None` when the model's own handler cannot be built
   * or the metric pool cannot be started.
   */
  function EvaluateSingle(url: string, resources: ResourceMap, workers: int, construct: Construct, clock: Clock): Option<Record>
  {
    match construct(MODEL, url)
    case None => None
    case Some(h) =>
      match MetricsRun(workers, resources, clock)
      case None => None
      case Some(results) => Some(MakeRecord(ModelName(h.id), results))
  }

  /** The records of the model URLs, in order, leaving out the models that failed. */
  function EvaluateAll(modelUrls: seq<string>, resources: ResourceMap, workers: int, construct: Construct, clock: Clock): seq<Record>
  {
    if modelUrls == [] then []
    else
      var init := EvaluateAll(modelUrls[..|modelUrls| - 1], resources, workers, construct, clock);
      match EvaluateSingle(modelUrls[|modelUrls| - 1], resources, workers, construct, clock)
      case None => init
      case Some(rec) => init + [rec]
  }

  /** One more model URL adds its record, unless its evaluation failed. */
  lemma EvaluateAllStep(modelUrls: seq<string>, i: nat, resources: ResourceMap, workers: int, construct: Construct, clock: Clock)
    requires i < |modelUrls|
    ensures var init := EvaluateAll(modelUrls[..i], resources, workers, construct, clock);
            var r := EvaluateSingle(modelUrls[i], resources, workers, construct, clock);
            EvaluateAll(modelUrls[..i + 1], resources, workers, construct, clock) == if r.Some? then init + [r.value] else init
  {
    assert modelUrls[..i + 1][..i] == modelUrls[..i];
  }

  /** `evaluate_urls`: every model URL of the batch, evaluated against the whole batch's handlers. */
  function EvaluateBatch(urls: seq<string>, workers: int, construct: Construct, clock: Clock): seq<Record>
  {
    var grouped := GroupByType(urls);
    EvaluateAll(grouped[MODEL], HandlerMap(grouped, construct), workers, construct, clock)
  }

  // ---------------------------------------------------------------------------
  // URL files
  // ---------------------------------------------------------------------------

  /** Each piece passed through `clean`, in order, the empty results dropped. */
  function KeepNonEmpty(pieces: seq<string>, clean: string -> string): seq<string>
  {
    if pieces == [] then []
    else
      var init := KeepNonEmpty(pieces[..|pieces| - 1], clean);
      var url := clean(pieces[|pieces| - 1]);
      if url != "" then init + [url] else init
  }

  /** The comprehension over the comma-separated pieces: each stripped, the empty ones dropped. */
  function NonEmptyStripped(pieces: seq<string>): seq<string>
  {
    KeepNonEmpty(pieces, Strip)
  }

  /** The URLs of one line of a URL file. */
  function ParseLine(line: string): seq<string>
  {
    NonEmptyStripped(Split(Strip(line), ','))
  }

  /** The records one line contributes: none for a blank line or a line without URLs. */
  function LineResults(line: string, workers: int, construct: Construct, clock: Clock): seq<Record>
  {
    var stripped := Strip(line);
    if stripped == "" then []
    else
      var urls := NonEmptyStripped(Split(stripped, ','));
      if urls == [] then [] else EvaluateBatch(urls, workers, construct, clock)
  }

  /** What `perLine` gives for each line, concatenated line after line. */
  function ConcatLines(lines: seq<string>, perLine: string -> seq<Record>): seq<Record>
  {
    if lines == [] then []
    else ConcatLines(lines[..|lines| - 1], perLine) + perLine(lines[|lines| - 1])
  }

  /** The records of all lines, line after line. */
  function FileResults(lines: seq<string>, workers: int, construct: Construct, clock: Clock): seq<Record>
  {
    ConcatLines(lines, line => LineResults(line, workers, construct, clock))
  }

  /** `evaluate_from_file`: `None` is a file that cannot be opened or read, which gives no records. */
  function FromFile(file: Option<seq<string>>, workers: int, construct: Construct, clock: Clock): seq<Record>
  {
    match file
    case None => []
    case Some(lines) => FileResults(lines, workers, construct, clock)
  }

  // ---------------------------------------------------------------------------
  // The evaluator
  // ---------------------------------------------------------------------------

  class ModelEvaluator {
    /** The size of the thread pool; below one, starting the pool raises. */
    const maxWorkers: int
    /** One instance of every registered metric, in registry order. */
    const metrics: seq<MetricKind> := Registry

    constructor (maxWorkers: int := 4)
      ensures this.maxWorkers == maxWorkers
    {
      this.maxWorkers := maxWorkers;
    }

    /** The loop of one block of `_create_resource_handlers`: a failed construction is skipped. */
    method BuildHandlers(urls: seq<string>, t: UrlType, construct: Construct) returns (handlers: seq<Resource>)
      ensures handlers == Built(urls, t, construct)
    {
      handlers := [];
      for i := 0 to |urls|
        invariant handlers == Built(urls[..i], t, construct)
      {
        assert urls[..i + 1][..i] == urls[..i];
        var built := construct(t, urls[i]);
        if built.Some? {
          handlers := handlers + [built.value];
        }
      }
      assert urls[..|urls|] == urls;
    }

    /** `_create_resource_handlers` */
    method CreateResourceHandlers(grouped: map<UrlType, seq<string>>, construct: Construct)
      returns (resources: ResourceMap)
      ensures resources == HandlerMap(grouped, construct)
    {
      resources := map[];
      if MODEL in grouped && grouped[MODEL] != [] {
        var handlers := BuildHandlers(grouped[MODEL], MODEL, construct);
        if handlers != [] {
          resources := resources[MODEL := handlers];
        }
      }
      assert resources == AddHandlers(map[], grouped, MODEL, construct);
      ghost var afterModels := resources;
      if DATASET in grouped && grouped[DATASET] != [] {
        var handlers := BuildHandlers(grouped[DATASET], DATASET, construct);
        if handlers != [] {
          resources := resources[DATASET := handlers];
        }
      }
      assert resources == AddHandlers(afterModels, grouped, DATASET, construct);
      ghost var afterDatasets := resources;
      if CODE in grouped && grouped[CODE] != [] {
        var handlers := BuildHandlers(grouped[CODE], CODE, construct);
        if handlers != [] {
          resources := resources[CODE := handlers];
        }
      }
      assert resources == AddHandlers(afterDatasets, grouped, CODE, construct);
      HandlerMapByBlocks(grouped, construct);
    }

    /** The inner loop of `_calculate_metrics_parallel` that builds `available_resources`. */
    method RestrictResources(resources: ResourceMap, types: seq<UrlType>) returns (available: ResourceMap)
      ensures available == Restrict(resources, types)
    {
      available := map[];
      for i := 0 to |types|
        invariant available == Restrict(resources, types[..i])
      {
        assert types[..i + 1] == types[..i] + [types[i]];
        available := available[types[i] := if types[i] in resources then resources[types[i]] else []];
      }
      assert types[..|types|] == types;
    }

    /** `_safe_calculate_metric` */
    method SafeCalculateMetric(k: MetricKind, available: ResourceMap, clock: Clock) returns (m: Measured)
      ensures m == Safe(k, available, clock)
    {
      var outcome := CalculateMetric(k, available);
      if outcome.None? {
        m := Measured(Scalar(0.0), 0);
      } else {
        m := Measured(outcome.value, clock(k));
      }
    }

    /**
     * `_calculate_metrics_parallel`, the metrics run one after another; `None` when
     * the pool cannot be started.
     */
    method CalculateMetrics(resources: ResourceMap, clock: Clock) returns (results: Option<MetricResults>)
      ensures results == MetricsRun(maxWorkers, resources, clock)
    {
      if maxWorkers <= 0 {
        return None;
      }
      var collected := map[];
      for i := 0 to |metrics|
        invariant collected == Results(metrics[..i], resources, clock)
      {
        var k := metrics[i];
        assert metrics[..i + 1][..i] == metrics[..i];
        var available := RestrictResources(resources, RequiredTypes(k));
        var m := SafeCalculateMetric(k, available, clock);
        collected := collected[k := m];
      }
      assert metrics[..|metrics|] == metrics;
      results := Some(collected);
    }

    /** `_calculate_net_score` */
    method CalculateNetScore(results: MetricResults) returns (net: real, latency: nat)
      ensures (net, latency) == NetScore(results)
    {
      var weightedSum, totalWeight, totalLatency := 0.0, 0.0, 0;
      for i := 0 to |Weights|
        invariant weightedSum == WeightedSum(Weights[..i], results)
        invariant totalWeight == TotalWeight(Weights[..i], results)
        invariant totalLatency == TotalLatency(Weights[..i], results)
      {
        var (k, w) := Weights[i];
        assert Weights[..i + 1][..i] == Weights[..i];
        if k in results {
          var score := Reduce(results[k].score);
          weightedSum := weightedSum + score * w;
          totalWeight := totalWeight + w;
          totalLatency := totalLatency + results[k].latency;
        }
      }
      assert Weights[..|Weights|] == Weights;
      net := if totalWeight > 0.0 then weightedSum / totalWeight else 0.0;
      latency := totalLatency;
    }

    /** `_evaluate_single_model` */
    method EvaluateSingleModel(url: string, resources: ResourceMap, construct: Construct, clock: Clock)
      returns (result: Option<Record>)
      ensures result == EvaluateSingle(url, resources, maxWorkers, construct, clock)
    {
      var handler := construct(MODEL, url);
      if handler.None? {
        return None;
      }
      var name := ModelName(handler.value.id);
      var run := CalculateMetrics(resources, clock);
      if run.None? {
        return None;
      }
      var metricResults := run.value;
      var net, latency := CalculateNetScore(metricResults);
      result := Some(Record(name, "MODEL", net, latency,
        Entry(metricResults, RampUpTime), Entry(metricResults, BusFactor),
        Entry(metricResults, PerformanceClaims), Entry(metricResults, License),
        Entry(metricResults, SizeScore), Entry(metricResults, DatasetAndCodeScore),
        Entry(metricResults, DatasetQuality), Entry(metricResults, CodeQuality)));
    }

    /** `evaluate_urls` */
    method EvaluateUrls(urls: seq<string>, construct: Construct, clock: Clock) returns (results: seq<Record>)
      ensures results == EvaluateBatch(urls, maxWorkers, construct, clock)
    {
      var grouped := GroupByType(urls);
      var resources := CreateResourceHandlers(grouped, construct);
      var modelUrls := grouped[MODEL];
      results := [];
      for i := 0 to |modelUrls|
        invariant results == EvaluateAll(modelUrls[..i], resources, maxWorkers, construct, clock)
      {
        EvaluateAllStep(modelUrls, i, resources, maxWorkers, construct, clock);
        var result := EvaluateSingleModel(modelUrls[i], resources, construct, clock);
        if result.Some? {
          results := results + [result.value];
        }
      }
      assert modelUrls[..|modelUrls|] == modelUrls;
    }

    /** `evaluate_from_file`, given the file's lines or `None` when it cannot be read. */
    method EvaluateFromFile(file: Option<seq<string>>, construct: Construct, clock: Clock) returns (results: seq<Record>)
      ensures results == FromFile(file, maxWorkers, construct, clock)
    {
      if file.None? {
        return [];
      }
      var lines := file.value;
      results := [];
      for i := 0 to |lines|
        invariant results == ConcatLines(lines[..i], line => LineResults(line, maxWorkers, construct, clock))
      {
        assert lines[..i + 1][..i] == lines[..i];
        var line := Strip(lines[i]);
        if line != "" {
          var lineUrls := NonEmptyStripped(Split(line, ','));
          if lineUrls != [] {
            var lineResults := EvaluateUrls(lineUrls, construct, clock);
            results := results + lineResults;
          }
        }
      }
      assert lines[..|lines|] == lines;
    }
  }
}
