/**
 * What the orchestration promises. The handler map leaves out failures and empty
 * types. Every metric sees exactly its required types, and every registered
 * metric is recorded. The weights sum to 1 and the net score stays in the unit
 * interval. Each model URL gets at most one record, in order, and a URL file is
 * read line by line.
 */
module EvaluatorProperties {
  import opened Wrappers
  import opened Text
  import opened UrlClassification
  import opened Resources
  import opened Metrics
  import opened MetricProperties
  import opened ModelEvaluation

  // ---------------------------------------------------------------------------
  // Handlers
  // ---------------------------------------------------------------------------

  /** Building handlers distributes over concatenation, so the URL order is kept. */
  lemma {:induction false} BuiltAppend(a: seq<string>, b: seq<string>, t: UrlType, construct: Construct)
    ensures Built(a + b, t, construct) == Built(a, t, construct) + Built(b, t, construct)
    decreases |b|
  {
    if b == [] {
      assert a + b == a;
    } else {
      var front := b[..|b| - 1];
      assert (a + b)[..|a + b| - 1] == a + front;
      BuiltAppend(a, front, t, construct);
    }
  }

  /** The handlers of a single URL: its handler when the construction succeeds, else none. */
  lemma BuiltOne(u: string, t: UrlType, construct: Construct)
    ensures Built([u], t, construct) == if construct(t, u).Some? then [construct(t, u).value] else []
  {
    assert [u][..0] == [];
  }

  /** A construction that raises is skipped and the URLs around it are still built. */
  lemma FailedConstructionSkipped(a: seq<string>, u: string, b: seq<string>, t: UrlType, construct: Construct)
    requires construct(t, u).None?
    ensures Built(a + [u] + b, t, construct) == Built(a, t, construct) + Built(b, t, construct)
  {
    BuiltAppend(a + [u], b, t, construct);
    BuiltAppend(a, [u], t, construct);
    BuiltOne(u, t, construct);
  }

  /** The handlers built are exactly the successful constructions, at most one per URL. */
  lemma {:induction false} BuiltMembers(urls: seq<string>, t: UrlType, construct: Construct)
    ensures |Built(urls, t, construct)| <= |urls|
    ensures forall h :: h in Built(urls, t, construct) <==> exists u :: u in urls && construct(t, u) == Some(h)
  {
    if urls != [] {
      var front := urls[..|urls| - 1];
      BuiltMembers(front, t, construct);
      assert urls == front + [urls[|urls| - 1]];
    }
  }

  /**
   * The handler map has a key for a type exactly when it is MODEL, DATASET or CODE
   * and at least one of its handlers was built: never UNKNOWN, never an empty list.
   */
  lemma HandlerMapShape(grouped: map<UrlType, seq<string>>, construct: Construct)
    ensures UNKNOWN !in HandlerMap(grouped, construct)
    ensures forall t :: t in HandlerMap(grouped, construct) <==> t != UNKNOWN && Handlers(grouped, t, construct) != []
    ensures forall t :: t in HandlerMap(grouped, construct) ==>
              HandlerMap(grouped, construct)[t] == Built(Listed(grouped, t), t, construct)
  {
  }

  /** The test suite's grouping with one URL per known type yields one handler list per type. */
  lemma HandlerMapTestExample(grouped: map<UrlType, seq<string>>, construct: Construct, m: string, d: string, c: string)
    requires grouped == map[MODEL := [m], DATASET := [d], CODE := [c], UNKNOWN := []]
    requires forall t, u :: construct(t, u).Some?
    ensures var resources := HandlerMap(grouped, construct);
            MODEL in resources && DATASET in resources && CODE in resources && |resources[MODEL]| == 1
  {
    assert Listed(grouped, MODEL) == [m] && Listed(grouped, DATASET) == [d] && Listed(grouped, CODE) == [c];
    BuiltOne(m, MODEL, construct);
    BuiltOne(d, DATASET, construct);
    BuiltOne(c, CODE, construct);
  }

  // ---------------------------------------------------------------------------
  // Running the metrics
  // ---------------------------------------------------------------------------

  /** A metric receives a map whose keys are exactly its required types, each as the full map has it. */
  lemma RestrictShape(resources: ResourceMap, types: seq<UrlType>)
    ensures forall t :: t in Restrict(resources, types) <==> t in types
    ensures forall t :: t in types ==> Restrict(resources, types)[t] == Of(resources, t)
  {
  }

  /** Restricting the resources never changes what a metric computes. */
  lemma MeasureIgnoresRestriction(k: MetricKind, resources: ResourceMap, clock: Clock)
    ensures Measure(k, resources, clock) == Safe(k, resources, clock)
  {
    CalculateReadsOnlyRequiredTypes(k, Restrict(resources, RequiredTypes(k)), resources);
  }

  /** Running a list of metrics records each of them, and nothing else. */
  lemma {:induction false} ResultsAt(kinds: seq<MetricKind>, resources: ResourceMap, clock: Clock)
    ensures forall k :: k in Results(kinds, resources, clock) <==> k in kinds
    ensures forall k :: k in kinds ==> Results(kinds, resources, clock)[k] == Measure(k, resources, clock)
  {
    if kinds != [] {
      var init := kinds[..|kinds| - 1];
      ResultsAt(init, resources, clock);
      assert kinds == init + [kinds[|kinds| - 1]];
    }
  }

  /**
   * Every registered metric appears in the results with what it computed on the
   * whole resource map; one that raised records exactly score 0.0 and latency 0.
   */
  lemma EveryMetricRecorded(resources: ResourceMap, clock: Clock)
    ensures forall k :: k in Results(Registry, resources, clock)
    ensures forall k :: Results(Registry, resources, clock)[k] == Safe(k, resources, clock)
    ensures forall k :: Calculate(k, resources).None? ==>
              Results(Registry, resources, clock)[k] == Measured(Scalar(0.0), 0)
  {
    RegistryShape();
    ResultsAt(Registry, resources, clock);
    forall k
      ensures Measure(k, resources, clock) == Safe(k, resources, clock)
    {
      MeasureIgnoresRestriction(k, resources, clock);
    }
  }

  // ---------------------------------------------------------------------------
  // Net score
  // ---------------------------------------------------------------------------

  /** The metrics the weight table names, in its order. */
  function KindsOf(ws: seq<(MetricKind, real)>): (ks: seq<MetricKind>)
    ensures |ks| == |ws| && forall i | 0 <= i < |ws| :: ks[i] == ws[i].0
  {
    seq(|ws|, i requires 0 <= i < |ws| => ws[i].0)
  }

  /** One more step of the total weight over the weight table. */
  lemma TotalWeightStep(i: nat, results: MetricResults)
    requires 0 < i <= |Weights|
    ensures TotalWeight(Weights[..i], results)
            == TotalWeight(Weights[..i - 1], results) + (if Weights[i - 1].0 in results then Weights[i - 1].1 else 0.0)
  {
    assert Weights[..i][..i - 1] == Weights[..i - 1];
  }

  /** One more step of the weighted sum over the weight table. */
  lemma WeightedSumStep(i: nat, results: MetricResults)
    requires 0 < i <= |Weights|
    ensures WeightedSum(Weights[..i], results)
            == WeightedSum(Weights[..i - 1], results)
               + (if Weights[i - 1].0 in results then Reduce(results[Weights[i - 1].0].score) * Weights[i - 1].1 else 0.0)
  {
    assert Weights[..i][..i - 1] == Weights[..i - 1];
  }

  /** One more step of the total latency over the weight table. */
  lemma TotalLatencyStep(i: nat, results: MetricResults)
    requires 0 < i <= |Weights|
    ensures TotalLatency(Weights[..i], results)
            == TotalLatency(Weights[..i - 1], results) + (if Weights[i - 1].0 in results then results[Weights[i - 1].0].latency else 0)
  {
    assert Weights[..i][..i - 1] == Weights[..i - 1];
  }

  /** The weights are non-negative, name each registered metric exactly once, and sum to 1.0. */
  lemma WeightsShape(results: MetricResults)
    requires forall k :: k in results
    ensures |Weights| == |Registry|
    ensures forall i | 0 <= i < |Weights| :: Weights[i].1 >= 0.0
    ensures forall i, j | 0 <= i < j < |Weights| :: Weights[i].0 != Weights[j].0
    ensures forall k :: k in KindsOf(Weights)
    ensures TotalWeight(Weights, results) == 1.0
  {
    RegistryShape();
    var ks := KindsOf(Weights);
    forall k
      ensures k in ks
    {
      match k
      case License => assert ks[0] == k;
      case PerformanceClaims => assert ks[1] == k;
      case RampUpTime => assert ks[2] == k;
      case BusFactor => assert ks[3] == k;
      case SizeScore => assert ks[4] == k;
      case DatasetAndCodeScore => assert ks[5] == k;
      case DatasetQuality => assert ks[6] == k;
      case CodeQuality => assert ks[7] == k;
    }
    assert Weights[..0] == [];
    TotalWeightStep(1, results);
    TotalWeightStep(2, results);
    TotalWeightStep(3, results);
    TotalWeightStep(4, results);
    TotalWeightStep(5, results);
    TotalWeightStep(6, results);
    TotalWeightStep(7, results);
    TotalWeightStep(8, results);
    assert Weights[..8] == Weights;
  }

  /** A unit number times a non-negative weight lies between 0 and the weight. */
  lemma ScaledBounds(x: real, w: real)
    requires 0.0 <= x <= 1.0 && w >= 0.0
    ensures 0.0 <= x * w <= w
  {
  }

  /** With non-negative weights and unit numbers, the weighted sum lies between 0 and the total weight. */
  lemma {:induction false} WeightedSumBounds(ws: seq<(MetricKind, real)>, results: MetricResults)
    requires forall i | 0 <= i < |ws| :: ws[i].1 >= 0.0
    requires forall k :: k in results ==> InUnit(Reduce(results[k].score))
    ensures 0.0 <= WeightedSum(ws, results) <= TotalWeight(ws, results)
  {
    if ws != [] {
      var front, k, w := ws[..|ws| - 1], ws[|ws| - 1].0, ws[|ws| - 1].1;
      WeightedSumBounds(front, results);
      var x := if k in results then Reduce(results[k].score) * w else 0.0;
      var y := if k in results then w else 0.0;
      assert 0.0 <= x <= y by {
        if k in results {
          ScaledBounds(Reduce(results[k].score), w);
        }
      }
      assert WeightedSum(ws, results) == WeightedSum(front, results) + x;
      assert TotalWeight(ws, results) == TotalWeight(front, results) + y;
    }
  }

  /** When every recorded number is in the unit interval, so is the net score. */
  lemma NetScoreInUnit(results: MetricResults)
    requires forall k :: k in results ==> InUnit(Reduce(results[k].score))
    ensures InUnit(NetScore(results).0)
  {
    WeightedSumBounds(Weights, results);
    var ws, tw := WeightedSum(Weights, results), TotalWeight(Weights, results);
    if tw > 0.0 {
      assert ws / tw <= 1.0 by {
        assert ws <= tw;
      }
    }
  }

  /** Without any recorded metric nothing is weighted. */
  lemma {:induction false} TotalsOfNothing(ws: seq<(MetricKind, real)>)
    ensures TotalWeight(ws, map[]) == 0.0 && TotalLatency(ws, map[]) == 0
  {
    if ws != [] {
      TotalsOfNothing(ws[..|ws| - 1]);
    }
  }

  /** Without any weighted metric the net score is 0.0 and its latency 0. */
  lemma NetScoreOfNothing()
    ensures NetScore(map[]) == (0.0, 0)
  {
    TotalsOfNothing(Weights);
  }

  /** With every metric recorded the total weight is 1.0 and the net score is the weighted sum. */
  lemma NetScoreOfAll(results: MetricResults)
    requires forall k :: k in results
    ensures NetScore(results).0 == WeightedSum(Weights, results)
  {
    WeightsShape(results);
  }

  /** A number score is itself, a table its mean; both stay in the unit interval when the score does. */
  lemma ReduceInUnit(s: Score)
    requires ScoreInUnit(s)
    ensures InUnit(Reduce(s))
  {
    if s.Hardware? {
      MeanInUnit(Values(s.entries));
    }
  }

  /** The test suite's metric results give the net score 0.72 and the latency 820. */
  lemma NetScoreTestExample(results: MetricResults)
    requires results == map[
      License := Measured(Scalar(0.8), 100),
      PerformanceClaims := Measured(Scalar(0.6), 200),
      RampUpTime := Measured(Scalar(0.7), 150),
      BusFactor := Measured(Scalar(0.5), 80),
      SizeScore := Measured(Hardware([("raspberry_pi", 0.5), ("desktop_pc", 1.0)]), 50),
      DatasetAndCodeScore := Measured(Scalar(0.9), 30),
      DatasetQuality := Measured(Scalar(0.8), 120),
      CodeQuality := Measured(Scalar(0.7), 90)]
    ensures NetScore(results) == (0.72, 820)
  {
    var table := [("raspberry_pi", 0.5), ("desktop_pc", 1.0)];
    assert Values(table) == [0.5, 1.0];
    assert Sum([0.5, 1.0]) == 1.5 by {
      assert [0.5, 1.0][..1] == [0.5];
      assert [0.5][..0] == [];
    }
    assert Reduce(results[SizeScore].score) == 0.75;
    forall k
      ensures k in results
    {
      match k
      case License =>
      case PerformanceClaims =>
      case RampUpTime =>
      case BusFactor =>
      case SizeScore =>
      case DatasetAndCodeScore =>
      case DatasetQuality =>
      case CodeQuality =>
    }
    NetScoreOfAll(results);
    TestWeightedSum(results);
    TestLatency(results);
  }

  /** The weighted sum of the test suite's metric results, weight by weight. */
  lemma TestWeightedSum(results: MetricResults)
    requires forall k :: k in results
    requires results[License].score == Scalar(0.8) && results[PerformanceClaims].score == Scalar(0.6)
    requires results[RampUpTime].score == Scalar(0.7) && results[BusFactor].score == Scalar(0.5)
    requires Reduce(results[SizeScore].score) == 0.75 && results[DatasetAndCodeScore].score == Scalar(0.9)
    requires results[DatasetQuality].score == Scalar(0.8) && results[CodeQuality].score == Scalar(0.7)
    ensures WeightedSum(Weights, results) == 0.72
  {
    assert Weights[..0] == [];
    WeightedSumStep(1, results);
    assert WeightedSum(Weights[..1], results) == 0.16;
    WeightedSumStep(2, results);
    assert WeightedSum(Weights[..2], results) == 0.25;
    WeightedSumStep(3, results);
    assert WeightedSum(Weights[..3], results) == 0.355;
    WeightedSumStep(4, results);
    assert WeightedSum(Weights[..4], results) == 0.405;
    WeightedSumStep(5, results);
    assert WeightedSum(Weights[..5], results) == 0.48;
    WeightedSumStep(6, results);
    assert WeightedSum(Weights[..6], results) == 0.57;
    WeightedSumStep(7, results);
    assert WeightedSum(Weights[..7], results) == 0.65;
    WeightedSumStep(8, results);
    assert Weights[..8] == Weights;
  }

  /** The total latency of the test suite's metric results, metric by metric. */
  lemma TestLatency(results: MetricResults)
    requires forall k :: k in results
    requires results[License].latency == 100 && results[PerformanceClaims].latency == 200
    requires results[RampUpTime].latency == 150 && results[BusFactor].latency == 80
    requires results[SizeScore].latency == 50 && results[DatasetAndCodeScore].latency == 30
    requires results[DatasetQuality].latency == 120 && results[CodeQuality].latency == 90
    ensures TotalLatency(Weights, results) == 820
  {
    assert Weights[..0] == [];
    TotalLatencyStep(1, results);
    TotalLatencyStep(2, results);
    TotalLatencyStep(3, results);
    TotalLatencyStep(4, results);
    assert TotalLatency(Weights[..4], results) == 530;
    TotalLatencyStep(5, results);
    TotalLatencyStep(6, results);
    TotalLatencyStep(7, results);
    TotalLatencyStep(8, results);
    assert Weights[..8] == Weights;
  }

  // ---------------------------------------------------------------------------
  // Model names
  // ---------------------------------------------------------------------------

  /**
   * The name is the part of the model id after its last `/` (all of it when there is
   * no `/`), and `"unknown"` when the id is empty.
   */
  lemma ModelNameIsLastSegment(modelId: string)
    ensures ModelName("") == "unknown"
    ensures modelId != "" && '/' !in modelId ==> ModelName(modelId) == modelId
    ensures var id := if modelId == "" then "unknown" else modelId; var name := ModelName(modelId);
            |name| <= |id| && name == id[|id| - |name|..] && '/' !in name
            && (|name| < |id| ==> id[|id| - |name| - 1] == '/')
  {
    var id := if modelId == "" then "unknown" else modelId;
    assert '/' !in "unknown";
    if '/' in id {
      SplitLastPiece(id, '/');
    }
  }

  /** The test suite's model id `google/gemma-3-270m` is named `gemma-3-270m`. */
  lemma ModelNameTestExample(modelId: string)
    requires modelId == "google/gemma-3-270m"
    ensures ModelName(modelId) == "gemma-3-270m"
  {
    ModelNameIsLastSegment(modelId);
    var name := ModelName(modelId);
    assert modelId[6] == '/';
    assert forall j | 0 <= j < |modelId| && j != 6 :: modelId[j] != '/';
    var k := |modelId| - |name|;
    assert k == 7;
    assert modelId[7..] == "gemma-3-270m";
  }

  // ---------------------------------------------------------------------------
  // Records
  // ---------------------------------------------------------------------------

  /** Evaluating model URLs distributes over concatenation, so the URL order is kept. */
  lemma {:induction false} EvaluateAllAppend(a: seq<string>, b: seq<string>, resources: ResourceMap, workers: int, construct: Construct, clock: Clock)
    ensures EvaluateAll(a + b, resources, workers, construct, clock)
            == EvaluateAll(a, resources, workers, construct, clock) + EvaluateAll(b, resources, workers, construct, clock)
    decreases |b|
  {
    if b == [] {
      assert a + b == a;
    } else {
      var front := b[..|b| - 1];
      assert (a + b)[..|a + b| - 1] == a + front;
      EvaluateAllAppend(a, front, resources, workers, construct, clock);
    }
  }

  /** A model whose handler cannot be built is dropped, and the models around it are still evaluated. */
  lemma FailingModelDropped(a: seq<string>, u: string, b: seq<string>, resources: ResourceMap, workers: int, construct: Construct, clock: Clock)
    requires construct(MODEL, u).None?
    ensures EvaluateAll(a + [u] + b, resources, workers, construct, clock)
            == EvaluateAll(a, resources, workers, construct, clock) + EvaluateAll(b, resources, workers, construct, clock)
  {
    EvaluateAllAppend(a + [u], b, resources, workers, construct, clock);
    EvaluateAllAppend(a, [u], resources, workers, construct, clock);
    assert [u][..0] == [];
  }

  /**
   * One record per model handler that could be built, in URL order: the record of
   * the i-th such handler carries that handler's name, category MODEL, and the
   * metric results of the shared resource map. A pool without workers gives no record.
   */
  lemma {:induction false} EvaluateAllRecords(urls: seq<string>, resources: ResourceMap, workers: int, construct: Construct, clock: Clock)
    ensures workers <= 0 ==> EvaluateAll(urls, resources, workers, construct, clock) == []
    ensures workers > 0 ==>
            var recs := EvaluateAll(urls, resources, workers, construct, clock); var models := Built(urls, MODEL, construct);
            |recs| == |models| <= |urls|
            && forall i | 0 <= i < |recs| ::
                 recs[i] == MakeRecord(ModelName(models[i].id), Results(Registry, resources, clock))
                 && recs[i].category == "MODEL"
  {
    BuiltMembers(urls, MODEL, construct);
    if urls != [] {
      EvaluateAllRecords(urls[..|urls| - 1], resources, workers, construct, clock);
    }
  }

  /**
   * A batch gives at most one record per MODEL URL, in order, every record with
   * category MODEL and all of them with the same net score and metric entries.
   * A pool without workers gives no record at all.
   */
  lemma BatchRecords(urls: seq<string>, workers: int, construct: Construct, clock: Clock)
    ensures workers <= 0 ==> EvaluateBatch(urls, workers, construct, clock) == []
    ensures var recs := EvaluateBatch(urls, workers, construct, clock);
            |recs| <= |GroupByType(urls)[MODEL]|
            && (forall i | 0 <= i < |recs| :: recs[i].category == "MODEL")
            && (forall i, j | 0 <= i < |recs| && 0 <= j < |recs| ::
                  recs[i].netScore == recs[j].netScore && recs[i].license == recs[j].license
                  && recs[i].sizeScore == recs[j].sizeScore && recs[i].rampUpTime == recs[j].rampUpTime
                  && recs[i].busFactor == recs[j].busFactor && recs[i].performanceClaims == recs[j].performanceClaims
                  && recs[i].datasetAndCodeScore == recs[j].datasetAndCodeScore
                  && recs[i].datasetQuality == recs[j].datasetQuality && recs[i].codeQuality == recs[j].codeQuality)
  {
    var grouped := GroupByType(urls);
    EvaluateAllRecords(grouped[MODEL], HandlerMap(grouped, construct), workers, construct, clock);
  }

  /** No URL of the type means an empty bucket. */
  lemma EmptyBucket(urls: seq<string>, t: UrlType, classify: string -> UrlType)
    requires forall u :: u in urls ==> classify(u) != t
    ensures Bucket(urls, t, classify) == []
  {
    BucketMembers(urls, t, classify);
  }

  /** A batch without model URLs gives no record. */
  lemma BatchWithoutModels(urls: seq<string>, workers: int, construct: Construct, clock: Clock)
    requires forall u :: u in urls ==> ClassifyUrl(u) != MODEL
    ensures EvaluateBatch(urls, workers, construct, clock) == []
  {
    var grouped := GroupByType(urls);
    assert grouped[MODEL] == Bucket(urls, MODEL, ClassifyUrl);
    EmptyBucket(urls, MODEL, ClassifyUrl);
    assert EvaluateBatch(urls, workers, construct, clock) == EvaluateAll([], HandlerMap(grouped, construct), workers, construct, clock);
  }

  /** `res` is what constructing the handler of some URL of type `t` returned. */
  predicate ConstructedFrom(grouped: map<UrlType, seq<string>>, construct: Construct, t: UrlType, res: Resource)
  {
    exists u :: u in Listed(grouped, t) && construct(t, u) == Some(res)
  }

  /** Every handler in the handler map is a successful construction. */
  lemma HandlerMapFromConstruct(grouped: map<UrlType, seq<string>>, construct: Construct)
    ensures forall t, res :: res in Of(HandlerMap(grouped, construct), t) ==> ConstructedFrom(grouped, construct, t, res)
  {
    forall t, res | res in Of(HandlerMap(grouped, construct), t)
      ensures ConstructedFrom(grouped, construct, t, res)
    {
      HandlerFromConstruct(grouped, construct, t, res);
    }
  }

  /** One handler of the handler map comes from a URL of its type. */
  lemma HandlerFromConstruct(grouped: map<UrlType, seq<string>>, construct: Construct, t: UrlType, res: Resource)
    requires res in Of(HandlerMap(grouped, construct), t)
    ensures ConstructedFrom(grouped, construct, t, res)
  {
    var resources := HandlerMap(grouped, construct);
    assert t in resources && resources[t] == Built(Listed(grouped, t), t, construct);
    BuiltMembers(Listed(grouped, t), t, construct);
  }

  /** When every constructed handler yields unit scores, every metric records a unit score. */
  lemma ResultsInUnit(resources: ResourceMap, clock: Clock)
    requires forall t, res :: res in Of(resources, t) ==> UnitScores(res)
    ensures forall k :: k in Results(Registry, resources, clock) ==>
              ScoreInUnit(Results(Registry, resources, clock)[k].score)
  {
    EveryMetricRecorded(resources, clock);
    forall k
      ensures ScoreInUnit(Safe(k, resources, clock).score)
    {
      CalculateInUnit(k, resources);
    }
  }

  /** Every record of a list of model URLs carries the net score of the shared metric results. */
  lemma RecordsShareNetScore(urls: seq<string>, resources: ResourceMap, workers: int, construct: Construct, clock: Clock)
    ensures forall rec | rec in EvaluateAll(urls, resources, workers, construct, clock) ::
              rec.netScore == NetScore(Results(Registry, resources, clock)).0
  {
    EvaluateAllRecords(urls, resources, workers, construct, clock);
    var recs := EvaluateAll(urls, resources, workers, construct, clock);
    forall rec | rec in recs
      ensures rec.netScore == NetScore(Results(Registry, resources, clock)).0
    {
      var i :| 0 <= i < |recs| && recs[i] == rec;
    }
  }

  /** When every constructed handler yields unit scores, so does every handler of the handler map. */
  lemma HandlerMapInUnit(grouped: map<UrlType, seq<string>>, construct: Construct)
    requires forall t, u :: construct(t, u).Some? ==> UnitScores(construct(t, u).value)
    ensures forall t, res :: res in Of(HandlerMap(grouped, construct), t) ==> UnitScores(res)
  {
    HandlerMapFromConstruct(grouped, construct);
    forall t, res | res in Of(HandlerMap(grouped, construct), t)
      ensures UnitScores(res)
    {
      var u :| u in Listed(grouped, t) && construct(t, u) == Some(res);
    }
  }

  /** When every recorded score is in the unit interval, so is every number the net score reads. */
  lemma ReducedResultsInUnit(results: MetricResults)
    requires forall k :: k in results ==> ScoreInUnit(results[k].score)
    ensures forall k :: k in results ==> InUnit(Reduce(results[k].score))
  {
    forall k | k in results
      ensures InUnit(Reduce(results[k].score))
    {
      ReduceInUnit(results[k].score);
    }
  }

  /**
   * End to end: when every handler that can be built yields unit scores, every
   * record of a batch has a net score in the unit interval.
   */
  lemma BatchNetScoreInUnit(urls: seq<string>, workers: int, construct: Construct, clock: Clock)
    requires forall t, u :: construct(t, u).Some? ==> UnitScores(construct(t, u).value)
    ensures forall rec | rec in EvaluateBatch(urls, workers, construct, clock) :: InUnit(rec.netScore)
  {
    var grouped := GroupByType(urls);
    var resources := HandlerMap(grouped, construct);
    HandlerMapInUnit(grouped, construct);
    ResultsInUnit(resources, clock);
    var results := Results(Registry, resources, clock);
    ReducedResultsInUnit(results);
    NetScoreInUnit(results);
    RecordsShareNetScore(grouped[MODEL], resources, workers, construct, clock);
  }

  /** Two clocks give the same scores: the clock only ever shows up in latencies. */
  lemma ScoresIgnoreClock(resources: ResourceMap, c1: Clock, c2: Clock)
    ensures NetScore(Results(Registry, resources, c1)).0 == NetScore(Results(Registry, resources, c2)).0
    ensures forall k :: k in Results(Registry, resources, c1) && k in Results(Registry, resources, c2)
              && Results(Registry, resources, c1)[k].score == Results(Registry, resources, c2)[k].score
  {
    EveryMetricRecorded(resources, c1);
    EveryMetricRecorded(resources, c2);
    var r1, r2 := Results(Registry, resources, c1), Results(Registry, resources, c2);
    WeightsShape(r1);
    WeightsShape(r2);
    SameScoresSameWeightedSum(Weights, r1, r2);
  }

  /** The weighted sum reads only the scores. */
  lemma {:induction false} SameScoresSameWeightedSum(ws: seq<(MetricKind, real)>, r1: MetricResults, r2: MetricResults)
    requires forall k :: k in r1 <==> k in r2
    requires forall k :: k in r1 ==> r1[k].score == r2[k].score
    ensures WeightedSum(ws, r1) == WeightedSum(ws, r2)
  {
    if ws != [] {
      SameScoresSameWeightedSum(ws[..|ws| - 1], r1, r2);
    }
  }

  // ---------------------------------------------------------------------------
  // URL files
  // ---------------------------------------------------------------------------

  /** Cleaning the pieces and dropping the empty ones distributes over concatenation. */
  lemma {:induction false} KeepNonEmptyAppend(a: seq<string>, b: seq<string>, clean: string -> string)
    ensures KeepNonEmpty(a + b, clean) == KeepNonEmpty(a, clean) + KeepNonEmpty(b, clean)
    decreases |b|
  {
    if b == [] {
      assert a + b == a;
    } else {
      var front := b[..|b| - 1];
      assert (a + b)[..|a + b| - 1] == a + front && (a + b)[|a + b| - 1] == b[|b| - 1];
      KeepNonEmptyAppend(a, front, clean);
    }
  }

  /** A result is kept exactly when it is the non-empty cleaned text of some piece. */
  lemma {:induction false} KeepNonEmptyExact(pieces: seq<string>, clean: string -> string)
    ensures forall u :: u in KeepNonEmpty(pieces, clean) <==>
              exists i | 0 <= i < |pieces| :: u == clean(pieces[i]) && u != ""
  {
    if pieces != [] {
      var front := pieces[..|pieces| - 1];
      var kept := KeepNonEmpty(front, clean);
      KeepNonEmptyExact(front, clean);
      forall u | u in KeepNonEmpty(pieces, clean)
        ensures exists i | 0 <= i < |pieces| :: u == clean(pieces[i]) && u != ""
      {
        if u in kept {
          var i :| 0 <= i < |front| && u == clean(front[i]) && u != "";
          assert pieces[i] == front[i];
        } else {
          assert u == clean(pieces[|front|]) && u != "";
        }
      }
      forall u | exists i | 0 <= i < |pieces| :: u == clean(pieces[i]) && u != ""
        ensures u in KeepNonEmpty(pieces, clean)
      {
        var i :| 0 <= i < |pieces| && u == clean(pieces[i]) && u != "";
        if i < |front| {
          assert front[i] == pieces[i];
          assert u in kept;
        }
      }
    }
  }

  /** Stripping the pieces and dropping the empty ones distributes over concatenation: the pieces keep their order. */
  lemma NonEmptyStrippedAppend(a: seq<string>, b: seq<string>)
    ensures NonEmptyStripped(a + b) == NonEmptyStripped(a) + NonEmptyStripped(b)
  {
    KeepNonEmptyAppend(a, b, Strip);
  }

  /** A single piece yields its stripped text, or nothing when that is empty. */
  lemma NonEmptyStrippedOne(piece: string)
    ensures NonEmptyStripped([piece]) == if Strip(piece) != "" then [Strip(piece)] else []
  {
    assert [piece][..0] == [] && [piece][0] == piece;
    assert KeepNonEmpty([piece], Strip) == KeepNonEmpty([], Strip) + (if Strip(piece) != "" then [Strip(piece)] else []);
  }

  /** A URL is kept exactly when it is the non-empty stripped text of some piece. */
  lemma NonEmptyStrippedExact(pieces: seq<string>)
    ensures forall u :: u in NonEmptyStripped(pieces) <==>
              exists i | 0 <= i < |pieces| :: u == Strip(pieces[i]) && u != ""
  {
    KeepNonEmptyExact(pieces, Strip);
  }

  /** Every URL a line yields is non-empty, free of commas and of white space at either end. */
  lemma {:induction false} NonEmptyStrippedClean(pieces: seq<string>)
    requires forall i | 0 <= i < |pieces| :: ',' !in pieces[i]
    ensures |NonEmptyStripped(pieces)| <= |pieces|
    ensures forall u | u in NonEmptyStripped(pieces) ::
              u != "" && ',' !in u && !IsSpace(u[0]) && !IsSpace(u[|u| - 1])
  {
    if pieces != [] {
      var last := pieces[|pieces| - 1];
      NonEmptyStrippedClean(pieces[..|pieces| - 1]);
      StripKeepsAbsent(last, ',');
      StripTrimsBothEnds(last);
    }
  }

  /** The URLs of a line: at most one per comma-separated piece, each non-empty, comma-free and stripped. */
  lemma ParseLineClean(line: string)
    ensures |ParseLine(line)| <= |Split(Strip(line), ',')|
    ensures forall u | u in ParseLine(line) ::
              u != "" && ',' !in u && !IsSpace(u[0]) && !IsSpace(u[|u| - 1])
  {
    SplitPiecesLackSeparator(Strip(line), ',');
    NonEmptyStrippedClean(Split(Strip(line), ','));
  }

  /**
   * A line's URLs come from its comma-separated pieces, which join back to the
   * stripped line: a URL is listed exactly when it is the non-empty stripped text
   * of some piece, and the URLs of the earlier pieces come before those of the later ones.
   */
  lemma ParseLineExact(line: string)
    ensures var pieces := Split(Strip(line), ',');
            Join(pieces, ',') == Strip(line)
            && (forall i | 0 <= i < |pieces| :: ',' !in pieces[i])
            && (forall u :: u in ParseLine(line) <==> exists i | 0 <= i < |pieces| :: u == Strip(pieces[i]) && u != "")
            && (forall i | 0 <= i <= |pieces| :: ParseLine(line) == NonEmptyStripped(pieces[..i]) + NonEmptyStripped(pieces[i..]))
  {
    var pieces := Split(Strip(line), ',');
    assert ParseLine(line) == NonEmptyStripped(pieces);
    JoinSplit(Strip(line), ',');
    SplitPiecesLackSeparator(Strip(line), ',');
    NonEmptyStrippedExact(pieces);
    NonEmptyStrippedOrder(pieces);
  }

  /** Cutting the pieces anywhere, the URLs of the first part come before those of the rest. */
  lemma NonEmptyStrippedOrder(pieces: seq<string>)
    ensures forall i | 0 <= i <= |pieces| ::
              NonEmptyStripped(pieces) == NonEmptyStripped(pieces[..i]) + NonEmptyStripped(pieces[i..])
  {
    forall i | 0 <= i <= |pieces|
      ensures NonEmptyStripped(pieces) == NonEmptyStripped(pieces[..i]) + NonEmptyStripped(pieces[i..])
    {
      assert pieces == pieces[..i] + pieces[i..];
      NonEmptyStrippedAppend(pieces[..i], pieces[i..]);
    }
  }

  /**
   * A line holding one URL, followed by white space such as its newline, yields
   * exactly that URL: the URL has no comma and no white space at either end.
   */
  lemma ParseLineOfOneUrl(url: string, tail: string)
    requires url != "" && ',' !in url && !IsSpace(url[0]) && !IsSpace(url[|url| - 1])
    requires forall k | 0 <= k < |tail| :: IsSpace(tail[k])
    ensures ParseLine(url + tail) == [url]
  {
    assert (url + tail)[0] == url[0];
    assert TrimStart(url + tail) == url + tail;
    TrimEndDropsTail(url, tail);
    assert TrimStart(url) == url;
    TrimEndDropsTail(url, "");
    assert url + "" == url;
    SplitWithoutSeparator(url, ',');
    NonEmptyStrippedOne(url);
  }

  /** A blank line contributes no record, and each line contributes only its own batch. */
  lemma LineResultsCases(line: string, workers: int, construct: Construct, clock: Clock)
    ensures Strip(line) == "" ==> LineResults(line, workers, construct, clock) == []
    ensures ParseLine(line) == [] ==> LineResults(line, workers, construct, clock) == []
    ensures ParseLine(line) != [] ==> LineResults(line, workers, construct, clock) == EvaluateBatch(ParseLine(line), workers, construct, clock)
  {
    if Strip(line) == "" {
      BlankLineHasNoUrls(line);
    }
  }

  /** A line that strips to nothing names no URL. */
  lemma BlankLineHasNoUrls(line: string)
    requires Strip(line) == ""
    ensures ParseLine(line) == []
  {
    assert Split(Strip(line), ',') == [""];
    assert NonEmptyStripped([""]) == [] by {
      assert [""][..0] == [];
      assert Strip("") == "";
    }
  }

  /** Concatenating per-line records distributes over splitting the lines. */
  lemma {:induction false} ConcatLinesAppend(a: seq<string>, b: seq<string>, perLine: string -> seq<Record>)
    ensures ConcatLines(a + b, perLine) == ConcatLines(a, perLine) + ConcatLines(b, perLine)
    decreases |b|
  {
    if b == [] {
      assert a + b == a;
    } else {
      var front := b[..|b| - 1];
      assert (a + b)[..|a + b| - 1] == a + front && (a + b)[|a + b| - 1] == b[|b| - 1];
      ConcatLinesAppend(a, front, perLine);
    }
  }

  /** A file's records are those of its lines, in line order; an unreadable file gives none. */
  lemma FileResultsAppend(a: seq<string>, b: seq<string>, workers: int, construct: Construct, clock: Clock)
    ensures FileResults(a + b, workers, construct, clock) == FileResults(a, workers, construct, clock) + FileResults(b, workers, construct, clock)
    ensures FromFile(None, workers, construct, clock) == []
  {
    ConcatLinesAppend(a, b, line => LineResults(line, workers, construct, clock));
  }

  /** Lines whose records are all empty make an empty file result. */
  lemma {:induction false} ConcatLinesOfNothing(lines: seq<string>, perLine: string -> seq<Record>)
    requires forall i | 0 <= i < |lines| :: perLine(lines[i]) == []
    ensures ConcatLines(lines, perLine) == []
  {
    if lines != [] {
      ConcatLinesOfNothing(lines[..|lines| - 1], perLine);
    }
  }

  /**
   * An evaluator whose pool has no worker evaluates no model: every batch, and so
   * every URL file, gives no record.
   */
  lemma NoWorkersNoRecords(file: Option<seq<string>>, workers: int, construct: Construct, clock: Clock)
    requires workers <= 0
    ensures forall urls :: EvaluateBatch(urls, workers, construct, clock) == []
    ensures FromFile(file, workers, construct, clock) == []
  {
    forall urls
      ensures EvaluateBatch(urls, workers, construct, clock) == []
    {
      BatchRecords(urls, workers, construct, clock);
    }
    if file.Some? {
      ConcatLinesOfNothing(file.value, line => LineResults(line, workers, construct, clock));
    }
  }
}
