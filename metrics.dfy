/**
 * The eight metric rules of `metrics.py`. Each one reads the resources it
 * receives (a map from URL type to handler list) and produces a score:
 * a real number, or for the size metric a per-hardware table.
 */
module Metrics {
  import opened Wrappers
  import opened UrlClassification
  import opened Resources

  /** The `Dict[URLType, List[handler]]` a metric receives. */
  type ResourceMap = map<UrlType, seq<Resource>>

  /** The handlers of type `t`; an absent key reads as the empty list. */
  function Of(r: ResourceMap, t: UrlType): seq<Resource>
  {
    if t in r then r[t] else []
  }

  /** A metric's score: a number, or the hardware table of the size metric (an ordered dict). */
  datatype Score = Scalar(value: real) | Hardware(entries: seq<(string, real)>)

  /** One class per metric of the registry. */
  datatype MetricKind =
    | License | SizeScore | RampUpTime | BusFactor
    | PerformanceClaims | DatasetAndCodeScore | DatasetQuality | CodeQuality

  /** The registry key of each metric. */
  function Name(k: MetricKind): string
  {
    match k
    case License => "license"
    case SizeScore => "size_score"
    case RampUpTime => "ramp_up_time"
    case BusFactor => "bus_factor"
    case PerformanceClaims => "performance_claims"
    case DatasetAndCodeScore => "dataset_and_code_score"
    case DatasetQuality => "dataset_quality"
    case CodeQuality => "code_quality"
  }

  /** `METRIC_CLASSES`, in its insertion order. */
  const Registry: seq<MetricKind> :=
    [License, SizeScore, RampUpTime, BusFactor, PerformanceClaims, DatasetAndCodeScore, DatasetQuality, CodeQuality]

  /** `required_url_types()` of each metric. */
  function RequiredTypes(k: MetricKind): seq<UrlType>
  {
    match k
    case License | RampUpTime | BusFactor | PerformanceClaims => [MODEL, DATASET, CODE]
    case SizeScore => [MODEL]
    case DatasetAndCodeScore => [DATASET, CODE]
    case DatasetQuality => [DATASET]
    case CodeQuality => [CODE]
  }

  // ---------------------------------------------------------------------------
  // The per-resource helpers, each with the default it falls back to when the
  // getter raises
  // ---------------------------------------------------------------------------

  /** `_evaluate_resource_license` */
  function LicenseOf(res: Resource): real
  {
    res.licenseScore.GetOr(0.5)
  }

  /** `_evaluate_documentation_quality` */
  function DocumentationOf(res: Resource): real
  {
    res.documentationScore.GetOr(0.0)
  }

  /** `_get_contributor_count`, as the number the mean is taken over */
  function ContributorsOf(res: Resource): real
  {
    res.contributorCount.GetOr(1) as real
  }

  /** `_evaluate_dataset_quality` */
  function DatasetQualityOf(res: Resource): real
  {
    res.qualityScore.GetOr(0.0)
  }

  /** `_evaluate_code_quality` */
  function CodeQualityOf(res: Resource): real
  {
    res.codeQualityScore.GetOr(0.0)
  }

  /** `has_performance_benchmarks()` */
  function BenchmarksFlag(res: Resource): Option<bool>
  {
    res.performanceBenchmarks
  }

  /** `has_evaluation_code()` */
  function EvaluationCodeFlag(res: Resource): Option<bool>
  {
    res.evaluationCode
  }

  /** `has_evaluation_dataset()` */
  function EvaluationDatasetFlag(res: Resource): Option<bool>
  {
    res.evaluationDataset
  }

  // ---------------------------------------------------------------------------
  // Collecting per-resource values and reducing them
  // ---------------------------------------------------------------------------

  /** `f` applied to each handler of a list, in order. */
  function Scores(rs: seq<Resource>, f: Resource -> real): (s: seq<real>)
    ensures |s| == |rs|
  {
    if rs == [] then [] else Scores(rs[..|rs| - 1], f) + [f(rs[|rs| - 1])]
  }

  /**
   * The list a metric appends to: for each required type in turn, `f` of each
   * handler of that type. Absent and empty types contribute nothing.
   */
  function Gather(r: ResourceMap, types: seq<UrlType>, f: Resource -> real): seq<real>
  {
    if types == [] then []
    else Gather(r, types[..|types| - 1], f) + Scores(Of(r, types[|types| - 1]), f)
  }

  /** Python's `sum` of a list of numbers. */
  function Sum(s: seq<real>): real
  {
    if s == [] then 0.0 else Sum(s[..|s| - 1]) + s[|s| - 1]
  }

  /** Python's `min` of a non-empty list: an element that no element is below. */
  function MinOf(s: seq<real>): (m: real)
    requires s != []
    ensures m in s
    ensures forall i | 0 <= i < |s| :: m <= s[i]
  {
    if |s| == 1 then s[0]
    else
      var rest := MinOf(s[..|s| - 1]);
      if s[|s| - 1] < rest then s[|s| - 1] else rest
  }

  /** `sum(xs) / len(xs) if xs else 0`. */
  function Mean(s: seq<real>): real
  {
    if s == [] then 0.0 else Sum(s) / |s| as real
  }

  /** Python's two-argument `min`. */
  function Min(a: real, b: real): real
  {
    if b < a then b else a
  }

  // ---------------------------------------------------------------------------
  // The metric rules
  // ---------------------------------------------------------------------------

  /** `LicenseMetric.calculate`: the most restrictive licence, 0.5 when there is nothing to check. */
  function LicenseScore(r: ResourceMap): real
  {
    var scores := Gather(r, RequiredTypes(License), LicenseOf);
    if scores == [] then 0.5 else MinOf(scores)
  }

  /** `SizeScoreMetric._calculate_hardware_compatibility`; `None` is a size getter that raised. */
  function HardwareCompatibility(sizeMb: Option<real>): seq<(string, real)>
  {
    match sizeMb
    case None =>
      [("raspberry_pi", 0.0), ("jetson_nano", 0.0), ("desktop_pc", 0.5), ("aws_server", 0.5)]
    case Some(mb) =>
      [("raspberry_pi", if mb < 100.0 then 1.0 else if mb < 500.0 then 0.5 else 0.0),
       ("jetson_nano", if mb < 1000.0 then 1.0 else if mb < 2000.0 then 0.7 else 0.3),
       ("desktop_pc", if mb < 5000.0 then 1.0 else if mb < 10000.0 then 0.8 else 0.5),
       ("aws_server", if mb < 20000.0 then 1.0 else 0.9)]
  }

  /** `SizeScoreMetric.calculate`: the table of the first model, or the scalar 0.0 without one. */
  function SizeScoreOf(r: ResourceMap): Score
  {
    var models := Of(r, MODEL);
    if models == [] then Scalar(0.0) else Hardware(HardwareCompatibility(models[0].sizeMb))
  }

  /** `RampUpTimeMetric.calculate`: the mean documentation score, 0.0 without resources. */
  function RampUpScore(r: ResourceMap): real
  {
    Mean(Gather(r, RequiredTypes(RampUpTime), DocumentationOf))
  }

  /** The bands `BusFactorMetric.calculate` maps the mean contributor count to. */
  function Band(avg: real): real
  {
    if avg >= 10.0 then 1.0
    else if avg >= 5.0 then 0.8
    else if avg >= 2.0 then 0.5
    else 0.2
  }

  /** `BusFactorMetric.calculate`: the band of the mean contributor count (0 without resources). */
  function BusFactorScore(r: ResourceMap): real
  {
    Band(Mean(Gather(r, RequiredTypes(BusFactor), ContributorsOf)))
  }

  /**
   * One evidence flag of `PerformanceClaimsMetric`: read from the first handler of
   * type `t`, `false` when there is none, `None` when the getter raised.
   */
  function FirstFlag(r: ResourceMap, t: UrlType, flag: Resource -> Option<bool>): Option<bool>
  {
    var rs := Of(r, t);
    if rs == [] then Some(false) else flag(rs[0])
  }

  /** The points each piece of evidence is worth. */
  function Evidence(benchmarks: bool, evaluationCode: bool, datasetInfo: bool): real
  {
    (if benchmarks then 0.5 else 0.0) + (if evaluationCode then 0.3 else 0.0)
      + (if datasetInfo then 0.2 else 0.0)
  }

  /**
   * `PerformanceClaimsMetric.calculate`. It catches nothing, so a flag getter that
   * raises makes the whole calculation raise: `None`.
   */
  function PerformanceClaimsScore(r: ResourceMap): Option<real>
  {
    var b := FirstFlag(r, MODEL, BenchmarksFlag);
    var c := FirstFlag(r, CODE, EvaluationCodeFlag);
    var d := FirstFlag(r, DATASET, EvaluationDatasetFlag);
    if b.None? || c.None? || d.None? then None
    else Some(Min(Evidence(b.value, c.value, d.value), 1.0))
  }

  /** `DatasetAndCodeScoreMetric.calculate`: 0.6 for a dataset plus 0.4 for code. */
  function DatasetAndCode(r: ResourceMap): real
  {
    (if Of(r, DATASET) != [] then 0.6 else 0.0) + (if Of(r, CODE) != [] then 0.4 else 0.0)
  }

  /** `DatasetQualityMetric.calculate`: the quality of the first dataset, 0.0 without one. */
  function DatasetQualityScore(r: ResourceMap): real
  {
    var ds := Of(r, DATASET);
    if ds == [] then 0.0 else DatasetQualityOf(ds[0])
  }

  /** `CodeQualityMetric.calculate`: the quality of the first repository, 0.0 without one. */
  function CodeQualityScore(r: ResourceMap): real
  {
    var cs := Of(r, CODE);
    if cs == [] then 0.0 else CodeQualityOf(cs[0])
  }

  /** `metric.calculate(resources)` for each metric; `None` when it raises. */
  function Calculate(k: MetricKind, r: ResourceMap): Option<Score>
  {
    match k
    case License => Some(Scalar(LicenseScore(r)))
    case SizeScore => Some(SizeScoreOf(r))
    case RampUpTime => Some(Scalar(RampUpScore(r)))
    case BusFactor => Some(Scalar(BusFactorScore(r)))
    case PerformanceClaims =>
      (match PerformanceClaimsScore(r)
       case None => None
       case Some(v) => Some(Scalar(v)))
    case DatasetAndCodeScore => Some(Scalar(DatasetAndCode(r)))
    case DatasetQuality => Some(Scalar(DatasetQualityScore(r)))
    case CodeQuality => Some(Scalar(CodeQualityScore(r)))
  }

  /** Every number a score carries lies in the unit interval. */
  predicate ScoreInUnit(s: Score)
  {
    match s
    case Scalar(v) => InUnit(v)
    case Hardware(entries) => forall i | 0 <= i < |entries| :: InUnit(entries[i].1)
  }

  // ---------------------------------------------------------------------------
  // The calculations as the source runs them
  // ---------------------------------------------------------------------------

  /**
   * The loop `LicenseMetric`, `RampUpTimeMetric` and `BusFactorMetric` share: for
   * each required type that is present with a non-empty list, append `f` of
   * each of its handlers.
   */
  method CollectScores(r: ResourceMap, types: seq<UrlType>, f: Resource -> real) returns (scores: seq<real>)
    ensures scores == Gather(r, types, f)
  {
    scores := [];
    for i := 0 to |types|
      invariant scores == Gather(r, types[..i], f)
    {
      var t := types[i];
      assert types[..i + 1][..i] == types[..i];
      if t in r && r[t] != [] {
        var rs := r[t];
        ghost var before := scores;
        for j := 0 to |rs|
          invariant scores == before + Scores(rs[..j], f)
        {
          assert rs[..j + 1][..j] == rs[..j];
          scores := scores + [f(rs[j])];
        }
        assert rs[..|rs|] == rs;
      }
    }
    assert types[..|types|] == types;
  }

  /** `LicenseMetric.calculate` */
  method CalculateLicense(r: ResourceMap) returns (score: real)
    ensures score == LicenseScore(r)
  {
    var scores := CollectScores(r, RequiredTypes(License), LicenseOf);
    score := if scores != [] then MinOf(scores) else 0.5;
  }

  /** `RampUpTimeMetric.calculate` */
  method CalculateRampUp(r: ResourceMap) returns (score: real)
    ensures score == RampUpScore(r)
  {
    var scores := CollectScores(r, RequiredTypes(RampUpTime), DocumentationOf);
    score := if scores != [] then Sum(scores) / |scores| as real else 0.0;
  }

  /** `BusFactorMetric.calculate` */
  method CalculateBusFactor(r: ResourceMap) returns (score: real)
    ensures score == BusFactorScore(r)
  {
    var counts := CollectScores(r, RequiredTypes(BusFactor), ContributorsOf);
    var avg := if counts != [] then Sum(counts) / |counts| as real else 0.0;
    if avg >= 10.0 {
      score := 1.0;
    } else if avg >= 5.0 {
      score := 0.8;
    } else if avg >= 2.0 {
      score := 0.5;
    } else {
      score := 0.2;
    }
  }

  /** `PerformanceClaimsMetric.calculate`; `None` when a flag getter raises. */
  method CalculatePerformanceClaims(r: ResourceMap) returns (result: Option<real>)
    ensures result == PerformanceClaimsScore(r)
  {
    var hasBenchmarks, hasEvaluationCode, hasDatasetInfo := false, false, false;
    if MODEL in r && r[MODEL] != [] {
      var flag := r[MODEL][0].performanceBenchmarks;
      if flag.None? {
        return None;
      }
      hasBenchmarks := flag.value;
    }
    if CODE in r && r[CODE] != [] {
      var flag := r[CODE][0].evaluationCode;
      if flag.None? {
        return None;
      }
      hasEvaluationCode := flag.value;
    }
    if DATASET in r && r[DATASET] != [] {
      var flag := r[DATASET][0].evaluationDataset;
      if flag.None? {
        return None;
      }
      hasDatasetInfo := flag.value;
    }
    var score := 0.0;
    if hasBenchmarks {
      score := score + 0.5;
    }
    if hasEvaluationCode {
      score := score + 0.3;
    }
    if hasDatasetInfo {
      score := score + 0.2;
    }
    result := Some(Min(score, 1.0));
  }

  /** `DatasetAndCodeScoreMetric.calculate` */
  method CalculateDatasetAndCode(r: ResourceMap) returns (score: real)
    ensures score == DatasetAndCode(r)
  {
    var datasetAvailable := DATASET in r && r[DATASET] != [];
    var codeAvailable := CODE in r && r[CODE] != [];
    score := 0.0;
    if datasetAvailable {
      score := score + 0.6;
    }
    if codeAvailable {
      score := score + 0.4;
    }
  }

  /** `metric.calculate(resources)`, dispatched on the metric; `None` when it raises. */
  method CalculateMetric(k: MetricKind, r: ResourceMap) returns (result: Option<Score>)
    ensures result == Calculate(k, r)
  {
    match k {
      case License =>
        var v := CalculateLicense(r);
        result := Some(Scalar(v));
      case SizeScore =>
        result := Some(SizeScoreOf(r));
      case RampUpTime =>
        var v := CalculateRampUp(r);
        result := Some(Scalar(v));
      case BusFactor =>
        var v := CalculateBusFactor(r);
        result := Some(Scalar(v));
      case PerformanceClaims =>
        var v := CalculatePerformanceClaims(r);
        result := if v.Some? then Some(Scalar(v.value)) else None;
      case DatasetAndCodeScore =>
        var v := CalculateDatasetAndCode(r);
        result := Some(Scalar(v));
      case DatasetQuality =>
        result := Some(Scalar(DatasetQualityScore(r)));
      case CodeQuality =>
        result := Some(Scalar(CodeQualityScore(r)));
    }
  }
}
