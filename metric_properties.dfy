/** What the eight metric rules promise: defaults, bounds, bands, thresholds and the registry. */
module MetricProperties {
  import opened Wrappers
  import opened UrlClassification
  import opened Resources
  import opened Metrics

  // ---------------------------------------------------------------------------
  // Collected values
  // ---------------------------------------------------------------------------

  /** The collected list holds `f` of each handler, position by position. */
  lemma {:induction false} ScoresAt(rs: seq<Resource>, f: Resource -> real)
    ensures forall i | 0 <= i < |rs| :: Scores(rs, f)[i] == f(rs[i])
  {
    if rs != [] {
      ScoresAt(rs[..|rs| - 1], f);
    }
  }

  /**
   * A value is collected exactly when some handler of some required type yields
   * it; handlers of types that are not required are never looked at.
   */
  lemma {:induction false} GatherMembers(r: ResourceMap, types: seq<UrlType>, f: Resource -> real)
    ensures forall t, res :: t in types && res in Of(r, t) ==> f(res) in Gather(r, types, f)
    ensures forall x :: x in Gather(r, types, f) ==>
              exists t, res :: t in types && res in Of(r, t) && f(res) == x
  {
    if types != [] {
      var init := types[..|types| - 1];
      var t := types[|types| - 1];
      GatherMembers(r, init, f);
      ScoresAt(Of(r, t), f);
      assert types == init + [t];
      assert forall res :: res in Of(r, t) ==> f(res) in Scores(Of(r, t), f);
    }
  }

  /** Nothing is collected exactly when every required type is absent or empty. */
  lemma {:induction false} GatherEmpty(r: ResourceMap, types: seq<UrlType>, f: Resource -> real)
    ensures Gather(r, types, f) == [] <==> forall t :: t in types ==> Of(r, t) == []
  {
    if types != [] {
      var init := types[..|types| - 1];
      GatherEmpty(r, init, f);
      assert types == init + [types[|types| - 1]];
    }
  }

  /** Two resource maps that agree on the required types yield the same collected list. */
  lemma {:induction false} GatherAgree(r1: ResourceMap, r2: ResourceMap, types: seq<UrlType>, f: Resource -> real)
    requires forall t :: t in types ==> Of(r1, t) == Of(r2, t)
    ensures Gather(r1, types, f) == Gather(r2, types, f)
  {
    if types != [] {
      var init := types[..|types| - 1];
      assert forall t :: t in init ==> t in types;
      GatherAgree(r1, r2, init, f);
    }
  }

  /** A sum of values between `lo` and `hi` lies between `|s|` times each. */
  lemma {:induction false} SumBounds(s: seq<real>, lo: real, hi: real)
    requires forall i | 0 <= i < |s| :: lo <= s[i] <= hi
    ensures lo * |s| as real <= Sum(s) <= hi * |s| as real
  {
    if s != [] {
      SumBounds(s[..|s| - 1], lo, hi);
    }
  }

  /** The mean of values between `lo` and `hi` lies between them too. */
  lemma MeanBounds(s: seq<real>, lo: real, hi: real)
    requires s != []
    requires forall i | 0 <= i < |s| :: lo <= s[i] <= hi
    ensures lo <= Mean(s) <= hi
  {
    SumBounds(s, lo, hi);
    var n := |s| as real;
    assert lo * n / n == lo && hi * n / n == hi;
  }

  /** The mean of unit values, and the 0.0 of an empty list, lie in the unit interval. */
  lemma MeanInUnit(s: seq<real>)
    requires forall i | 0 <= i < |s| :: InUnit(s[i])
    ensures InUnit(Mean(s))
  {
    if s != [] {
      MeanBounds(s, 0.0, 1.0);
    }
  }

  /** When every handler of the required types yields a unit value, so does everything collected. */
  lemma GatherInUnit(r: ResourceMap, types: seq<UrlType>, f: Resource -> real)
    requires forall t, res :: t in types && res in Of(r, t) ==> InUnit(f(res))
    ensures forall i | 0 <= i < |Gather(r, types, f)| :: InUnit(Gather(r, types, f)[i])
  {
    GatherMembers(r, types, f);
    forall i | 0 <= i < |Gather(r, types, f)|
      ensures InUnit(Gather(r, types, f)[i])
    {
      var x := Gather(r, types, f)[i];
      assert x in Gather(r, types, f);
    }
  }

  // ---------------------------------------------------------------------------
  // License
  // ---------------------------------------------------------------------------

  /**
   * The licence score is the most restrictive licence among the MODEL, DATASET and
   * CODE handlers: no handler is below it and one of them attains it; with no
   * handler at all it is 0.5.
   */
  lemma LicenseIsMinimum(r: ResourceMap)
    ensures forall t, res :: t in RequiredTypes(License) && res in Of(r, t) ==> LicenseScore(r) <= LicenseOf(res)
    ensures (exists t, res :: t in RequiredTypes(License) && res in Of(r, t)) ==>
              exists t, res :: t in RequiredTypes(License) && res in Of(r, t) && LicenseScore(r) == LicenseOf(res)
    ensures (forall t :: t in RequiredTypes(License) ==> Of(r, t) == []) ==> LicenseScore(r) == 0.5
  {
    var types := RequiredTypes(License);
    var scores := Gather(r, types, LicenseOf);
    GatherMembers(r, types, LicenseOf);
    GatherEmpty(r, types, LicenseOf);
    if scores != [] {
      var m := MinOf(scores);
      forall t, res | t in types && res in Of(r, t)
        ensures m <= LicenseOf(res)
      {
        var k :| 0 <= k < |scores| && scores[k] == LicenseOf(res);
      }
    }
  }

  /** One handler whose licence getter raises caps the licence score at 0.5. */
  lemma FailingLicenseCapsScore(r: ResourceMap, t: UrlType, res: Resource)
    requires t in RequiredTypes(License) && res in Of(r, t)
    requires res.licenseScore.None?
    ensures LicenseScore(r) <= 0.5
  {
    LicenseIsMinimum(r);
    assert LicenseOf(res) == 0.5;
  }

  /** When every licence getter yields a unit value, the licence score is in the unit interval. */
  lemma LicenseInUnit(r: ResourceMap)
    requires forall t, res :: res in Of(r, t) ==> UnitScores(res)
    ensures InUnit(LicenseScore(r))
  {
    var scores := Gather(r, RequiredTypes(License), LicenseOf);
    forall t, res | t in RequiredTypes(License) && res in Of(r, t)
      ensures InUnit(LicenseOf(res))
    {
      assert UnitScores(res);
    }
    GatherInUnit(r, RequiredTypes(License), LicenseOf);
    if scores != [] {
      var m := MinOf(scores);
      var k :| 0 <= k < |scores| && scores[k] == m;
    }
  }

  /** The test suite's licences 0.8, 0.9 and 0.7 give 0.7. */
  lemma LicenseTestExample(m: Resource, d: Resource, c: Resource)
    requires m.licenseScore == Some(0.8) && d.licenseScore == Some(0.9) && c.licenseScore == Some(0.7)
    ensures LicenseScore(map[MODEL := [m], DATASET := [d], CODE := [c]]) == 0.7
  {
    var r := map[MODEL := [m], DATASET := [d], CODE := [c]];
    assert Scores([m], LicenseOf) == [0.8];
    assert Scores([d], LicenseOf) == [0.9];
    assert Scores([c], LicenseOf) == [0.7];
    assert [MODEL, DATASET, CODE][..2] == [MODEL, DATASET];
    assert [MODEL, DATASET][..1] == [MODEL];
    assert Gather(r, [MODEL], LicenseOf) == [0.8];
    assert Gather(r, [MODEL, DATASET], LicenseOf) == [0.8, 0.9];
    assert Gather(r, [MODEL, DATASET, CODE], LicenseOf) == [0.8, 0.9, 0.7];
  }

  // ---------------------------------------------------------------------------
  // Size
  // ---------------------------------------------------------------------------

  /** The four hardware keys, in the order the table lists them. */
  lemma HardwareKeys(sizeMb: Option<real>)
    ensures var h := HardwareCompatibility(sizeMb);
            |h| == 4 && h[0].0 == "raspberry_pi" && h[1].0 == "jetson_nano"
            && h[2].0 == "desktop_pc" && h[3].0 == "aws_server"
  {
  }

  /** Every hardware value is in the unit interval. */
  lemma HardwareInUnit(sizeMb: Option<real>)
    ensures forall i | 0 <= i < |HardwareCompatibility(sizeMb)| :: InUnit(HardwareCompatibility(sizeMb)[i].1)
  {
  }

  /** A bigger model never scores better on any hardware. */
  lemma HardwareMonotone(smaller: real, bigger: real)
    requires smaller <= bigger
    ensures forall i | 0 <= i < 4 ::
              HardwareCompatibility(Some(bigger))[i].1 <= HardwareCompatibility(Some(smaller))[i].1
  {
  }

  /** A model under 100 MB runs everywhere; one of 20000 MB or more gets the floor of each band. */
  lemma HardwareExtremes(mb: real)
    ensures mb < 100.0 ==> forall i | 0 <= i < 4 :: HardwareCompatibility(Some(mb))[i].1 == 1.0
    ensures mb >= 20000.0 ==>
              HardwareCompatibility(Some(mb)) ==
              [("raspberry_pi", 0.0), ("jetson_nano", 0.3), ("desktop_pc", 0.5), ("aws_server", 0.9)]
  {
  }

  /**
   * A first model whose size getter raises gets the fallback table, which on no
   * hardware beats the table of any real size.
   */
  lemma FailingSizeFallback(r: ResourceMap, mb: real)
    requires Of(r, MODEL) != [] && Of(r, MODEL)[0].sizeMb.None?
    ensures SizeScoreOf(r) == Hardware([("raspberry_pi", 0.0), ("jetson_nano", 0.0), ("desktop_pc", 0.5), ("aws_server", 0.5)])
    ensures forall i | 0 <= i < 4 :: HardwareCompatibility(None)[i].1 <= HardwareCompatibility(Some(mb))[i].1
  {
  }

  /** The size score is the scalar 0.0 exactly when there is no model, and otherwise a table. */
  lemma SizeScoreCases(r: ResourceMap)
    ensures SizeScoreOf(r) == Scalar(0.0) <==> Of(r, MODEL) == []
    ensures Of(r, MODEL) != [] ==> SizeScoreOf(r).Hardware? && |SizeScoreOf(r).entries| == 4
  {
  }

  /** Only the first model counts: two maps whose first model agrees give the same size score. */
  lemma SizeUsesFirstModelOnly(r1: ResourceMap, r2: ResourceMap)
    requires Of(r1, MODEL) != [] && Of(r2, MODEL) != []
    requires Of(r1, MODEL)[0] == Of(r2, MODEL)[0]
    ensures SizeScoreOf(r1) == SizeScoreOf(r2)
  {
  }

  /** The test suite's 500 MB model: too big for a Raspberry Pi, fine elsewhere. */
  lemma SizeTestExample(m: Resource)
    requires m.sizeMb == Some(500.0)
    ensures SizeScoreOf(map[MODEL := [m]]) ==
            Hardware([("raspberry_pi", 0.0), ("jetson_nano", 1.0), ("desktop_pc", 1.0), ("aws_server", 1.0)])
  {
  }

  // ---------------------------------------------------------------------------
  // Ramp-up time
  // ---------------------------------------------------------------------------

  /** When every documentation getter yields a unit value, the ramp-up score is in the unit interval. */
  lemma RampUpInUnit(r: ResourceMap)
    requires forall t, res :: res in Of(r, t) ==> UnitScores(res)
    ensures InUnit(RampUpScore(r))
  {
    forall t, res | t in RequiredTypes(RampUpTime) && res in Of(r, t)
      ensures InUnit(DocumentationOf(res))
    {
      assert UnitScores(res);
    }
    GatherInUnit(r, RequiredTypes(RampUpTime), DocumentationOf);
    MeanInUnit(Gather(r, RequiredTypes(RampUpTime), DocumentationOf));
  }

  /** The ramp-up score lies between the lowest and the highest documentation score collected. */
  lemma RampUpBetween(r: ResourceMap, lo: real, hi: real)
    requires forall t, res :: t in RequiredTypes(RampUpTime) && res in Of(r, t) ==> lo <= DocumentationOf(res) <= hi
    requires exists t :: t in RequiredTypes(RampUpTime) && Of(r, t) != []
    ensures lo <= RampUpScore(r) <= hi
  {
    var s := Gather(r, RequiredTypes(RampUpTime), DocumentationOf);
    GatherMembers(r, RequiredTypes(RampUpTime), DocumentationOf);
    GatherEmpty(r, RequiredTypes(RampUpTime), DocumentationOf);
    forall i | 0 <= i < |s|
      ensures lo <= s[i] <= hi
    {
      assert s[i] in s;
    }
    MeanBounds(s, lo, hi);
  }

  /** Without documentation to read the ramp-up score is 0.0. */
  lemma RampUpDefault(r: ResourceMap)
    requires forall t :: t in RequiredTypes(RampUpTime) ==> Of(r, t) == []
    ensures RampUpScore(r) == 0.0
  {
    GatherEmpty(r, RequiredTypes(RampUpTime), DocumentationOf);
  }

  /** A single handler gives its own documentation score, and 0.0 when its getter raises. */
  lemma RampUpOfOne(res: Resource)
    ensures RampUpScore(map[MODEL := [res]]) == if res.documentationScore.Some? then res.documentationScore.value else 0.0
  {
    var r := map[MODEL := [res]];
    assert [MODEL, DATASET, CODE][..2] == [MODEL, DATASET];
    assert [MODEL, DATASET][..1] == [MODEL];
    assert Scores([res], DocumentationOf) == [DocumentationOf(res)];
    assert Gather(r, [MODEL], DocumentationOf) == [DocumentationOf(res)];
    assert Gather(r, [MODEL, DATASET], DocumentationOf) == [DocumentationOf(res)];
    assert Gather(r, [MODEL, DATASET, CODE], DocumentationOf) == [DocumentationOf(res)];
    var s := [DocumentationOf(res)];
    assert Sum(s[..0]) == 0.0 by {
      assert s[..0] == [];
    }
  }

  // ---------------------------------------------------------------------------
  // Bus factor
  // ---------------------------------------------------------------------------

  /** The four bands, each exactly on its range of mean contributor counts. */
  lemma BandRanges(avg: real)
    ensures Band(avg) == 1.0 <==> avg >= 10.0
    ensures Band(avg) == 0.8 <==> 5.0 <= avg < 10.0
    ensures Band(avg) == 0.5 <==> 2.0 <= avg < 5.0
    ensures Band(avg) == 0.2 <==> avg < 2.0
  {
  }

  /** A larger mean never falls into a lower band. */
  lemma BandMonotone(a: real, b: real)
    requires a <= b
    ensures Band(a) <= Band(b)
  {
  }

  /** The bus-factor score is always one of the four band values. */
  lemma BusFactorValues(r: ResourceMap)
    ensures BusFactorScore(r) in {0.2, 0.5, 0.8, 1.0}
  {
  }

  /** With no handler the mean is 0 and the bus factor is 0.2. */
  lemma BusFactorDefault(r: ResourceMap)
    requires forall t :: t in RequiredTypes(BusFactor) ==> Of(r, t) == []
    ensures BusFactorScore(r) == 0.2
  {
    GatherEmpty(r, RequiredTypes(BusFactor), ContributorsOf);
  }

  /** A handler whose contributor getter raises counts as one contributor. */
  lemma BusFactorOfFailingHandler(res: Resource)
    requires res.contributorCount.None?
    ensures BusFactorScore(map[CODE := [res]]) == 0.2
  {
    var r := map[CODE := [res]];
    assert [MODEL, DATASET, CODE][..2] == [MODEL, DATASET];
    assert [MODEL, DATASET][..1] == [MODEL];
    assert Scores([res], ContributorsOf) == [1.0];
    assert Gather(r, [MODEL], ContributorsOf) == [];
    assert Gather(r, [MODEL, DATASET], ContributorsOf) == [];
    assert Gather(r, [MODEL, DATASET, CODE], ContributorsOf) == [1.0];
    assert [1.0][..0] == [];
  }

  // ---------------------------------------------------------------------------
  // Performance claims
  // ---------------------------------------------------------------------------

  /** The evidence points never exceed 1.0, so the cap at 1.0 never changes the score. */
  lemma EvidenceUncapped(b: bool, c: bool, d: bool)
    ensures 0.0 <= Evidence(b, c, d) <= 1.0
    ensures Min(Evidence(b, c, d), 1.0) == Evidence(b, c, d)
  {
  }

  /**
   * The performance-claims calculation raises exactly when the first handler of
   * some type is present and its flag getter raises; otherwise the score is the
   * evidence points of the three first handlers, a missing type counting as no
   * evidence.
   */
  lemma PerformanceClaimsCases(r: ResourceMap)
    ensures PerformanceClaimsScore(r).None? <==>
              (Of(r, MODEL) != [] && Of(r, MODEL)[0].performanceBenchmarks.None?) ||
              (Of(r, CODE) != [] && Of(r, CODE)[0].evaluationCode.None?) ||
              (Of(r, DATASET) != [] && Of(r, DATASET)[0].evaluationDataset.None?)
    ensures PerformanceClaimsScore(r).Some? ==>
              PerformanceClaimsScore(r).value ==
              Evidence(Of(r, MODEL) != [] && Of(r, MODEL)[0].performanceBenchmarks == Some(true),
                       Of(r, CODE) != [] && Of(r, CODE)[0].evaluationCode == Some(true),
                       Of(r, DATASET) != [] && Of(r, DATASET)[0].evaluationDataset == Some(true))
  {
    var b := FirstFlag(r, MODEL, BenchmarksFlag);
    var c := FirstFlag(r, CODE, EvaluationCodeFlag);
    var d := FirstFlag(r, DATASET, EvaluationDatasetFlag);
    if b.Some? && c.Some? && d.Some? {
      EvidenceUncapped(b.value, c.value, d.value);
    }
  }

  /** With no handler at all there is no evidence and the score is 0.0. */
  lemma PerformanceClaimsDefault(r: ResourceMap)
    requires Of(r, MODEL) == [] && Of(r, DATASET) == [] && Of(r, CODE) == []
    ensures PerformanceClaimsScore(r) == Some(0.0)
  {
  }

  // ---------------------------------------------------------------------------
  // Dataset and code
  // ---------------------------------------------------------------------------

  /**
   * The dataset-and-code score is one of 0, 0.4, 0.6 and 1.0: at least 0.6 exactly
   * when a dataset is present, and 0.4 or 1.0 exactly when code is present.
   */
  lemma DatasetAndCodeCases(r: ResourceMap)
    ensures DatasetAndCode(r) in {0.0, 0.4, 0.6, 1.0}
    ensures DatasetAndCode(r) >= 0.6 <==> Of(r, DATASET) != []
    ensures (DatasetAndCode(r) == 0.4 || DatasetAndCode(r) == 1.0) <==> Of(r, CODE) != []
  {
  }

  // ---------------------------------------------------------------------------
  // Dataset quality and code quality
  // ---------------------------------------------------------------------------

  /** The quality of the first dataset; 0.0 without a dataset or when the getter raises. */
  lemma DatasetQualityCases(r: ResourceMap)
    ensures Of(r, DATASET) == [] ==> DatasetQualityScore(r) == 0.0
    ensures Of(r, DATASET) != [] && Of(r, DATASET)[0].qualityScore.None? ==> DatasetQualityScore(r) == 0.0
    ensures Of(r, DATASET) != [] && Of(r, DATASET)[0].qualityScore.Some? ==>
              DatasetQualityScore(r) == Of(r, DATASET)[0].qualityScore.value
  {
  }

  /** The quality of the first repository; 0.0 without one or when the getter raises. */
  lemma CodeQualityCases(r: ResourceMap)
    ensures Of(r, CODE) == [] ==> CodeQualityScore(r) == 0.0
    ensures Of(r, CODE) != [] && Of(r, CODE)[0].codeQualityScore.None? ==> CodeQualityScore(r) == 0.0
    ensures Of(r, CODE) != [] && Of(r, CODE)[0].codeQualityScore.Some? ==>
              CodeQualityScore(r) == Of(r, CODE)[0].codeQualityScore.value
  {
  }

  /** The test suite's qualities 0.85 and 0.75 come back exactly, and an empty map gives 0.0. */
  lemma QualityTestExamples(d: Resource, c: Resource)
    requires d.qualityScore == Some(0.85) && c.codeQualityScore == Some(0.75)
    ensures DatasetQualityScore(map[DATASET := [d]]) == 0.85
    ensures CodeQualityScore(map[CODE := [c]]) == 0.75
    ensures DatasetQualityScore(map[]) == 0.0
  {
  }

  // ---------------------------------------------------------------------------
  // The registry and the dispatch
  // ---------------------------------------------------------------------------

  /**
   * The registry holds the eight metrics under eight distinct names, and no metric
   * asks for UNKNOWN resources.
   */
  lemma RegistryShape()
    ensures |Registry| == 8
    ensures forall k :: k in Registry
    ensures forall i, j | 0 <= i < j < |Registry| :: Name(Registry[i]) != Name(Registry[j])
    ensures RequiredTypes(License) == [MODEL, DATASET, CODE]
    ensures RequiredTypes(SizeScore) == [MODEL]
    ensures forall k :: UNKNOWN !in RequiredTypes(k)
  {
    forall k
      ensures k in Registry
    {
      match k
      case License => assert Registry[0] == k;
      case SizeScore => assert Registry[1] == k;
      case RampUpTime => assert Registry[2] == k;
      case BusFactor => assert Registry[3] == k;
      case PerformanceClaims => assert Registry[4] == k;
      case DatasetAndCodeScore => assert Registry[5] == k;
      case DatasetQuality => assert Registry[6] == k;
      case CodeQuality => assert Registry[7] == k;
    }
    forall i, j | 0 <= i < j < |Registry|
      ensures Name(Registry[i]) != Name(Registry[j])
    {
      NameInjective(Registry[i], Registry[j]);
    }
  }

  /** Different metrics have different names. */
  lemma NameInjective(a: MetricKind, b: MetricKind)
    requires a != b
    ensures Name(a) != Name(b)
  {
  }

  /** A metric looks only at its required types: maps that agree on them give the same result. */
  lemma CalculateReadsOnlyRequiredTypes(k: MetricKind, r1: ResourceMap, r2: ResourceMap)
    requires forall t :: t in RequiredTypes(k) ==> Of(r1, t) == Of(r2, t)
    ensures Calculate(k, r1) == Calculate(k, r2)
  {
    GatherAgree(r1, r2, RequiredTypes(k), LicenseOf);
    GatherAgree(r1, r2, RequiredTypes(k), DocumentationOf);
    GatherAgree(r1, r2, RequiredTypes(k), ContributorsOf);
  }

  /** An absent key and an empty list are the same to every metric. */
  lemma AbsentIsEmpty(k: MetricKind, r: ResourceMap, t: UrlType)
    requires t !in r
    ensures Calculate(k, r) == Calculate(k, r[t := []])
  {
    CalculateReadsOnlyRequiredTypes(k, r, r[t := []]);
  }

  /** Only the performance-claims metric can raise. */
  lemma OnlyPerformanceClaimsRaises(k: MetricKind, r: ResourceMap)
    ensures Calculate(k, r).None? ==> k == PerformanceClaims
  {
  }

  /** When every getter yields unit values, every score a metric produces is in the unit interval. */
  lemma CalculateInUnit(k: MetricKind, r: ResourceMap)
    requires forall t, res :: res in Of(r, t) ==> UnitScores(res)
    ensures Calculate(k, r).Some? ==> ScoreInUnit(Calculate(k, r).value)
  {
    match k
    case License => LicenseInUnit(r);
    case RampUpTime => RampUpInUnit(r);
    case PerformanceClaims => PerformanceClaimsCases(r);
    case DatasetQuality =>
      if Of(r, DATASET) != [] {
        assert UnitScores(Of(r, DATASET)[0]);
      }
    case CodeQuality =>
      if Of(r, CODE) != [] {
        assert UnitScores(Of(r, CODE)[0]);
      }
    case _ =>
  }
}
