/**
 * A resource handler (`ModelHandler`, `DatasetHandler`, `CodeHandler`) as the
 * values its getters produce. The handlers themselves fetch these over HTTP;
 * here each getter is one optional field, and `None` stands for a getter that
 * raised.
 */
module Resources {
  import opened Wrappers

  datatype Resource = Resource(
    /** `model_id`, `dataset_id` or `repo_path`; the empty string when it is unset. */
    id: string,
    /** `get_license_score()` */
    licenseScore: Option<real>,
    /** `get_documentation_score()` */
    documentationScore: Option<real>,
    /** `get_contributor_count()` */
    contributorCount: Option<int>,
    /** `get_size_mb()` */
    sizeMb: Option<real>,
    /** `get_quality_score()` */
    qualityScore: Option<real>,
    /** `get_code_quality_score()` */
    codeQualityScore: Option<real>,
    /** `has_performance_benchmarks()` */
    performanceBenchmarks: Option<bool>,
    /** `has_evaluation_code()` */
    evaluationCode: Option<bool>,
    /** `has_evaluation_dataset()` */
    evaluationDataset: Option<bool>)

  /** `x` lies in the closed unit interval. */
  predicate InUnit(x: real)
  {
    0.0 <= x <= 1.0
  }

  /** Every score-valued getter that succeeds yields a value in the unit interval. */
  predicate UnitScores(res: Resource)
  {
    (res.licenseScore.Some? ==> InUnit(res.licenseScore.value)) &&
    (res.documentationScore.Some? ==> InUnit(res.documentationScore.value)) &&
    (res.qualityScore.Some? ==> InUnit(res.qualityScore.value)) &&
    (res.codeQualityScore.Some? ==> InUnit(res.codeQualityScore.value))
  }
}
