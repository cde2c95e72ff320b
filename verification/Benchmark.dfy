/** The benchmark gate: absolute limits, and regression limits against a baseline (benchmarks/evaluate.py). */
module Benchmark {
  import opened Wrappers
  import Text
  import opened OrderStatistics

  datatype Checked<+T> = Accepted(value: T) | Rejected(error: EvaluationError)

  datatype EvaluationError =
    | UnknownConfigSchema
    | BadSampleCount
    | WrongNumberOfSamples
    | RepeatedSamplePath
    | BlankBenchmarkSchema
    | WrongSampleSchema
    | NotARawSample
    | BlankTimestamp
    | BadGitSha
    | BlankRunnerField
    | DifferentCommits
    | DifferentRunners
    | UnexpectedRunner
    | UnknownBaselineSchema
    | FailingBaseline
    | RepeatedBaselineMetric
    | BaselineOfOtherSchema
    | BaselineOfOtherSampleCount
    | BaselineOfOtherConfig
    | BaselineOfOtherRunner
    | NoMetrics
    | RepeatedMetric
    | NotExactlyOneMeasurement
    | NoProcess
    | NoDerivedValues
    | UnsupportedSource
    | UnsupportedStatistic
    | NotANumber
    | NegativeNumber
    | MetricNotInBaseline
    | NoRegressionPolicy

  /** A JSON value where a number is wanted; a number is finite. */
  datatype Json = Number(x: real) | Other

  function FiniteNumber(value: Json): Checked<real> {
    if value.Other? then Rejected(NotANumber)
    else if value.x < 0.0 then Rejected(NegativeNumber)
    else Accepted(value.x)
  }

  datatype Runner = Runner(os: string, arch: string, image: string, imageVersion: string)

  datatype Measurement = Measurement(id: string, process: Option<map<string, Json>>)

  datatype Sample = Sample(
    path: string,
    schemaVersion: string,
    thresholdStatus: string,
    generatedAt: string,
    gitSha: string,
    runner: Runner,
    measurements: seq<Measurement>,
    derived: Option<map<string, Json>>)

  datatype Source =
    | ProcessField(measurementId: string, field: string, scale: Json)
    | DerivedField(field: string, scale: Json)
    | OtherSource

  datatype StatisticName = P95 | Max | OtherStatistic

  datatype Regression = Regression(maxRatio: Json, absoluteTolerance: Json)

  datatype MetricConfig = MetricConfig(
    id: string,
    source: Source,
    statistic: StatisticName,
    maximum: Json,
    regression: Option<Regression>)

  /** `sha256` is the digest of the configuration as it was read. */
  datatype Config = Config(
    schemaVersion: string,
    benchmarkSchema: string,
    sampleCount: int,
    runner: Runner,
    metrics: seq<MetricConfig>,
    sha256: string)

  datatype MetricResult = MetricResult(
    id: string,
    samples: seq<real>,
    observed: real,
    absoluteMaximum: real,
    baselineObserved: Option<real>,
    regressionLimit: Option<real>,
    effectiveMaximum: real,
    passed: bool)

  datatype Evaluation = Evaluation(
    schemaVersion: string,
    benchmarkSchema: string,
    gitSha: string,
    runner: Runner,
    sampleCount: int,
    configSha256: string,
    metrics: seq<MetricResult>,
    passed: bool)

  // ----- Sample values -----

  function Matching(measurements: seq<Measurement>, id: string): seq<Measurement> {
    if measurements == [] then []
    else (if measurements[0].id == id then [measurements[0]] else []) + Matching(measurements[1..], id)
  }

  function Field(values: map<string, Json>, field: string): Json {
    if field in values then values[field] else Other
  }

  function Scaled(scale: Json, value: Json): Checked<real> {
    var s, v := FiniteNumber(scale), FiniteNumber(value);
    if s.Rejected? then s else if v.Rejected? then v else Accepted(v.value * s.value)
  }

  function SourceValue(sample: Sample, source: Source): Checked<real> {
    match source
    case ProcessField(id, field, scale) =>
      var matches := Matching(sample.measurements, id);
      if |matches| != 1 then Rejected(NotExactlyOneMeasurement)
      else if matches[0].process.None? then Rejected(NoProcess)
      else Scaled(scale, Field(matches[0].process.value, field))
    case DerivedField(field, scale) =>
      if sample.derived.None? then Rejected(NoDerivedValues) else Scaled(scale, Field(sample.derived.value, field))
    case OtherSource => Rejected(UnsupportedSource)
  }

  /** The value of every sample, or the first error. */
  function SourceValues(samples: seq<Sample>, source: Source): (r: Checked<seq<real>>)
    ensures r.Accepted? ==> |r.value| == |samples|
    ensures r.Accepted? ==> forall i | 0 <= i < |samples| :: r.value[i] >= 0.0
  {
    if samples == [] then Accepted([])
    else
      var first := SourceValue(samples[0], source);
      if first.Rejected? then Rejected(first.error)
      else
        var rest := SourceValues(samples[1..], source);
        ScaledIsNonNegative(samples[0], source);
        if rest.Rejected? then rest else Accepted([first.value] + rest.value)
  }

  lemma ScaledIsNonNegative(sample: Sample, source: Source)
    ensures SourceValue(sample, source).Accepted? ==> SourceValue(sample, source).value >= 0.0
  {
  }

  // ----- One metric -----

  function Observed(statistic: StatisticName, values: seq<real>): Checked<real>
    requires values != []
  {
    match statistic
    case P95 => Accepted(NearestRank(values, 0.95).value)
    case Max => Accepted(Maximum(values))
    case OtherStatistic => Rejected(UnsupportedStatistic)
  }

  function Larger(a: real, b: real): real {
    if a < b then b else a
  }

  function Smaller(a: real, b: real): real {
    if b < a then b else a
  }

  function Scale(value: real, ratio: real): real {
    value * ratio
  }

  /** The looser of a relative and an absolute allowance. */
  function NoiseAwareLimit(prior: real, ratio: real, tolerance: real): real {
    Larger(Scale(prior, ratio), prior + tolerance)
  }

  /** The limit that a baseline sets, for a metric that has a policy. */
  function RegressionLimit(metric: MetricConfig, prior: map<string, real>): Checked<real> {
    if metric.id !in prior then Rejected(MetricNotInBaseline)
    else if metric.regression.None? then Rejected(NoRegressionPolicy)
    else
      var ratio, tolerance :=
        FiniteNumber(metric.regression.value.maxRatio), FiniteNumber(metric.regression.value.absoluteTolerance);
      if ratio.Rejected? then ratio
      else if tolerance.Rejected? then tolerance
      else Accepted(NoiseAwareLimit(prior[metric.id], ratio.value, tolerance.value))
  }

  function EvaluateMetric(metric: MetricConfig, samples: seq<Sample>, prior: Option<map<string, real>>)
    : (r: Checked<MetricResult>)
    requires samples != []
  {
    var values := SourceValues(samples, metric.source);
    if values.Rejected? then Rejected(values.error)
    else
      var observed, maximum := Observed(metric.statistic, values.value), FiniteNumber(metric.maximum);
      if observed.Rejected? then Rejected(observed.error)
      else if maximum.Rejected? then Rejected(maximum.error)
      else if prior.None? then
        Accepted(MetricResult(metric.id, values.value, observed.value, maximum.value, None, None, maximum.value,
                              observed.value <= maximum.value))
      else
        var limit := RegressionLimit(metric, prior.value);
        if limit.Rejected? then Rejected(limit.error)
        else
          var effective := Smaller(maximum.value, limit.value);
          Accepted(MetricResult(metric.id, values.value, observed.value, maximum.value, Some(prior.value[metric.id]),
                                Some(limit.value), effective, observed.value <= effective))
  }

  /** A percentile metric passes when enough samples are within its limit, a maximum when all are. */
  lemma MetricPassesByCount(metric: MetricConfig, samples: seq<Sample>, prior: Option<map<string, real>>)
    requires samples != [] && EvaluateMetric(metric, samples, prior).Accepted?
    ensures var r := EvaluateMetric(metric, samples, prior).value;
      && r.id == metric.id && SourceValues(samples, metric.source) == Accepted(r.samples) && r.observed in r.samples
      && (metric.statistic == P95 ==>
            (r.passed <==> Count(r.samples, r.effectiveMaximum) as real >= Share(0.95, |samples|)))
      && (metric.statistic == Max ==>
            (r.passed <==> forall i | 0 <= i < |r.samples| :: r.samples[i] <= r.effectiveMaximum))
      && r.effectiveMaximum <= r.absoluteMaximum && FiniteNumber(metric.maximum) == Accepted(r.absoluteMaximum)
  {
    hide NearestRank, Maximum, Count, Share, SourceValues;
    var r := EvaluateMetric(metric, samples, prior).value;
    if metric.statistic == P95 {
      PercentileIsDefined(r.samples);
      NearestRankIsLeast(r.samples, 0.95, r.effectiveMaximum);
    }
  }

  lemma PercentileIsDefined(values: seq<real>)
    requires values != []
    ensures NearestRank(values, 0.95).Value?
  {
  }

  /** A looser baseline gives a looser limit, and no baseline the loosest. */
  lemma LimitIsMonotoneInBaseline(metric: MetricConfig, samples: seq<Sample>, low: map<string, real>,
                                  high: map<string, real>)
    requires samples != []
    requires metric.id in low && metric.id in high && low[metric.id] <= high[metric.id]
    requires EvaluateMetric(metric, samples, Some(low)).Accepted?
    ensures EvaluateMetric(metric, samples, Some(high)).Accepted? && EvaluateMetric(metric, samples, None).Accepted?
    ensures var a, b, c := EvaluateMetric(metric, samples, Some(low)).value,
                           EvaluateMetric(metric, samples, Some(high)).value,
                           EvaluateMetric(metric, samples, None).value;
      && a.effectiveMaximum <= b.effectiveMaximum <= c.effectiveMaximum
      && (a.passed ==> b.passed) && (b.passed ==> c.passed)
  {
    hide Observed, SourceValues, NoiseAwareLimit;
    var policy := metric.regression.value;
    LimitRises(low[metric.id], high[metric.id], FiniteNumber(policy.maxRatio).value,
               FiniteNumber(policy.absoluteTolerance).value);
  }

  lemma LimitRises(low: real, high: real, ratio: real, tolerance: real)
    requires low <= high && ratio >= 0.0
    ensures NoiseAwareLimit(low, ratio, tolerance) <= NoiseAwareLimit(high, ratio, tolerance)
  {
    ProductRises(low, high, ratio);
    hide Scale;
    LargerRises(Scale(low, ratio), Scale(high, ratio), low + tolerance, high + tolerance);
  }

  lemma ProductRises(low: real, high: real, ratio: real)
    requires low <= high && ratio >= 0.0
    ensures Scale(low, ratio) <= Scale(high, ratio)
  {
    assert (high - low) * ratio >= 0.0;
  }

  lemma LargerRises(a: real, b: real, c: real, d: real)
    requires a <= b && c <= d
    ensures Larger(a, c) <= Larger(b, d)
  {
  }

  // ----- All metrics -----

  function Ids(metrics: seq<MetricConfig>): (ids: set<string>) {
    set i | 0 <= i < |metrics| :: metrics[i].id
  }

  /** The metrics in order, up to the first repeated id or the first that cannot be evaluated. */
  function EvaluateMetrics(metrics: seq<MetricConfig>, samples: seq<Sample>, prior: Option<map<string, real>>)
    : (r: Checked<seq<MetricResult>>)
    requires samples != []
    ensures r.Accepted? ==> |r.value| == |metrics|
  {
    if metrics == [] then Accepted([])
    else
      var n := |metrics| - 1;
      var front := EvaluateMetrics(metrics[..n], samples, prior);
      if front.Rejected? then front
      else if metrics[n].id in Ids(metrics[..n]) then Rejected(RepeatedMetric)
      else
        var last := EvaluateMetric(metrics[n], samples, prior);
        if last.Rejected? then Rejected(last.error) else Accepted(front.value + [last.value])
  }

  lemma {:induction false} ErrorsPersist(metrics: seq<MetricConfig>, samples: seq<Sample>,
                                         prior: Option<map<string, real>>,
                                         n: nat)
    requires samples != [] && n <= |metrics| && EvaluateMetrics(metrics[..n], samples, prior).Rejected?
    ensures EvaluateMetrics(metrics, samples, prior) == EvaluateMetrics(metrics[..n], samples, prior)
    decreases |metrics|
  {
    hide EvaluateMetric, Ids;
    if n == |metrics| {
      assert metrics[..n] == metrics;
    } else {
      assert metrics[..|metrics| - 1][..n] == metrics[..n];
      ErrorsPersist(metrics[..|metrics| - 1], samples, prior, n);
    }
  }

  method EvaluateAll(metrics: seq<MetricConfig>, samples: seq<Sample>, prior: Option<map<string, real>>)
    returns (r: Checked<seq<MetricResult>>)
    requires samples != []
    ensures r == EvaluateMetrics(metrics, samples, prior)
  {
    hide EvaluateMetric, EvaluateMetrics, Ids;
    var seenIds: set<string> := {};
    var results: seq<MetricResult> := [];
    NoMetricsYet(metrics, samples, prior);
    for i := 0 to |metrics|
      invariant seenIds == Ids(metrics[..i])
      invariant EvaluateMetrics(metrics[..i], samples, prior) == Accepted(results)
    {
      var metric := metrics[i];
      OneMetricMore(metrics, samples, prior, i, results);
      if metric.id in seenIds {
        ErrorsPersist(metrics, samples, prior, i + 1);
        return Rejected(RepeatedMetric);
      }
      seenIds := seenIds + {metric.id};
      var result := EvaluateMetric(metric, samples, prior);
      if result.Rejected? {
        ErrorsPersist(metrics, samples, prior, i + 1);
        return Rejected(result.error);
      }
      results := results + [result.value];
    }
    assert metrics[..|metrics|] == metrics;
    r := Accepted(results);
  }

  lemma NoMetricsYet(metrics: seq<MetricConfig>, samples: seq<Sample>, prior: Option<map<string, real>>)
    requires samples != []
    ensures Ids(metrics[..0]) == {} && EvaluateMetrics(metrics[..0], samples, prior) == Accepted([])
  {
  }

  lemma IdsGrow(metrics: seq<MetricConfig>, i: nat)
    requires i < |metrics|
    ensures Ids(metrics[..i + 1]) == Ids(metrics[..i]) + {metrics[i].id}
  {
  }

  lemma OneMetricMore(metrics: seq<MetricConfig>, samples: seq<Sample>, prior: Option<map<string, real>>, i: nat,
                      results: seq<MetricResult>)
    requires samples != [] && i < |metrics| && EvaluateMetrics(metrics[..i], samples, prior) == Accepted(results)
    ensures Ids(metrics[..i + 1]) == Ids(metrics[..i]) + {metrics[i].id}
    ensures var next, result := EvaluateMetrics(metrics[..i + 1], samples, prior),
                                EvaluateMetric(metrics[i], samples, prior);
      if metrics[i].id in Ids(metrics[..i]) then next == Rejected(RepeatedMetric)
      else if result.Rejected? then next == Rejected(result.error)
      else next == Accepted(results + [result.value])
  {
    IdsGrow(metrics, i);
    hide EvaluateMetric, EvaluateMetrics, Ids;
    var longer := metrics[..i + 1];
    assert longer[..|longer| - 1] == metrics[..i] && longer[|longer| - 1] == metrics[i];
    AcceptedStep(longer, samples, prior, Accepted(results), EvaluateMetric(metrics[i], samples, prior));
  }

  /** All metrics are accepted exactly when their ids are distinct and each is accepted by itself. */
  lemma {:induction false} AllAccepted(metrics: seq<MetricConfig>, samples: seq<Sample>,
                                       prior: Option<map<string, real>>)
    requires samples != []
    ensures EvaluateMetrics(metrics, samples, prior).Accepted? <==>
      && (forall i, j | 0 <= i < j < |metrics| :: metrics[i].id != metrics[j].id)
      && (forall i | 0 <= i < |metrics| :: EvaluateMetric(metrics[i], samples, prior).Accepted?)
    ensures EvaluateMetrics(metrics, samples, prior).Accepted? ==> forall i | 0 <= i < |metrics| ::
      EvaluateMetric(metrics[i], samples, prior) == Accepted(EvaluateMetrics(metrics, samples, prior).value[i])
  {
    hide EvaluateMetric;
    if metrics != [] {
      var n := |metrics| - 1;
      var front := metrics[..n];
      hide EvaluateMetrics;
      AllAccepted(front, samples, prior);
      AcceptedStep(metrics, samples, prior, EvaluateMetrics(front, samples, prior),
                   EvaluateMetric(metrics[n], samples, prior));
      assert forall i | 0 <= i < n :: front[i] == metrics[i];
      if EvaluateMetrics(metrics, samples, prior).Accepted? {
        assert forall i | 0 <= i < n :: metrics[i].id in Ids(front);
      }
    }
  }

  /** One metric more, of which `front` and `last` are what its predecessors and it yield. */
  lemma AcceptedStep(metrics: seq<MetricConfig>, samples: seq<Sample>, prior: Option<map<string, real>>,
                     front: Checked<seq<MetricResult>>, last: Checked<MetricResult>)
    requires samples != [] && metrics != []
    requires front == EvaluateMetrics(metrics[..|metrics| - 1], samples, prior)
    requires last == EvaluateMetric(metrics[|metrics| - 1], samples, prior)
    ensures EvaluateMetrics(metrics, samples, prior).Accepted?
      <==> front.Accepted? && metrics[|metrics| - 1].id !in Ids(metrics[..|metrics| - 1]) && last.Accepted?
    ensures EvaluateMetrics(metrics, samples, prior).Accepted?
      ==> EvaluateMetrics(metrics, samples, prior) == Accepted(front.value + [last.value])
    ensures front.Accepted? && metrics[|metrics| - 1].id in Ids(metrics[..|metrics| - 1])
      ==> EvaluateMetrics(metrics, samples, prior) == Rejected(RepeatedMetric)
    ensures front.Accepted? && metrics[|metrics| - 1].id !in Ids(metrics[..|metrics| - 1]) && last.Rejected?
      ==> EvaluateMetrics(metrics, samples, prior) == Rejected(last.error)
  {
    hide EvaluateMetric, Ids;
  }

  // ----- Identity of the samples -----

  predicate Blank(text: string) {
    Text.Trim(text) == ""
  }

  predicate IsGitSha(text: string) {
    |text| == 40 && forall i | 0 <= i < 40 :: '0' <= text[i] <= '9' || 'a' <= text[i] <= 'f'
  }

  function SampleError(sample: Sample, schema: string): Option<EvaluationError> {
    if sample.schemaVersion != schema then Some(WrongSampleSchema)
    else if sample.thresholdStatus != "raw_sample" then Some(NotARawSample)
    else if Blank(sample.generatedAt) then Some(BlankTimestamp)
    else if !IsGitSha(sample.gitSha) then Some(BadGitSha)
    else if Blank(sample.runner.os) || Blank(sample.runner.arch) || Blank(sample.runner.image)
            || Blank(sample.runner.imageVersion) then Some(BlankRunnerField)
    else None
  }

  /** Well-formed samples of one commit, taken on one runner image. */
  predicate SameIdentity(samples: seq<Sample>, schema: string) {
    forall i | 0 <= i < |samples| ::
      && SampleError(samples[i], schema).None?
      && samples[i].gitSha == samples[0].gitSha && samples[i].runner == samples[0].runner
  }

  function Shas(samples: seq<Sample>): set<string> {
    set i | 0 <= i < |samples| :: samples[i].gitSha
  }

  function Runners(samples: seq<Sample>): set<Runner> {
    set i | 0 <= i < |samples| :: samples[i].runner
  }

  method CommonIdentity(samples: seq<Sample>, schema: string) returns (r: Checked<(string, Runner)>)
    ensures r.Accepted? <==> samples != [] && SameIdentity(samples, schema)
    ensures r.Accepted? ==> r.value == (samples[0].gitSha, samples[0].runner)
  {
    hide SampleError, Shas, Runners;
    var gitShas, runners := Shas([]), Runners([]);
    for i := 0 to |samples|
      invariant forall k | 0 <= k < i :: SampleError(samples[k], schema).None?
      invariant gitShas == Shas(samples[..i]) && runners == Runners(samples[..i])
    {
      var error := SampleError(samples[i], schema);
      if error.Some? {
        return Rejected(error.value);
      }
      OneSampleMore(samples, i);
      gitShas, runners := gitShas + {samples[i].gitSha}, runners + {samples[i].runner};
    }
    assert samples[..|samples|] == samples;
    OneIdentity(samples);
    if |gitShas| != 1 {
      return Rejected(DifferentCommits);
    }
    if |runners| != 1 {
      return Rejected(DifferentRunners);
    }
    r := Accepted((samples[0].gitSha, samples[0].runner));
  }

  lemma OneSampleMore(samples: seq<Sample>, i: nat)
    requires i < |samples|
    ensures Shas(samples[..i + 1]) == Shas(samples[..i]) + {samples[i].gitSha}
    ensures Runners(samples[..i + 1]) == Runners(samples[..i]) + {samples[i].runner}
  {
  }

  /** One commit and one runner in all is the same as everywhere those of the first sample. */
  lemma OneIdentity(samples: seq<Sample>)
    ensures |Shas(samples)| == 1 <==>
      samples != [] && forall i | 0 <= i < |samples| :: samples[i].gitSha == samples[0].gitSha
    ensures |Runners(samples)| == 1 <==>
      samples != [] && forall i | 0 <= i < |samples| :: samples[i].runner == samples[0].runner
  {
    if samples != [] {
      assert forall i | 0 <= i < |samples| ::
        samples[i].gitSha in Shas(samples) && samples[i].runner in Runners(samples);
      Singleton(Shas(samples), samples[0].gitSha);
      Singleton(Runners(samples), samples[0].runner);
    } else {
      assert Shas(samples) == {} && Runners(samples) == {};
    }
  }

  lemma Singleton<T>(s: set<T>, x: T)
    requires x in s
    ensures |s| == 1 <==> forall y | y in s :: y == x
  {
    var others := s - {x};
    assert s == others + {x};
    assert |s| == |others| + 1;
    if others != {} {
      var y :| y in others;
      assert y in s && y != x;
    }
  }

  // ----- The baseline -----

  const EVALUATION_SCHEMA: string := "benchmark.evaluation.v1"

  function ValuesOf(metrics: seq<MetricResult>): (values: map<string, real>)
  {
    if metrics == [] then map[]
    else ValuesOf(metrics[..|metrics| - 1])[metrics[|metrics| - 1].id := metrics[|metrics| - 1].observed]
  }

  lemma {:induction false} ValuesAreThere(metrics: seq<MetricResult>)
    ensures forall id :: id in ValuesOf(metrics) <==> exists i | 0 <= i < |metrics| :: metrics[i].id == id
    ensures DistinctIds(metrics) ==>
      forall i | 0 <= i < |metrics| ::
        metrics[i].id in ValuesOf(metrics) && ValuesOf(metrics)[metrics[i].id] == metrics[i].observed
  {
    if metrics != [] {
      var n := |metrics| - 1;
      ValuesAreThere(metrics[..n]);
      assert forall i | 0 <= i < n :: metrics[..n][i] == metrics[i];
    }
  }

  predicate DistinctIds(metrics: seq<MetricResult>) {
    forall i, j | 0 <= i < j < |metrics| :: metrics[i].id != metrics[j].id
  }

  method BaselineMetrics(metrics: seq<MetricResult>) returns (r: Checked<map<string, real>>)
    ensures r.Accepted? <==> DistinctIds(metrics) && forall i | 0 <= i < |metrics| :: metrics[i].observed >= 0.0
    ensures r.Accepted? ==> r.value == ValuesOf(metrics)
  {
    var values: map<string, real> := map[];
    for i := 0 to |metrics|
      invariant values == ValuesOf(metrics[..i]) && DistinctIds(metrics[..i])
      invariant forall k | 0 <= k < i :: metrics[k].observed >= 0.0
    {
      assert metrics[..i + 1][..i] == metrics[..i];
      ValuesAreThere(metrics[..i]);
      var metric := metrics[i];
      if metric.id in values {
        return Rejected(RepeatedBaselineMetric);
      }
      var observed := FiniteNumber(Number(metric.observed));
      if observed.Rejected? {
        return Rejected(observed.error);
      }
      values := values[metric.id := observed.value];
    }
    assert metrics[..|metrics|] == metrics;
    r := Accepted(values);
  }

  predicate SameRunner(a: Runner, b: Runner) {
    a.os == b.os && a.arch == b.arch && a.image == b.image
  }

  function BaselineError(config: Config, runner: Runner, baseline: Evaluation): Option<EvaluationError> {
    if baseline.benchmarkSchema != config.benchmarkSchema then Some(BaselineOfOtherSchema)
    else if baseline.sampleCount != config.sampleCount then Some(BaselineOfOtherSampleCount)
    else if baseline.configSha256 != config.sha256 then Some(BaselineOfOtherConfig)
    else if !SameRunner(baseline.runner, runner) then Some(BaselineOfOtherRunner)
    else None
  }

  /** What makes a document no baseline at all. */
  function NotABaseline(baseline: Evaluation): Option<EvaluationError> {
    var runner := baseline.runner;
    if baseline.schemaVersion != EVALUATION_SCHEMA then Some(UnknownBaselineSchema)
    else if !baseline.passed then Some(FailingBaseline)
    else if !IsGitSha(baseline.gitSha) then Some(BadGitSha)
    else if Blank(runner.os) || Blank(runner.arch) || Blank(runner.image) || Blank(runner.imageVersion) then
      Some(BlankRunnerField)
    else None
  }

  // ----- The gate -----

  function ConfigError(config: Config, samples: seq<Sample>): Option<EvaluationError> {
    if config.schemaVersion != "benchmark.thresholds.v1" then Some(UnknownConfigSchema)
    else if config.sampleCount < 2 then Some(BadSampleCount)
    else if |samples| != config.sampleCount then Some(WrongNumberOfSamples)
    else if exists i, j :: 0 <= i < j < |samples| && samples[i].path == samples[j].path then Some(RepeatedSamplePath)
    else if Blank(config.benchmarkSchema) then Some(BlankBenchmarkSchema)
    else None
  }

  function RunnerError(required: Runner, runner: Runner): Option<EvaluationError> {
    if Blank(required.os) || Blank(required.arch) || Blank(required.image) then Some(BlankRunnerField)
    else if !SameRunner(required, runner) then Some(UnexpectedRunner)
    else None
  }

  predicate BaselineFits(config: Config, runner: Runner, baseline: Evaluation) {
    && NotABaseline(baseline).None? && BaselineError(config, runner, baseline).None?
    && DistinctIds(baseline.metrics) && forall i | 0 <= i < |baseline.metrics| :: baseline.metrics[i].observed >= 0.0
  }

  /** The documents fit together; only the metrics remain to be judged. */
  predicate Admissible(config: Config, samples: seq<Sample>, baseline: Option<Evaluation>) {
    && ConfigError(config, samples).None? && config.metrics != []
    && SameIdentity(samples, config.benchmarkSchema) && RunnerError(config.runner, samples[0].runner).None?
    && (baseline.Some? ==> BaselineFits(config, samples[0].runner, baseline.value))
  }

  function Prior(baseline: Option<Evaluation>): Option<map<string, real>> {
    if baseline.None? then None else Some(ValuesOf(baseline.value.metrics))
  }

  predicate AllPassed(results: seq<MetricResult>) {
    forall i | 0 <= i < |results| :: results[i].passed
  }

  predicate CanEvaluate(config: Config, samples: seq<Sample>, baseline: Option<Evaluation>) {
    Admissible(config, samples, baseline) && EvaluateMetrics(config.metrics, samples, Prior(baseline)).Accepted?
  }

  function EvaluationOf(config: Config, samples: seq<Sample>, baseline: Option<Evaluation>): Evaluation
    requires CanEvaluate(config, samples, baseline)
  {
    var results := EvaluateMetrics(config.metrics, samples, Prior(baseline)).value;
    Evaluation(EVALUATION_SCHEMA, config.benchmarkSchema, samples[0].gitSha, samples[0].runner, |samples|,
               config.sha256,
               results, AllPassed(results))
  }

  method Evaluate(config: Config, samples: seq<Sample>, baseline: Option<Evaluation>) returns (r: Checked<Evaluation>)
    ensures r.Accepted? <==> CanEvaluate(config, samples, baseline)
    ensures r.Accepted? ==> r.value == EvaluationOf(config, samples, baseline)
    ensures r.Accepted? ==> Judges(config, samples, baseline, r.value)
  {
    hide EvaluateMetrics, SameIdentity, Blank, IsGitSha, ValuesOf, Judges;
    var configError := ConfigError(config, samples);
    if configError.Some? {
      return Rejected(configError.value);
    }
    var identity := CommonIdentity(samples, config.benchmarkSchema);
    if identity.Rejected? {
      return Rejected(identity.error);
    }
    var (gitSha, runner) := identity.value;
    var runnerError := RunnerError(config.runner, runner);
    if runnerError.Some? {
      return Rejected(runnerError.value);
    }
    var prior: Option<map<string, real>> := None;
    if baseline.Some? {
      var error := NotABaseline(baseline.value);
      if error.Some? {
        return Rejected(error.value);
      }
      var values := BaselineMetrics(baseline.value.metrics);
      if values.Rejected? {
        return Rejected(values.error);
      }
      error := BaselineError(config, runner, baseline.value);
      if error.Some? {
        return Rejected(error.value);
      }
      prior := Some(values.value);
    }
    if config.metrics == [] {
      return Rejected(NoMetrics);
    }
    var results := EvaluateAll(config.metrics, samples, prior);
    if results.Rejected? {
      return Rejected(results.error);
    }
    r := Accepted(Evaluation(EVALUATION_SCHEMA, config.benchmarkSchema, gitSha, runner, |samples|, config.sha256,
                             results.value, AllPassed(results.value)));
    VerdictIsExact(config, samples, baseline);
  }

  // ----- What an evaluation says, in terms of its documents -----

  /** The product of two numbers that are not negative. */
  predicate IsProduct(x: real, scale: Json, value: Json) {
    && scale.Number? && value.Number? && scale.x >= 0.0 && value.x >= 0.0
    && x == value.x * scale.x
  }

  predicate IsOnlyMeasurement(measurements: seq<Measurement>, id: string, i: nat) {
    && i < |measurements| && measurements[i].id == id
    && forall k | 0 <= k < |measurements| && k != i :: measurements[k].id != id
  }

  /** The value of a sample: a field of its one measurement of that name, or a derived one, times the scale. */
  predicate Reads(sample: Sample, source: Source, x: real) {
    match source
    case ProcessField(id, field, scale) =>
      exists i | 0 <= i < |sample.measurements| ::
        && IsOnlyMeasurement(sample.measurements, id, i)
        && var process := sample.measurements[i].process;
          process.Some? && field in process.value && IsProduct(x, scale, process.value[field])
    case DerivedField(field, scale) =>
      && sample.derived.Some? && field in sample.derived.value
      && IsProduct(x, scale, sample.derived.value[field])
    case OtherSource => false
  }

  lemma {:induction false} MatchingIsExact(measurements: seq<Measurement>, id: string)
    ensures |Matching(measurements, id)| == 0 <==> forall k | 0 <= k < |measurements| :: measurements[k].id != id
    ensures |Matching(measurements, id)| == 1 <==>
      exists i | 0 <= i < |measurements| :: IsOnlyMeasurement(measurements, id, i)
    ensures forall i | 0 <= i < |measurements| && IsOnlyMeasurement(measurements, id, i) ::
      Matching(measurements, id) == [measurements[i]]
  {
    if measurements != [] {
      var rest := measurements[1..];
      MatchingIsExact(rest, id);
      assert forall k | 0 < k < |measurements| :: measurements[k] == rest[k - 1];
      if measurements[0].id == id {
        if |Matching(rest, id)| == 0 {
          assert IsOnlyMeasurement(measurements, id, 0);
        }
      } else {
        forall i | 0 <= i < |measurements| && IsOnlyMeasurement(measurements, id, i)
          ensures i > 0 && IsOnlyMeasurement(rest, id, i - 1)
        {
        }
        if i :| 0 <= i < |rest| && IsOnlyMeasurement(rest, id, i) {
          assert IsOnlyMeasurement(measurements, id, i + 1);
        }
      }
    }
  }

  ghost predicate ReadsOnly(sample: Sample, source: Source, value: real) {
    forall x :: Reads(sample, source, x) <==> x == value
  }

  ghost predicate ReadsNothing(sample: Sample, source: Source) {
    forall x :: !Reads(sample, source, x)
  }

  /** A sample has a value exactly when there is one to be read. */
  lemma SourceValueIsExact(sample: Sample, source: Source)
    ensures match SourceValue(sample, source)
      case Accepted(value) => ReadsOnly(sample, source, value)
      case Rejected(_) => ReadsNothing(sample, source)
  {
    match source {
      case ProcessField(id, field, scale) =>
        MatchingIsExact(sample.measurements, id);
        hide Matching, IsOnlyMeasurement;
      case _ =>
    }
  }

  lemma {:induction false} SourceValuesAreExact(samples: seq<Sample>, source: Source)
    ensures match SourceValues(samples, source)
      case Accepted(values) => forall i | 0 <= i < |samples| :: ReadsOnly(samples[i], source, values[i])
      case Rejected(_) => exists i | 0 <= i < |samples| :: ReadsNothing(samples[i], source)
  {
    if samples != [] {
      SourceValueIsExact(samples[0], source);
      SourceValuesAreExact(samples[1..], source);
      hide ReadsOnly, ReadsNothing, SourceValue;
      assert forall i | 0 < i < |samples| :: samples[i] == samples[1..][i - 1];
    }
  }

  /** The value is within the absolute maximum and, given a prior value, within one of its two allowances. */
  predicate WithinLimit(metric: MetricConfig, prior: Option<real>, x: real) {
    && metric.maximum.Number? && x <= metric.maximum.x
    && match prior
       case None => true
       case Some(before) =>
         && metric.regression.Some?
         && metric.regression.value.maxRatio.Number? && metric.regression.value.absoluteTolerance.Number?
         && (|| x <= before * metric.regression.value.maxRatio.x
             || x <= before + metric.regression.value.absoluteTolerance.x)
  }

  /** The places of the samples whose values are within the limit. */
  ghost function GoodSamples(metric: MetricConfig, samples: seq<Sample>, prior: Option<real>): set<nat> {
    set i: nat | i < |samples| && exists x :: Reads(samples[i], metric.source, x) && WithinLimit(metric, prior, x)
  }

  /** At least 95 percent of the samples are within the limit, or all of them. */
  ghost predicate MetricPasses(metric: MetricConfig, samples: seq<Sample>, prior: Option<real>) {
    match metric.statistic
    case P95 => 20 * |GoodSamples(metric, samples, prior)| >= 19 * |samples|
    case Max => forall i | 0 <= i < |samples| :: i in GoodSamples(metric, samples, prior)
    case OtherStatistic => false
  }

  /** What the baseline observed of a metric, if there is a baseline. */
  predicate IsPrior(baseline: Option<Evaluation>, id: string, prior: Option<real>) {
    match baseline
    case None => prior.None?
    case Some(before) =>
      exists i | 0 <= i < |before.metrics| :: before.metrics[i].id == id && prior == Some(before.metrics[i].observed)
  }

  /** One result for each metric, in order; the evaluation passes exactly when every metric does. */
  ghost predicate Judges(config: Config, samples: seq<Sample>, baseline: Option<Evaluation>, r: Evaluation) {
    && IsLabelled(config, samples, r) && |r.metrics| == |config.metrics|
    && (forall i | 0 <= i < |config.metrics| :: JudgesMetric(config.metrics[i], samples, baseline, r.metrics[i]))
    && (r.passed <==> forall i | 0 <= i < |config.metrics| :: PassesGate(config.metrics[i], samples, baseline))
  }

  /** The evaluation is of this configuration, and of the commit and runner of all its samples. */
  predicate IsLabelled(config: Config, samples: seq<Sample>, r: Evaluation) {
    && r.schemaVersion == "benchmark.evaluation.v1" && r.benchmarkSchema == config.benchmarkSchema
    && r.configSha256 == config.sha256 && r.sampleCount == |samples|
    && forall i | 0 <= i < |samples| :: r.gitSha == samples[i].gitSha && r.runner == samples[i].runner
  }

  lemma EvaluationIsLabelled(config: Config, samples: seq<Sample>, baseline: Option<Evaluation>)
    requires CanEvaluate(config, samples, baseline)
    ensures samples != [] && IsLabelled(config, samples, EvaluationOf(config, samples, baseline))
  {
    hide EvaluateMetrics, RunnerError, BaselineFits, SampleError, AllPassed;
  }

  ghost predicate PassesGate(metric: MetricConfig, samples: seq<Sample>, baseline: Option<Evaluation>) {
    exists prior | IsPrior(baseline, metric.id, prior) :: MetricPasses(metric, samples, prior)
  }

  ghost predicate JudgesMetric(metric: MetricConfig, samples: seq<Sample>, baseline: Option<Evaluation>,
                               r: MetricResult) {
    && r.id == metric.id && |r.samples| == |samples| && IsPrior(baseline, metric.id, r.baselineObserved)
    && (forall i | 0 <= i < |samples| :: Reads(samples[i], metric.source, r.samples[i]))
    && (r.passed <==> PassesGate(metric, samples, baseline))
    && IsStatistic(metric.statistic, r.samples, r.observed)
    && forall x :: x <= r.effectiveMaximum <==> WithinLimit(metric, r.baselineObserved, x)
  }

  /** The least sample with at least 95 percent of the samples within it, or the largest of all. */
  predicate IsStatistic(statistic: StatisticName, values: seq<real>, observed: real) {
    && observed in values
    && match statistic
       case P95 =>
         && 20 * |PlacesWithin(values, observed)| >= 19 * |values|
         && forall i | 0 <= i < |values| && values[i] < observed ::
              20 * |PlacesWithin(values, values[i])| < 19 * |values|
       case Max => forall i | 0 <= i < |values| :: values[i] <= observed
       case OtherStatistic => false
  }

  lemma StatisticIsExact(statistic: StatisticName, values: seq<real>)
    requires values != [] && Observed(statistic, values).Accepted?
    ensures IsStatistic(statistic, values, Observed(statistic, values).value)
  {
    hide NearestRank, Maximum, Count, Share, PlacesWithin;
    if statistic == P95 {
      PercentileIsDefined(values);
      var observed := NearestRank(values, 0.95).value;
      NearestRankIsLeast(values, 0.95, observed);
      forall limit ensures observed <= limit <==> 20 * |PlacesWithin(values, limit)| >= 19 * |values| {
        NearestRankIsLeast(values, 0.95, limit);
        CountIsCardinality(values, limit);
        NineteenInTwenty(Count(values, limit), |values|);
      }
    }
  }

  /** The effective limit is the one that the absolute maximum and the two allowances make. */
  lemma LimitIsExact(metric: MetricConfig, samples: seq<Sample>, prior: Option<map<string, real>>, x: real)
    requires samples != [] && EvaluateMetric(metric, samples, prior).Accepted?
    ensures var r := EvaluateMetric(metric, samples, prior).value;
      && (prior.None? ==> r.baselineObserved.None?)
      && (prior.Some? ==> metric.id in prior.value && r.baselineObserved == Some(prior.value[metric.id]))
      && (x <= r.effectiveMaximum <==> WithinLimit(metric, r.baselineObserved, x))
  {
    hide Observed, SourceValues;
  }

  lemma GoodSamplesAreWithin(metric: MetricConfig, samples: seq<Sample>, prior: Option<map<string, real>>)
    requires samples != [] && EvaluateMetric(metric, samples, prior).Accepted?
    ensures var r := EvaluateMetric(metric, samples, prior).value;
      GoodSamples(metric, samples, r.baselineObserved) == PlacesWithin(r.samples, r.effectiveMaximum)
  {
    MetricPassesByCount(metric, samples, prior);
    SourceValuesAreExact(samples, metric.source);
    var r := EvaluateMetric(metric, samples, prior).value;
    hide EvaluateMetric, Reads, WithinLimit, SourceValues, Count;
    forall i: nat
      ensures i in GoodSamples(metric, samples, r.baselineObserved)
        <==> i in PlacesWithin(r.samples, r.effectiveMaximum)
    {
      if i < |samples| {
        LimitIsExact(metric, samples, prior, r.samples[i]);
      }
    }
  }

  lemma ResultIsExact(metric: MetricConfig, samples: seq<Sample>, prior: Option<map<string, real>>)
    requires samples != [] && EvaluateMetric(metric, samples, prior).Accepted?
    ensures var r := EvaluateMetric(metric, samples, prior).value;
      && r.id == metric.id && |r.samples| == |samples|
      && (forall i | 0 <= i < |samples| :: Reads(samples[i], metric.source, r.samples[i]))
      && (r.passed <==> MetricPasses(metric, samples, r.baselineObserved))
  {
    MetricPassesByCount(metric, samples, prior);
    SourceValuesAreExact(samples, metric.source);
    GoodSamplesAreWithin(metric, samples, prior);
    StatisticIsKnown(metric, samples, prior);
    hide EvaluateMetric, GoodSamples, SourceValues, Count, Share, PlacesWithin, Reads, MetricPasses;
    var r := EvaluateMetric(metric, samples, prior).value;
    forall i | 0 <= i < |samples| ensures Reads(samples[i], metric.source, r.samples[i]) {
      assert ReadsOnly(samples[i], metric.source, r.samples[i]);
    }
    PassingByCount(metric, samples, r.baselineObserved, r.samples, r.effectiveMaximum);
  }

  lemma PassingByCount(metric: MetricConfig, samples: seq<Sample>, prior: Option<real>, values: seq<real>, limit: real)
    requires |values| == |samples| && GoodSamples(metric, samples, prior) == PlacesWithin(values, limit)
    ensures metric.statistic == P95 ==>
      (MetricPasses(metric, samples, prior) <==> Count(values, limit) as real >= Share(0.95, |samples|))
    ensures metric.statistic == Max ==>
      (MetricPasses(metric, samples, prior) <==> forall i | 0 <= i < |values| :: values[i] <= limit)
  {
    CountIsCardinality(values, limit);
    NineteenInTwenty(Count(values, limit), |samples|);
    hide GoodSamples, Count, Share;
    assert forall i: nat | i < |values| :: i in PlacesWithin(values, limit) <==> values[i] <= limit;
  }

  lemma NineteenInTwenty(count: nat, n: nat)
    ensures count as real >= Share(0.95, n) <==> 20 * count >= 19 * n
  {
    assert Share(0.95, n) == 19.0 * n as real / 20.0;
    assert 20.0 * count as real == (20 * count) as real && 19.0 * n as real == (19 * n) as real;
  }

  lemma StatisticIsKnown(metric: MetricConfig, samples: seq<Sample>, prior: Option<map<string, real>>)
    requires samples != [] && EvaluateMetric(metric, samples, prior).Accepted?
    ensures metric.statistic == P95 || metric.statistic == Max
  {
    hide SourceValues;
  }

  lemma VerdictIsExact(config: Config, samples: seq<Sample>, baseline: Option<Evaluation>)
    requires CanEvaluate(config, samples, baseline)
    ensures Judges(config, samples, baseline, EvaluationOf(config, samples, baseline))
  {
    EvaluationIsLabelled(config, samples, baseline);
    hide EvaluateMetric, EvaluateMetrics, ConfigError, RunnerError, SameIdentity, NotABaseline, BaselineError,
         MetricPasses, Reads, IsLabelled;
    var metrics, prior := config.metrics, Prior(baseline);
    var results := EvaluationOf(config, samples, baseline).metrics;
    AllAccepted(metrics, samples, prior);
    hide ValuesOf, DistinctIds, JudgesMetric, PassesGate, CanEvaluate, Admissible;
    forall i | 0 <= i < |metrics| ensures JudgesMetric(metrics[i], samples, baseline, results[i]) {
      MetricIsJudged(metrics[i], samples, baseline);
    }
    AllAreJudged(metrics, samples, baseline, results);
  }

  lemma AllAreJudged(metrics: seq<MetricConfig>, samples: seq<Sample>, baseline: Option<Evaluation>,
                     results: seq<MetricResult>)
    requires |results| == |metrics|
    requires forall i | 0 <= i < |metrics| :: JudgesMetric(metrics[i], samples, baseline, results[i])
    ensures AllPassed(results) <==> forall i | 0 <= i < |metrics| :: PassesGate(metrics[i], samples, baseline)
  {
    hide PassesGate, IsPrior, Reads;
    if AllPassed(results) {
      forall i | 0 <= i < |metrics| ensures PassesGate(metrics[i], samples, baseline) {
        assert JudgesMetric(metrics[i], samples, baseline, results[i]);
      }
    } else {
      var i :| 0 <= i < |results| && !results[i].passed;
      assert JudgesMetric(metrics[i], samples, baseline, results[i]);
    }
  }

  lemma MetricIsJudged(metric: MetricConfig, samples: seq<Sample>, baseline: Option<Evaluation>)
    requires samples != [] && EvaluateMetric(metric, samples, Prior(baseline)).Accepted?
    requires baseline.Some? ==> DistinctIds(baseline.value.metrics)
    ensures JudgesMetric(metric, samples, baseline, EvaluateMetric(metric, samples, Prior(baseline)).value)
  {
    var r := EvaluateMetric(metric, samples, Prior(baseline)).value;
    ResultIsExact(metric, samples, Prior(baseline));
    LimitIsExact(metric, samples, Prior(baseline), 0.0);
    forall x ensures x <= r.effectiveMaximum <==> WithinLimit(metric, r.baselineObserved, x) {
      LimitIsExact(metric, samples, Prior(baseline), x);
    }
    ObservationIsStatistic(metric, samples, Prior(baseline));
    PriorIsExact(baseline, metric.id, r.baselineObserved);
    GateByPrior(metric, samples, baseline, r.baselineObserved);
    hide EvaluateMetric, MetricPasses, Reads, DistinctIds, ValuesOf, WithinLimit, IsPrior, IsStatistic, PassesGate;
  }

  lemma GateByPrior(metric: MetricConfig, samples: seq<Sample>, baseline: Option<Evaluation>, observed: Option<real>)
    requires forall prior :: IsPrior(baseline, metric.id, prior) <==> prior == observed
    ensures PassesGate(metric, samples, baseline) <==> MetricPasses(metric, samples, observed)
    ensures IsPrior(baseline, metric.id, observed)
  {
    hide MetricPasses, IsPrior;
  }

  lemma ObservationIsStatistic(metric: MetricConfig, samples: seq<Sample>, prior: Option<map<string, real>>)
    requires samples != [] && EvaluateMetric(metric, samples, prior).Accepted?
    ensures var r := EvaluateMetric(metric, samples, prior).value; IsStatistic(metric.statistic, r.samples, r.observed)
  {
    hide IsStatistic, Observed, SourceValues;
    StatisticIsExact(metric.statistic, SourceValues(samples, metric.source).value);
  }

  /** An admissible baseline has one observation of a metric at most. */
  lemma PriorIsExact(baseline: Option<Evaluation>, id: string, observed: Option<real>)
    requires baseline.Some? ==> DistinctIds(baseline.value.metrics)
    requires match baseline
      case None => observed.None?
      case Some(before) => id in ValuesOf(before.metrics) && observed == Some(ValuesOf(before.metrics)[id])
    ensures forall prior :: IsPrior(baseline, id, prior) <==> prior == observed
  {
    if baseline.Some? {
      ValuesAreThere(baseline.value.metrics);
      hide ValuesOf;
    }
  }

  ghost predicate IsReadable(sample: Sample, source: Source) {
    exists x :: Reads(sample, source, x)
  }

  /** Everything that the metric is judged by can be read. */
  ghost predicate CanJudge(metric: MetricConfig, samples: seq<Sample>, baseline: Option<Evaluation>) {
    && (forall i | 0 <= i < |samples| :: IsReadable(samples[i], metric.source))
    && (metric.statistic == P95 || metric.statistic == Max)
    && metric.maximum.Number? && metric.maximum.x >= 0.0
    && (baseline.Some? ==>
          && (exists i | 0 <= i < |baseline.value.metrics| :: baseline.value.metrics[i].id == metric.id)
          && metric.regression.Some?
          && metric.regression.value.maxRatio.Number? && metric.regression.value.maxRatio.x >= 0.0
          && metric.regression.value.absoluteTolerance.Number? && metric.regression.value.absoluteTolerance.x >= 0.0)
  }

  lemma JudgingIsExact(metric: MetricConfig, samples: seq<Sample>, baseline: Option<Evaluation>)
    requires samples != []
    ensures EvaluateMetric(metric, samples, Prior(baseline)).Accepted? <==> CanJudge(metric, samples, baseline)
  {
    AllReadable(samples, metric.source);
    AcceptedByParts(metric, samples, Prior(baseline));
    if baseline.Some? {
      RegressionIsExact(metric, baseline.value);
    }
    hide SourceValues, ValuesOf, IsReadable, EvaluateMetric, RegressionLimit, FiniteNumber;
  }

  lemma AcceptedByParts(metric: MetricConfig, samples: seq<Sample>, prior: Option<map<string, real>>)
    requires samples != []
    ensures EvaluateMetric(metric, samples, prior).Accepted? <==>
      && SourceValues(samples, metric.source).Accepted? && (metric.statistic == P95 || metric.statistic == Max)
      && metric.maximum.Number? && metric.maximum.x >= 0.0
      && (prior.Some? ==> RegressionLimit(metric, prior.value).Accepted?)
  {
    hide SourceValues, RegressionLimit, NearestRank, Maximum;
    if SourceValues(samples, metric.source).Accepted? {
      PercentileIsDefined(SourceValues(samples, metric.source).value);
    }
  }

  lemma RegressionIsExact(metric: MetricConfig, baseline: Evaluation)
    ensures RegressionLimit(metric, ValuesOf(baseline.metrics)).Accepted? <==>
      && (exists i | 0 <= i < |baseline.metrics| :: baseline.metrics[i].id == metric.id)
      && metric.regression.Some?
      && metric.regression.value.maxRatio.Number? && metric.regression.value.maxRatio.x >= 0.0
      && metric.regression.value.absoluteTolerance.Number? && metric.regression.value.absoluteTolerance.x >= 0.0
  {
    ValuesAreThere(baseline.metrics);
    hide ValuesOf, NoiseAwareLimit, DistinctIds;
  }

  lemma AllReadable(samples: seq<Sample>, source: Source)
    ensures SourceValues(samples, source).Accepted? <==>
      forall i | 0 <= i < |samples| :: IsReadable(samples[i], source)
  {
    SourceValuesAreExact(samples, source);
    hide Reads, SourceValues;
    var values := SourceValues(samples, source);
    if values.Accepted? {
      forall i | 0 <= i < |samples| ensures IsReadable(samples[i], source) {
        assert ReadsOnly(samples[i], source, values.value[i]);
        assert Reads(samples[i], source, values.value[i]);
      }
    } else {
      var i :| 0 <= i < |samples| && ReadsNothing(samples[i], source);
      assert !IsReadable(samples[i], source);
    }
  }

  predicate NamesImage(runner: Runner) {
    !Text.IsBlank(runner.os) && !Text.IsBlank(runner.arch) && !Text.IsBlank(runner.image)
  }

  predicate IsSha(text: string) {
    |text| == 40 && forall c | c in text :: '0' <= c <= '9' || 'a' <= c <= 'f'
  }

  /** A raw sample of the wanted schema with its origin, of this commit and runner. */
  predicate IsRawSample(sample: Sample, schema: string, gitSha: string, runner: Runner) {
    && sample.schemaVersion == schema && sample.thresholdStatus == "raw_sample" && !Text.IsBlank(sample.generatedAt)
    && sample.gitSha == gitSha && IsSha(gitSha)
    && sample.runner == runner && NamesImage(runner) && !Text.IsBlank(runner.imageVersion)
  }

  /** A passing evaluation of the same configuration, on the same kind of runner. */
  predicate IsBaselineFor(config: Config, runner: Runner, baseline: Evaluation) {
    && baseline.schemaVersion == "benchmark.evaluation.v1" && baseline.passed && IsSha(baseline.gitSha)
    && NamesImage(baseline.runner) && !Text.IsBlank(baseline.runner.imageVersion)
    && baseline.benchmarkSchema == config.benchmarkSchema && baseline.sampleCount == config.sampleCount
    && baseline.configSha256 == config.sha256
    && baseline.runner.os == runner.os && baseline.runner.arch == runner.arch && baseline.runner.image == runner.image
    && (forall i, j | 0 <= i < j < |baseline.metrics| :: baseline.metrics[i].id != baseline.metrics[j].id)
    && forall i | 0 <= i < |baseline.metrics| :: baseline.metrics[i].observed >= 0.0
  }

  /** The documents fit together. */
  predicate DocumentsFit(config: Config, samples: seq<Sample>, baseline: Option<Evaluation>) {
    && config.schemaVersion == "benchmark.thresholds.v1" && 2 <= config.sampleCount == |samples|
    && (forall i, j | 0 <= i < j < |samples| :: samples[i].path != samples[j].path)
    && !Text.IsBlank(config.benchmarkSchema)
    && (forall i | 0 <= i < |samples| ::
          IsRawSample(samples[i], config.benchmarkSchema, samples[0].gitSha, samples[0].runner))
    && NamesImage(config.runner) && config.runner.os == samples[0].runner.os
    && config.runner.arch == samples[0].runner.arch && config.runner.image == samples[0].runner.image
    && (baseline.Some? ==> IsBaselineFor(config, samples[0].runner, baseline.value))
    && config.metrics != []
  }

  /** An evaluation is made exactly when the documents fit, and the metrics are distinct and can each be judged. */
  lemma AcceptanceIsExact(config: Config, samples: seq<Sample>, baseline: Option<Evaluation>)
    ensures CanEvaluate(config, samples, baseline) <==>
      && DocumentsFit(config, samples, baseline)
      && (forall i, j | 0 <= i < j < |config.metrics| :: config.metrics[i].id != config.metrics[j].id)
      && forall i | 0 <= i < |config.metrics| :: CanJudge(config.metrics[i], samples, baseline)
  {
    AdmissionIsExact(config, samples, baseline);
    if |samples| > 0 {
      AllAccepted(config.metrics, samples, Prior(baseline));
      forall i | 0 <= i < |config.metrics|
        ensures EvaluateMetric(config.metrics[i], samples, Prior(baseline)).Accepted?
          <==> CanJudge(config.metrics[i], samples, baseline)
      {
        JudgingIsExact(config.metrics[i], samples, baseline);
      }
    }
    hide EvaluateMetric, EvaluateMetrics, CanJudge, IsRawSample, IsBaselineFor, NamesImage, Prior, Admissible;
  }

  lemma AdmissionIsExact(config: Config, samples: seq<Sample>, baseline: Option<Evaluation>)
    ensures Admissible(config, samples, baseline) <==> DocumentsFit(config, samples, baseline)
    ensures DocumentsFit(config, samples, baseline) ==> samples != []
  {
    ConfigIsExact(config, samples);
    hide ConfigError;
    RunnerIsNamed(config.runner);
    if samples != [] {
      IdentityIsExact(samples, config.benchmarkSchema);
      if baseline.Some? {
        BaselineIsExact(config, samples[0].runner, baseline.value);
      }
    }
    hide Blank, Text.IsBlank, IsBaselineFor, BaselineFits, SameIdentity, IsRawSample, NamesImage;
  }

  lemma ConfigIsExact(config: Config, samples: seq<Sample>)
    ensures ConfigError(config, samples).None? <==>
      && config.schemaVersion == "benchmark.thresholds.v1" && 2 <= config.sampleCount == |samples|
      && (forall i, j | 0 <= i < j < |samples| :: samples[i].path != samples[j].path)
      && !Text.IsBlank(config.benchmarkSchema)
  {
    BlankIsTrimmed(config.benchmarkSchema);
    hide Blank, Text.IsBlank;
  }

  lemma IdentityIsExact(samples: seq<Sample>, schema: string)
    requires samples != []
    ensures SameIdentity(samples, schema) <==>
      forall i | 0 <= i < |samples| :: IsRawSample(samples[i], schema, samples[0].gitSha, samples[0].runner)
  {
    forall i | 0 <= i < |samples|
      ensures SampleError(samples[i], schema).None?
        <==> IsRawSample(samples[i], schema, samples[i].gitSha, samples[i].runner)
      ensures IsRawSample(samples[i], schema, samples[0].gitSha, samples[0].runner)
        ==> samples[i].gitSha == samples[0].gitSha && samples[i].runner == samples[0].runner
    {
      SampleIsRaw(samples[i], schema);
    }
    hide SampleError, IsRawSample;
  }

  lemma BlankIsTrimmed(text: string)
    ensures Blank(text) <==> Text.IsBlank(text)
  {
    var _, _ := Text.TrimIsExact(text);
  }

  lemma RunnerIsNamed(runner: Runner)
    ensures NamesImage(runner) <==> !Blank(runner.os) && !Blank(runner.arch) && !Blank(runner.image)
    ensures Blank(runner.imageVersion) <==> Text.IsBlank(runner.imageVersion)
  {
    BlankIsTrimmed(runner.os);
    BlankIsTrimmed(runner.arch);
    BlankIsTrimmed(runner.image);
    BlankIsTrimmed(runner.imageVersion);
    hide Blank, Text.IsBlank;
  }

  lemma SampleIsRaw(sample: Sample, schema: string)
    ensures SampleError(sample, schema).None? <==> IsRawSample(sample, schema, sample.gitSha, sample.runner)
  {
    BlankIsTrimmed(sample.generatedAt);
    RunnerIsNamed(sample.runner);
    ShaByPlaces(sample.gitSha);
    hide Blank, Text.IsBlank, IsGitSha, IsSha, NamesImage;
  }

  lemma ShaByPlaces(text: string)
    ensures IsGitSha(text) <==> IsSha(text)
  {
    assert forall i | 0 <= i < |text| :: text[i] in text;
  }

  lemma BaselineIsExact(config: Config, runner: Runner, baseline: Evaluation)
    ensures BaselineFits(config, runner, baseline) <==> IsBaselineFor(config, runner, baseline)
  {
    RunnerIsNamed(baseline.runner);
    ShaByPlaces(baseline.gitSha);
    hide Blank, Text.IsBlank, IsGitSha, IsSha, NamesImage;
  }

  // ----- An evaluation as its own baseline -----

  predicate HasPolicy(metric: MetricConfig) {
    && metric.regression.Some?
    && FiniteNumber(metric.regression.value.maxRatio).Accepted?
    && FiniteNumber(metric.regression.value.absoluteTolerance).Accepted?
  }

  /** A metric that passed passes again with its own observation as the baseline, if it has a policy for baselines. */
  lemma OwnObservationPasses(metric: MetricConfig, samples: seq<Sample>, before: Option<map<string, real>>,
                             own: map<string, real>)
    requires samples != [] && EvaluateMetric(metric, samples, before).Accepted?
    requires metric.id in own && own[metric.id] == EvaluateMetric(metric, samples, before).value.observed
    ensures var again := EvaluateMetric(metric, samples, Some(own));
      && (again.Accepted? <==> HasPolicy(metric))
      && (again.Accepted? ==> again.value.observed == own[metric.id])
      && (again.Accepted? && EvaluateMetric(metric, samples, before).value.passed ==> again.value.passed)
  {
    hide Observed, SourceValues;
  }

  lemma ObservedIsNonNegative(metric: MetricConfig, samples: seq<Sample>, prior: Option<map<string, real>>)
    requires samples != [] && EvaluateMetric(metric, samples, prior).Accepted?
    ensures EvaluateMetric(metric, samples, prior).value.observed >= 0.0
    ensures EvaluateMetric(metric, samples, prior).value.id == metric.id
  {
    MetricPassesByCount(metric, samples, prior);
  }

  /**
   * A passing evaluation is an admissible baseline for its own samples. With it the evaluation passes again, metric
   * by metric, if every metric has a regression policy, and cannot be made at all otherwise.
   */
  lemma OwnBaselinePasses(config: Config, samples: seq<Sample>, before: Option<Evaluation>)
    requires CanEvaluate(config, samples, before) && EvaluationOf(config, samples, before).passed
    ensures var own := Some(EvaluationOf(config, samples, before));
      && Admissible(config, samples, own)
      && (CanEvaluate(config, samples, own) <==> forall i | 0 <= i < |config.metrics| :: HasPolicy(config.metrics[i]))
      && (CanEvaluate(config, samples, own) ==> EvaluationOf(config, samples, own).passed)
  {
    hide EvaluateMetric, EvaluateMetrics, ValuesOf, Blank, IsGitSha, HasPolicy;
    var evaluation := EvaluationOf(config, samples, before);
    var own, results, metrics := ValuesOf(evaluation.metrics), evaluation.metrics, config.metrics;
    AllAccepted(metrics, samples, Prior(before));
    forall i | 0 <= i < |metrics| ensures results[i].observed >= 0.0 && results[i].id == metrics[i].id {
      ObservedIsNonNegative(metrics[i], samples, Prior(before));
    }
    ValuesAreThere(results);
    AllAccepted(metrics, samples, Some(own));
    forall i | 0 <= i < |metrics|
      ensures var again := EvaluateMetric(metrics[i], samples, Some(own));
        (again.Accepted? <==> HasPolicy(metrics[i])) && (again.Accepted? ==> again.value.passed)
    {
      OwnObservationPasses(metrics[i], samples, Prior(before), own);
    }
    assert SampleError(samples[0], config.benchmarkSchema).None?;
  }
}
