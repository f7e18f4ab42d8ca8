/** The evaluation harness: run the model's eval entry point, look up the
    baseline and apply the gate. The eval entry point is a per-model plugin
    and is not part of this model; its result is an input here. */
module Harness {
  import opened Wrappers
  import opened Values
  import opened Metrics
  import opened Baselines

  const DefaultBaselineName: string := "heuristic"

  /** What `run_eval` returned: `nested` is the value under its "metrics"
      key when it has one, `top` its own numeric entries. */
  datatype EvalResult = EvalResult(nested: Option<map<string, real>>, top: map<string, real>)

  datatype HarnessResult = HarnessResult(
    metrics: map<string, real>,
    baselineMetrics: map<string, real>,
    gatePassed: bool,
    gateDetails: map<string, GateDetail>)

  /** `result.get("metrics", result)` */
  function MetricsOf(result: EvalResult): (m: map<string, real>)
    ensures result.nested.Some? ==> m == result.nested.value
    ensures result.nested.None? ==> m == result.top
  {
    if result.nested.Some? then result.nested.value else result.top
  }

  /** `baseline_name or "heuristic"` */
  function BaselineName(baselineName: Option<string>): (n: string)
    ensures baselineName.Some? && baselineName.value != "" ==> n == baselineName.value
    ensures baselineName.None? || baselineName.value == "" ==> n == DefaultBaselineName
  {
    if baselineName.Some? && baselineName.value != "" then baselineName.value else DefaultBaselineName
  }

  /** `gate_metrics or list(metrics.keys())`, as a set of names. */
  function GateNames(metrics: map<string, real>, gateMetrics: Option<seq<string>>): (names: set<string>)
    ensures gateMetrics.Some? && gateMetrics.value != [] ==> names == Elems(gateMetrics.value)
    ensures gateMetrics.None? || gateMetrics.value == [] ==> names == metrics.Keys
  {
    if gateMetrics.Some? && gateMetrics.value != [] then Elems(gateMetrics.value) else metrics.Keys
  }

  /** run_harness */
  method RunHarness(modelName: string, evalResult: EvalResult, config: Json,
                    baselineName: Option<string>, gateMetrics: Option<seq<string>>)
    returns (r: Result<HarnessResult>)
    ensures var metrics := MetricsOf(evalResult);
            var baseline := GetBaselineMetrics(modelName, BaselineName(baselineName), config);
      r.Ok? <==> baseline.Ok? && Gate(metrics, baseline.value, GateNames(metrics, gateMetrics), config).Ok?
    ensures var metrics := MetricsOf(evalResult);
            var baseline := GetBaselineMetrics(modelName, BaselineName(baselineName), config);
      r.Ok? ==>
        && r.value.metrics == metrics
        && r.value.baselineMetrics == baseline.value
        && Gate(metrics, baseline.value, GateNames(metrics, gateMetrics), config)
           == Ok(GateResult(r.value.gatePassed, r.value.gateDetails))
  {
    var metrics := MetricsOf(evalResult);
    var baseline := GetBaselineMetrics(modelName, BaselineName(baselineName), config);
    if baseline.Err? {
      return Err(baseline.error);
    }
    var names: seq<string>;
    if gateMetrics.Some? && gateMetrics.value != [] {
      names := gateMetrics.value;
    } else {
      names := KeysOf(metrics);
    }
    var gate := ComputeGateResult(metrics, baseline.value, names, config);
    if gate.Err? {
      return Err(gate.error);
    }
    r := Ok(HarnessResult(metrics, baseline.value, gate.value.allPassed, gate.value.details));
  }

  /** In default mode (no explicit gate metrics) every gate metric is one of
      the run's metrics, so no entry is missing_metric. */
  lemma DefaultGateHasNoMissingMetric(metrics: map<string, real>, baseline: map<string, real>, config: Json, name: string)
    requires Gate(metrics, baseline, GateNames(metrics, None), config).Ok?
    requires name in Gate(metrics, baseline, GateNames(metrics, None), config).value.details
    ensures Gate(metrics, baseline, GateNames(metrics, None), config).value.details[name] != MissingMetric
  {
  }

  /** With no configured baseline the lookup is empty, and then every gate
      metric the run reports passes as no_baseline (fail-open). */
  lemma NoConfiguredBaselineFailsOpen(modelName: string, metrics: map<string, real>, names: set<string>, config: Json, name: string)
    requires Setting(config, "eval", "baselines") == Ok(None)
    requires GateDeltaMin(config).Ok?
    requires name in names && name in metrics
    ensures GetBaselineMetrics(modelName, DefaultBaselineName, config) == Ok(map[])
    ensures Gate(metrics, map[], names, config).Ok?
    ensures Gate(metrics, map[], names, config).value.details[name] == NoBaseline
  {
    assert !Compares(metrics, map[], names);
  }
}
