/** The promotion gate: compare a run's metrics with baseline metrics,
    metric by metric, and decide whether the run may be promoted. */
module Metrics {
  import opened Wrappers
  import opened Values

  /** One entry of `details`. */
  datatype GateDetail =
    | MissingMetric                                       // passed: False, reason: missing_metric
    | NoBaseline                                          // passed: True, reason: no_baseline
    | Compared(value: real, baseline: real, delta: real, passed: bool)

  datatype GateResult = GateResult(allPassed: bool, details: map<string, GateDetail>)

  predicate Passed(d: GateDetail)
  {
    match d
    case MissingMetric => false
    case NoBaseline => true
    case Compared(_, _, _, p) => p
  }

  /** `eval.gate_delta_min`, 0.0 when the configuration or the key is absent. */
  function GateDeltaMin(config: Json): (r: Result<Json>)
    ensures !Truthy(config) ==> r == Ok(Num(0.0))
    ensures config.Obj? && "eval" !in config.fields ==> r == Ok(Num(0.0))
    ensures (config.Obj? && "eval" in config.fields && config.fields["eval"].Obj?
             && "gate_delta_min" !in config.fields["eval"].fields) ==> r == Ok(Num(0.0))
    ensures r.Ok? <==> Setting(config, "eval", "gate_delta_min").Ok?
    ensures (config.Obj? && "eval" in config.fields && config.fields["eval"].Obj?
             && "gate_delta_min" in config.fields["eval"].fields) ==> r == Ok(config.fields["eval"].fields["gate_delta_min"])
  {
    SettingOr(config, "eval", "gate_delta_min", Num(0.0))
  }

  /** The verdict on one gate metric, given a numeric threshold. */
  function DetailFor(metrics: map<string, real>, baseline: map<string, real>, name: string, deltaMin: real): GateDetail
  {
    if name !in metrics then MissingMetric
    else if name !in baseline then NoBaseline
    else
      var delta := metrics[name] - baseline[name];
      Compared(metrics[name], baseline[name], delta, delta >= deltaMin)
  }

  function Details(metrics: map<string, real>, baseline: map<string, real>, names: set<string>, deltaMin: real): map<string, GateDetail>
  {
    map n | n in names :: DetailFor(metrics, baseline, n, deltaMin)
  }

  /** Some gate metric reaches the comparison with the threshold. */
  predicate Compares(metrics: map<string, real>, baseline: map<string, real>, names: set<string>)
  {
    exists n :: n in names && n in metrics && n in baseline
  }

  /** The gate as a function of the SET of gate metric names: the reference
      definition the loop in ComputeGateResult is proved against.
      A threshold that is not a number raises only once it is compared. */
  function Gate(metrics: map<string, real>, baseline: map<string, real>, names: set<string>, config: Json): Result<GateResult>
  {
    match GateDeltaMin(config)
    case Err(e) => Err(e)
    case Ok(t) =>
      if AsNumber(t).None? && Compares(metrics, baseline, names) then
        Err("TypeError: gate_delta_min is not a number")
      else
        var details := Details(metrics, baseline, names, OptionOr(AsNumber(t), 0.0));
        Ok(GateResult(AllPassed(details), details))
  }

  predicate AllPassed(details: map<string, GateDetail>)
  {
    forall n :: n in details ==> Passed(details[n])
  }

  /** compute_gate_result */
  method ComputeGateResult(metrics: map<string, real>, baseline: map<string, real>, gateMetricNames: seq<string>, config: Json)
    returns (r: Result<GateResult>)
    ensures r == Gate(metrics, baseline, Elems(gateMetricNames), config)
    ensures r.Ok? ==> r.value.details.Keys == Elems(gateMetricNames)
    ensures r.Ok? ==> (r.value.allPassed <==> forall n :: n in r.value.details ==> Passed(r.value.details[n]))
  {
    var thr := GateDeltaMin(config);
    if thr.Err? {
      return Err(thr.error);
    }
    var threshold := AsNumber(thr.value);
    var ok, allPassed, details := GateDetails(metrics, baseline, gateMetricNames, OptionOr(threshold, 0.0), threshold.None?);
    if !ok {
      return Err("TypeError: gate_delta_min is not a number");
    }
    r := Ok(GateResult(allPassed, details));
  }

  /** compute_gate_result's loop. `unusable` says the threshold is not a
      number: the loop stops (`ok` false) at the first metric it would
      compare with it. */
  method GateDetails(metrics: map<string, real>, baseline: map<string, real>, names: seq<string>, deltaMin: real, unusable: bool)
    returns (ok: bool, allPassed: bool, details: map<string, GateDetail>)
    ensures ok <==> !(unusable && Compares(metrics, baseline, Elems(names)))
    ensures ok ==> details == Details(metrics, baseline, Elems(names), deltaMin)
    ensures ok ==> allPassed == AllPassed(details)
  {
    details := map[];
    allPassed := true;
    var i := 0;
    while i < |names|
      invariant 0 <= i <= |names|
      invariant GateSoFar(metrics, baseline, names[..i], deltaMin, unusable, allPassed, details)
    {
      var name := names[i];
      assert names[..i + 1] == names[..i] + [name];
      if unusable && name in metrics && name in baseline {
        assert name in Elems(names) && name in metrics && name in baseline;
        assert Compares(metrics, baseline, Elems(names));
        return false, false, map[];
      }
      var detail := CheckMetric(metrics, baseline, name, deltaMin);
      GateStep(metrics, baseline, names[..i], name, deltaMin, unusable, allPassed, details);
      details := details[name := detail];
      allPassed := allPassed && Passed(detail);
      i := i + 1;
    }
    assert names[..i] == names;
    ok := true;
  }

  /** The loop's invariant after the names in `done`. */
  ghost predicate GateSoFar(metrics: map<string, real>, baseline: map<string, real>, done: seq<string>, deltaMin: real,
                            unusable: bool, allPassed: bool, details: map<string, GateDetail>)
  {
    && details == Details(metrics, baseline, Elems(done), deltaMin)
    && allPassed == AllPassed(details)
    && (unusable ==> !Compares(metrics, baseline, Elems(done)))
  }

  lemma GateStep(metrics: map<string, real>, baseline: map<string, real>, done: seq<string>, name: string, deltaMin: real,
                 unusable: bool, allPassed: bool, details: map<string, GateDetail>)
    requires GateSoFar(metrics, baseline, done, deltaMin, unusable, allPassed, details)
    requires !(unusable && name in metrics && name in baseline)
    ensures var d := DetailFor(metrics, baseline, name, deltaMin);
      GateSoFar(metrics, baseline, done + [name], deltaMin, unusable, allPassed && Passed(d), details[name := d])
  {
    var d := DetailFor(metrics, baseline, name, deltaMin);
    DetailsExtend(metrics, baseline, done, name, deltaMin);
    ComparesExtend(metrics, baseline, done, name);
    AllPassedUpdate(details, name, d);
  }

  /** The body of compute_gate_result's loop for one metric name. */
  method CheckMetric(metrics: map<string, real>, baseline: map<string, real>, name: string, deltaMin: real)
    returns (detail: GateDetail)
    ensures detail == DetailFor(metrics, baseline, name, deltaMin)
  {
    if name !in metrics {
      detail := MissingMetric;
    } else if name !in baseline {
      detail := NoBaseline;
    } else {
      var delta := metrics[name] - baseline[name];
      detail := Compared(metrics[name], baseline[name], delta, delta >= deltaMin);
    }
  }

  lemma ComparesExtend(metrics: map<string, real>, baseline: map<string, real>, s: seq<string>, name: string)
    ensures Compares(metrics, baseline, Elems(s + [name]))
        <==> Compares(metrics, baseline, Elems(s)) || (name in metrics && name in baseline)
  {
    assert Elems(s + [name]) == Elems(s) + {name};
  }

  lemma DetailsExtend(metrics: map<string, real>, baseline: map<string, real>, s: seq<string>, name: string, deltaMin: real)
    ensures Details(metrics, baseline, Elems(s + [name]), deltaMin)
         == Details(metrics, baseline, Elems(s), deltaMin)[name := DetailFor(metrics, baseline, name, deltaMin)]
  {
    assert Elems(s + [name]) == Elems(s) + {name};
  }

  lemma AllPassedUpdate(details: map<string, GateDetail>, name: string, d: GateDetail)
    requires name in details ==> details[name] == d
    ensures AllPassed(details[name := d]) <==> AllPassed(details) && Passed(d)
  {
    assert details[name := d][name] == d;
    if AllPassed(details[name := d]) {
      forall n | n in details ensures Passed(details[n]) {
        assert details[name := d][n] == details[n];
      }
    }
  }

  /** A gate metric absent from the run's metrics fails, and fails the gate. */
  lemma MissingMetricFailsGate(metrics: map<string, real>, baseline: map<string, real>, names: set<string>, config: Json, name: string)
    requires name in names && name !in metrics
    requires Gate(metrics, baseline, names, config).Ok?
    ensures Gate(metrics, baseline, names, config).value.details[name] == MissingMetric
    ensures !Gate(metrics, baseline, names, config).value.allPassed
  {
  }

  /** Fail-open: a present metric without a baseline passes, whatever its value. */
  lemma NoBaselinePasses(metrics: map<string, real>, baseline: map<string, real>, names: set<string>, config: Json, name: string)
    requires name in names && name in metrics && name !in baseline
    requires Gate(metrics, baseline, names, config).Ok?
    ensures Gate(metrics, baseline, names, config).value.details[name] == NoBaseline
  {
  }

  /** With both values present: delta = value - baseline, passed iff delta >= gate_delta_min. */
  lemma ComparedPassesIffDelta(metrics: map<string, real>, baseline: map<string, real>, names: set<string>, config: Json, name: string, deltaMin: real)
    requires name in names && name in metrics && name in baseline
    requires GateDeltaMin(config) == Ok(Num(deltaMin))
    ensures Gate(metrics, baseline, names, config).Ok?
    ensures var d := Gate(metrics, baseline, names, config).value.details[name];
      d.Compared? && d.delta == metrics[name] - baseline[name]
      && (Passed(d) <==> metrics[name] - baseline[name] >= deltaMin)
  {
  }

  /** The gate passes iff no gate metric is missing and every compared
      metric reaches the threshold. */
  lemma GatePassesIff(metrics: map<string, real>, baseline: map<string, real>, names: set<string>, deltaMin: real)
    ensures var g := Gate(metrics, baseline, names, Obj(map["eval" := Obj(map["gate_delta_min" := Num(deltaMin)])]));
      g.Ok? &&
      (g.value.allPassed <==>
        forall n :: n in names ==> n in metrics && (n in baseline ==> metrics[n] - baseline[n] >= deltaMin))
  {
    var g := Gate(metrics, baseline, names, Obj(map["eval" := Obj(map["gate_delta_min" := Num(deltaMin)])]));
    var details := Details(metrics, baseline, names, deltaMin);
    assert g == Ok(GateResult(AllPassed(details), details));
    if g.value.allPassed {
      forall n | n in names
        ensures n in metrics && (n in baseline ==> metrics[n] - baseline[n] >= deltaMin)
      {
        assert Passed(details[n]);
      }
    }
  }

  /** An empty list of gate metrics passes. */
  lemma EmptyGatePasses(metrics: map<string, real>, baseline: map<string, real>, config: Json)
    requires GateDeltaMin(config).Ok?
    ensures Gate(metrics, baseline, {}, config) == Ok(GateResult(true, map[]))
  {
  }

  /** The worked examples: auc 0.92 against 0.90 passes with delta 0.02,
      0.88 fails, no baseline passes, a missing metric fails. */
  lemma GateExamples()
    ensures Gate(map["auc" := 0.92], map["auc" := 0.90], {"auc"}, Null)
         == Ok(GateResult(true, map["auc" := Compared(0.92, 0.90, 0.02, true)]))
    ensures Gate(map["auc" := 0.88], map["auc" := 0.90], {"auc"}, Null).value.allPassed == false
    ensures Gate(map["auc" := 0.92], map[], {"auc"}, Null) == Ok(GateResult(true, map["auc" := NoBaseline]))
    ensures Gate(map[], map["auc" := 0.90], {"auc"}, Null) == Ok(GateResult(false, map["auc" := MissingMetric]))
  {
    var d := Details(map["auc" := 0.92], map["auc" := 0.90], {"auc"}, 0.0);
    assert d == map["auc" := Compared(0.92, 0.90, 0.02, true)];
    var d2 := Details(map["auc" := 0.92], map[], {"auc"}, 0.0);
    assert d2 == map["auc" := NoBaseline];
    var d3 := Details(map[], map["auc" := 0.90], {"auc"}, 0.0);
    assert d3 == map["auc" := MissingMetric];
    var d4 := Details(map["auc" := 0.88], map["auc" := 0.90], {"auc"}, 0.0);
    assert !Passed(d4["auc"]);
  }
}
