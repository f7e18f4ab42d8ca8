/** Canary rollout: the routing intent for a partial-traffic deployment and
    the comparison of live canary KPIs with baseline KPIs. */
module Canary {
  import opened Wrappers
  import opened Values

  const DefaultCanaryPercent: int := 10
  const DefaultTolerancePct: real := 5.0

  /** The routing intent; enforcing it is the traffic layer's business. */
  datatype RoutingSpec = RoutingSpec(modelName: string, newVersion: string, currentVersion: string, canaryPercent: Json)

  /** canary_spec: `deploy.canary_percent` from the configuration wins over
      the `percent` argument (whose default is DefaultCanaryPercent). */
  function CanarySpec(modelName: string, newVersion: string, currentVersion: string, percent: int, config: Json): (r: Result<RoutingSpec>)
    ensures r.Ok? <==> Setting(config, "deploy", "canary_percent").Ok?
    ensures r.Ok? ==> r.value.modelName == modelName && r.value.newVersion == newVersion
                      && r.value.currentVersion == currentVersion
    ensures r.Ok? ==> match Setting(config, "deploy", "canary_percent").value
                      case Some(p) => r.value.canaryPercent == p
                      case None => r.value.canaryPercent == Num(percent as real)
    ensures !Truthy(config) ==> r == Ok(RoutingSpec(modelName, newVersion, currentVersion, Num(percent as real)))
  {
    match SettingOr(config, "deploy", "canary_percent", Num(percent as real))
    case Err(e) => Err(e)
    case Ok(p) => Ok(RoutingSpec(modelName, newVersion, currentVersion, p))
  }

  /** One entry of the canary `details`. */
  datatype KpiDetail =
    | KpiMissing                                                      // passed: True, reason: missing
    | KpiNoBaseline                                                   // passed: True, reason: no_baseline
    | KpiChecked(canary: real, baseline: real, pctChange: real, passed: bool)

  predicate KpiPassed(d: KpiDetail)
  {
    match d
    case KpiMissing => true
    case KpiNoBaseline => true
    case KpiChecked(_, _, _, p) => p
  }

  predicate AllOk(details: map<string, KpiDetail>)
  {
    forall n :: n in details ==> KpiPassed(details[n])
  }

  /** `(c - b) / b * 100` */
  function PctChange(c: real, b: real): real
    requires b != 0.0
  {
    (c - b) / b * 100.0
  }

  /** The verdict on one KPI. A zero baseline short-circuits before the division. */
  function KpiFor(canary: map<string, real>, baseline: map<string, real>, name: string, tolerancePct: real): KpiDetail
  {
    if name !in canary || name !in baseline then KpiMissing
    else if baseline[name] == 0.0 then KpiNoBaseline
    else
      var pct := PctChange(canary[name], baseline[name]);
      KpiChecked(canary[name], baseline[name], pct, pct >= -tolerancePct)
  }

  function KpiDetails(canary: map<string, real>, baseline: map<string, real>, names: set<string>, tolerancePct: real): map<string, KpiDetail>
  {
    map n | n in names :: KpiFor(canary, baseline, n, tolerancePct)
  }

  /** `kpi_names or list(canary_metrics.keys())`, as a set of names. */
  function KpiNames(canary: map<string, real>, kpiNames: Option<seq<string>>): (names: set<string>)
    ensures kpiNames.Some? && kpiNames.value != [] ==> names == Elems(kpiNames.value)
    ensures (kpiNames.None? || kpiNames.value == []) ==> names == canary.Keys
  {
    if kpiNames.Some? && kpiNames.value != [] then Elems(kpiNames.value) else canary.Keys
  }

  /** check_canary_kpis */
  method CheckCanaryKpis(canary: map<string, real>, baseline: map<string, real>, kpiNames: Option<seq<string>>, tolerancePct: real)
    returns (allOk: bool, details: map<string, KpiDetail>)
    ensures details == KpiDetails(canary, baseline, KpiNames(canary, kpiNames), tolerancePct)
    ensures details.Keys == KpiNames(canary, kpiNames)
    ensures allOk <==> AllOk(details)
  {
    var names: seq<string>;
    if kpiNames.Some? && kpiNames.value != [] {
      names := kpiNames.value;
    } else {
      names := KeysOf(canary);
    }
    allOk, details := CompareKpis(canary, baseline, names, tolerancePct);
  }

  /** The loop of check_canary_kpis over the chosen KPI names. */
  method CompareKpis(canary: map<string, real>, baseline: map<string, real>, names: seq<string>, tolerancePct: real)
    returns (allOk: bool, details: map<string, KpiDetail>)
    ensures details == KpiDetails(canary, baseline, Elems(names), tolerancePct)
    ensures allOk <==> AllOk(details)
  {
    details := map[];
    allOk := true;
    var i := 0;
    while i < |names|
      invariant 0 <= i <= |names|
      invariant details == KpiDetails(canary, baseline, Elems(names[..i]), tolerancePct)
      invariant allOk == AllOk(details)
    {
      var name := names[i];
      KpiDetailsExtend(canary, baseline, names[..i], name, tolerancePct);
      assert names[..i + 1] == names[..i] + [name];
      var detail: KpiDetail;
      if name !in canary || name !in baseline {
        detail := KpiMissing;
      } else if baseline[name] == 0.0 {
        detail := KpiNoBaseline;
      } else {
        var c, b := canary[name], baseline[name];
        var pctChange := PctChange(c, b);
        var passed := pctChange >= -tolerancePct;
        detail := KpiChecked(c, b, pctChange, passed);
        if !passed {
          allOk := false;
        }
      }
      AllOkUpdate(details, name, detail);
      details := details[name := detail];
      i := i + 1;
    }
    assert names[..i] == names;
  }

  lemma KpiDetailsExtend(canary: map<string, real>, baseline: map<string, real>, s: seq<string>, name: string, tolerancePct: real)
    ensures KpiDetails(canary, baseline, Elems(s + [name]), tolerancePct)
         == KpiDetails(canary, baseline, Elems(s), tolerancePct)[name := KpiFor(canary, baseline, name, tolerancePct)]
  {
    assert Elems(s + [name]) == Elems(s) + {name};
  }

  lemma AllOkUpdate(details: map<string, KpiDetail>, name: string, d: KpiDetail)
    requires name in details ==> details[name] == d
    ensures AllOk(details[name := d]) <==> AllOk(details) && KpiPassed(d)
  {
    assert details[name := d][name] == d;
    if AllOk(details[name := d]) {
      forall n | n in details ensures KpiPassed(details[n]) {
        assert details[name := d][n] == details[n];
      }
    }
  }

  /** For a positive baseline the percentage rule is the same as: the canary
      may fall below the baseline by at most tolerancePct percent of it. */
  lemma PositiveBaselineTolerance(canary: map<string, real>, baseline: map<string, real>, name: string, tolerancePct: real)
    requires name in canary && name in baseline && baseline[name] > 0.0
    ensures KpiPassed(KpiFor(canary, baseline, name, tolerancePct))
        <==> canary[name] >= baseline[name] - baseline[name] * tolerancePct / 100.0
  {
    var c, b := canary[name], baseline[name];
    var pct := PctChange(c, b);
    assert pct * b == (c - b) * 100.0;
    if pct >= -tolerancePct {
      assert pct * b >= -tolerancePct * b;
    } else {
      assert pct * b < -tolerancePct * b;
    }
  }

  /** The canary passes iff every KPI present on both sides with a non-zero
      baseline has regressed by at most tolerancePct percent. */
  lemma CanaryOkIff(canary: map<string, real>, baseline: map<string, real>, names: set<string>, tolerancePct: real)
    ensures AllOk(KpiDetails(canary, baseline, names, tolerancePct)) <==>
      forall n :: n in names && n in canary && n in baseline && baseline[n] != 0.0 ==>
        PctChange(canary[n], baseline[n]) >= -tolerancePct
  {
    var details := KpiDetails(canary, baseline, names, tolerancePct);
    if AllOk(details) {
      forall n | n in names && n in canary && n in baseline && baseline[n] != 0.0
        ensures PctChange(canary[n], baseline[n]) >= -tolerancePct
      {
        assert KpiPassed(details[n]);
      }
    }
  }

  /** The worked examples: a 4% regression passes a 5% tolerance, a 10%
      regression fails it, and a zero baseline passes as no_baseline. */
  lemma CanaryExamples()
    ensures KpiFor(map["lat" := 96.0], map["lat" := 100.0], "lat", DefaultTolerancePct) == KpiChecked(96.0, 100.0, -4.0, true)
    ensures KpiFor(map["lat" := 90.0], map["lat" := 100.0], "lat", DefaultTolerancePct) == KpiChecked(90.0, 100.0, -10.0, false)
    ensures KpiFor(map["lat" := 100.0], map["lat" := 0.0], "lat", DefaultTolerancePct) == KpiNoBaseline
  {
  }
}
