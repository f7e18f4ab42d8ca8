/** Baseline metrics the gate compares against, read from the configuration. */
module Baselines {
  import opened Wrappers
  import opened Values

  /** `dict(value)` for a configured baseline, as the gate reads it: an entry
      holding None is the same as no entry (`base is None` gives no_baseline),
      ints, floats and bools are numbers (a bool subtracts as 0 or 1), and
      any other value raises. */
  function MetricMap(j: Json): (r: Result<map<string, real>>)
    ensures r.Ok? <==> j.Obj? && forall k :: k in j.fields ==> j.fields[k].Null? || AsNumber(j.fields[k]).Some?
    ensures r.Ok? ==> forall k :: k in r.value <==> k in j.fields && !j.fields[k].Null?
    ensures r.Ok? ==> forall k :: k in r.value ==> AsNumber(j.fields[k]) == Some(r.value[k])
  {
    if j.Obj? && forall k :: k in j.fields ==> j.fields[k].Null? || AsNumber(j.fields[k]).Some? then
      Ok(map k | k in j.fields && !j.fields[k].Null? :: AsNumber(j.fields[k]).value)
    else
      Err("TypeError: baseline value is not a number")
  }

  /** get_baseline_metrics: the configured `eval.baselines[baselineName]`,
      or the empty map (the fail-open signal) when there is none. */
  function GetBaselineMetrics(modelName: string, baselineName: string, config: Json): (r: Result<map<string, real>>)
    ensures !Truthy(config) ==> r == Ok(map[])
    ensures Setting(config, "eval", "baselines") == Ok(None) ==> r == Ok(map[])
    ensures var s := Setting(config, "eval", "baselines");
      s.Ok? && s.value.Some? && s.value.value.Obj? ==>
        r == if baselineName in s.value.value.fields then MetricMap(s.value.value.fields[baselineName]) else Ok(map[])
    ensures var s := Setting(config, "eval", "baselines");
      r.Err? <==> s.Err? || (s.value.Some? && !s.value.value.Obj?)
                  || (s.value.Some? && baselineName in s.value.value.fields && MetricMap(s.value.value.fields[baselineName]).Err?)
  {
    match SettingOr(config, "eval", "baselines", EmptyObj)
    case Err(e) => Err(e)
    case Ok(bs) =>
      if !bs.Obj? then Err("eval.baselines is not a mapping")
      else if baselineName in bs.fields then MetricMap(bs.fields[baselineName])
      else Ok(map[])
  }

  /** The lookup does not depend on the model name. */
  lemma BaselineIgnoresModelName(model1: string, model2: string, baselineName: string, config: Json)
    ensures GetBaselineMetrics(model1, baselineName, config) == GetBaselineMetrics(model2, baselineName, config)
  {
  }
}
