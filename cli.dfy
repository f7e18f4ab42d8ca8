/** The command-line front end: configuration layering (defaults overlaid
    by the model's own configuration) and the exit codes of the eval and
    validate commands. The YAML documents, the registry directory and the
    CSV header are inputs; `None` for a document means its file does not
    exist. */
module Cli {
  import opened Wrappers
  import opened Values
  import opened Metrics
  import opened Baselines
  import opened Harness
  import opened RunRegistry
  import opened Contracts
  import opened Validate

  /** The value a model-config entry leaves under key `k`: a dict over a
      dict is merged one level deep, model entries winning; anything else
      replaces the default. */
  function MergeEntry(config: map<string, Json>, k: string, v: Json): Json
  {
    if v.Obj? && k in config && config[k].Obj? then Obj(config[k].fields + v.fields) else v
  }

  /** The defaults after every entry of the model config is applied. */
  function MergeSpec(config: map<string, Json>, model: map<string, Json>): map<string, Json>
  {
    map k | k in config.Keys + model.Keys :: if k in model then MergeEntry(config, k, model[k]) else config[k]
  }

  /** The layering rules: default keys the model config lacks are kept;
      where both values are dicts the result is their union with the model's
      entries winning; in every other case the model's value replaces the
      default. */
  lemma MergeProperties(config: map<string, Json>, model: map<string, Json>)
    ensures var r := MergeSpec(config, model);
      && r.Keys == config.Keys + model.Keys
      && (forall k :: k in config && k !in model ==> r[k] == config[k])
      && (forall k :: k in model && !(model[k].Obj? && k in config && config[k].Obj?) ==> r[k] == model[k])
      && (forall k :: k in model && model[k].Obj? && k in config && config[k].Obj? ==>
        && r[k].Obj?
        && r[k].fields.Keys == config[k].fields.Keys + model[k].fields.Keys
        && (forall j :: j in model[k].fields ==> r[k].fields[j] == model[k].fields[j])
        && (forall j :: j in config[k].fields && j !in model[k].fields ==> r[k].fields[j] == config[k].fields[j]))
  {
  }

  /** _load_config: what the configuration is after both files are read. A
      model document that is not a mapping, or a non-empty one over defaults
      that are not a mapping, raises. */
  function LoadConfigSpec(defaultsDoc: Option<Json>, modelName: Option<string>, modelDoc: Option<Json>): (r: Result<Json>)
  {
    var config := if defaultsDoc.Some? then OrEmpty(defaultsDoc.value) else EmptyObj;
    if modelName.None? || modelName.value == "" || modelDoc.None? then Ok(config)
    else
      var model := OrEmpty(modelDoc.value);
      if !model.Obj? then Err("AttributeError: model config is not a mapping")
      else if model.fields == map[] then Ok(config)
      else if !config.Obj? then Err("TypeError: defaults are not a mapping")
      else Ok(Obj(MergeSpec(config.fields, model.fields)))
  }

  /** `config` is the defaults with the model entries under `done` applied. */
  ghost predicate MergedSoFar(config: map<string, Json>, defaults: map<string, Json>, model: map<string, Json>, done: set<string>)
  {
    && done <= model.Keys
    && (forall j :: j in config <==> j in defaults || j in done)
    && (forall j :: j in done ==> config[j] == MergeEntry(defaults, j, model[j]))
    && (forall j :: j in defaults && j !in done ==> config[j] == defaults[j])
  }

  /** Applying the entry of one more key keeps MergedSoFar. */
  lemma MergedSoFarStep(config: map<string, Json>, defaults: map<string, Json>, model: map<string, Json>, done: set<string>, k: string)
    requires MergedSoFar(config, defaults, model, done)
    requires k in model && k !in done
    ensures MergeEntry(config, k, model[k]) == MergeEntry(defaults, k, model[k])
    ensures MergedSoFar(config[k := MergeEntry(config, k, model[k])], defaults, model, done + {k})
  {
  }

  /** Once every key is applied, the result is the merge. */
  lemma MergedSoFarDone(config: map<string, Json>, defaults: map<string, Json>, model: map<string, Json>)
    requires MergedSoFar(config, defaults, model, model.Keys)
    ensures config == MergeSpec(defaults, model)
  {
  }

  /** One iteration of the merge loop: `config[k] = {**config[k], **v}` when
      both are dicts, `config[k] = v` otherwise. */
  method ApplyEntry(config: map<string, Json>, k: string, v: Json) returns (c: map<string, Json>)
    ensures c == config[k := MergeEntry(config, k, v)]
  {
    if v.Obj? && k in config && config[k].Obj? {
      c := config[k := Obj(config[k].fields + v.fields)];
    } else {
      c := config[k := v];
    }
  }

  /** The merge loop of _load_config over the model config's entries. The
      entries are taken in any order: each key is visited once and only its
      own entry is read and written, so the order does not matter. */
  method MergeModelConfig(defaults: map<string, Json>, model: map<string, Json>) returns (config: map<string, Json>)
    ensures config == MergeSpec(defaults, model)
  {
    config := defaults;
    var rest := model.Keys;
    ghost var done: set<string> := {};
    while rest != {}
      invariant rest <= model.Keys && done == model.Keys - rest
      invariant MergedSoFar(config, defaults, model, done)
      decreases |rest|
    {
      var k :| k in rest;
      MergedSoFarStep(config, defaults, model, done, k);
      config := ApplyEntry(config, k, model[k]);
      done := done + {k};
      rest := rest - {k};
    }
    MergedSoFarDone(config, defaults, model);
  }

  /** _load_config */
  method LoadConfig(defaultsDoc: Option<Json>, modelName: Option<string>, modelDoc: Option<Json>) returns (r: Result<Json>)
    ensures r == LoadConfigSpec(defaultsDoc, modelName, modelDoc)
  {
    var config := EmptyObj;
    if defaultsDoc.Some? {
      config := OrEmpty(defaultsDoc.value);
    }
    if modelName.Some? && modelName.value != "" && modelDoc.Some? {
      var model := OrEmpty(modelDoc.value);
      if !model.Obj? {
        return Err("AttributeError: model config is not a mapping");
      }
      if model.fields != map[] {
        if !config.Obj? {
          return Err("TypeError: defaults are not a mapping");
        }
        var merged := MergeModelConfig(config.fields, model.fields);
        config := Obj(merged);
      }
    }
    r := Ok(config);
  }

  /** Without a model name, or without a model config, the configuration is
      the defaults (an empty mapping when there are none). */
  lemma NoModelConfigIsDefaults(defaultsDoc: Option<Json>, modelName: Option<string>, modelDoc: Option<Json>)
    requires modelName.None? || modelName.value == "" || modelDoc.None?
    ensures LoadConfigSpec(defaultsDoc, modelName, modelDoc)
         == Ok(if defaultsDoc.Some? then OrEmpty(defaultsDoc.value) else EmptyObj)
  {
  }

  /** The merge is one level deep: under a key where both sides are dicts,
      a nested dict of the model replaces the default's nested dict whole. */
  lemma MergeIsOneLevel(config: map<string, Json>, model: map<string, Json>, k: string, j: string)
    requires k in model && model[k].Obj? && k in config && config[k].Obj?
    requires j in model[k].fields && model[k].fields[j].Obj?
    requires j in config[k].fields && config[k].fields[j].Obj?
    ensures MergeSpec(config, model)[k].fields[j] == model[k].fields[j]
  {
  }

  /** Over no defaults, the model config is taken as it is. */
  lemma MergeOverEmpty(model: map<string, Json>)
    ensures MergeSpec(map[], model) == model
  {
  }

  /** Applying the model config twice is applying it once. */
  lemma MergeIdempotent(config: map<string, Json>, model: map<string, Json>)
    ensures MergeSpec(MergeSpec(config, model), model) == MergeSpec(config, model)
  {
    var once := MergeSpec(config, model);
    var twice := MergeSpec(once, model);
    forall k | k in twice ensures twice[k] == once[k] {
      if k in model && model[k].Obj? && k in config && config[k].Obj? {
        assert twice[k].fields == once[k].fields;
      }
    }
  }

  // ---- exit codes ----

  /** run_harness with its defaults passes the gate. */
  predicate HarnessPasses(modelName: string, evalResult: EvalResult, config: Json)
  {
    var metrics := MetricsOf(evalResult);
    var baseline := GetBaselineMetrics(modelName, DefaultBaselineName, config);
    && baseline.Ok?
    && Gate(metrics, baseline.value, metrics.Keys, config).Ok?
    && Gate(metrics, baseline.value, metrics.Keys, config).value.allPassed
  }

  /** `Path(config.get(section, {}).get(key, default))` does not raise: the
      lookup succeeds and a value that is present is a string (`Path` raises
      TypeError on None, numbers and the other YAML values). */
  predicate PathSettingOk(config: Json, section: string, key: string)
  {
    var s := Setting(config, section, key);
    s.Ok? && (s.value.Some? ==> s.value.value.Str?)
  }

  /** The `Path(...)` of one setting; false when it raises. */
  method PathLookup(config: Json, section: string, key: string) returns (ok: bool)
    ensures ok == PathSettingOk(config, section, key)
  {
    var s := Setting(config, section, key);
    ok := s.Ok? && (s.value.None? || s.value.value.Str?);
  }

  /** `run.get("artifact_path")` is truthy. */
  predicate HasArtifactPath(run: RunInfo)
  {
    run.Info? && run.artifactPath.Some? && run.artifactPath.value != ""
  }

  /** The configuration lookups cmd_eval makes before running the harness
      all succeed: the registry uri, which `Registry` turns into a `Path`;
      the artifacts root, likewise a `Path`, consulted only when the run has
      no artifact path; and the eval data path, consulted only when none is
      given. */
  predicate EvalLookupsOk(registry: Registry, modelName: string, runId: string, evalDataArg: Option<string>, config: Json)
    reads registry
  {
    var run := registry.GetRun(modelName, runId);
    && PathSettingOk(config, "registry", "uri")
    && (HasArtifactPath(run) || PathSettingOk(config, "artifacts", "root"))
    && ((evalDataArg.Some? && evalDataArg.value != "") || Setting(config, "data", "eval_path").Ok?)
  }

  /** cmd_eval: exit code 0 exactly when the gate passes; 1 when it fails and
      also when anything on the way raises, loading the configuration
      included (an escaping exception makes the interpreter exit with 1).
      `defaultsDoc` and `modelDoc` are the parsed defaults.yaml and
      model.yaml, `None` when the file does not exist; `evalResult` is the
      model's eval entry point's outcome, `Err` when it raised. */
  method CmdEval(registry: Registry, modelName: string, runId: string, evalDataArg: Option<string>,
                 defaultsDoc: Option<Json>, modelDoc: Option<Json>, evalResult: Result<EvalResult>)
    returns (code: int)
    ensures code == 0 || code == 1
    ensures LoadConfigSpec(defaultsDoc, Some(modelName), modelDoc).Err? ==> code == 1
    ensures code == 0 <==>
      var loaded := LoadConfigSpec(defaultsDoc, Some(modelName), modelDoc);
      && loaded.Ok?
      && EvalLookupsOk(registry, modelName, runId, evalDataArg, loaded.value)
      && evalResult.Ok? && HarnessPasses(modelName, evalResult.value, loaded.value)
  {
    var loaded := LoadConfig(defaultsDoc, Some(modelName), modelDoc);
    if loaded.Err? {
      return 1;
    }
    var config := loaded.value;
    var ok := EvalLookups(registry, modelName, runId, evalDataArg, config);
    if !ok || evalResult.Err? {
      return 1;
    }
    code := EvalGate(modelName, evalResult.value, config);
  }

  /** The lookups of cmd_eval before the harness runs; false when one raises. */
  method EvalLookups(registry: Registry, modelName: string, runId: string, evalDataArg: Option<string>, config: Json)
    returns (ok: bool)
    ensures ok == EvalLookupsOk(registry, modelName, runId, evalDataArg, config)
  {
    var uriOk := PathLookup(config, "registry", "uri");
    if !uriOk {
      return false;
    }
    var run := registry.GetRun(modelName, runId);
    if !HasArtifactPath(run) {
      var rootOk := PathLookup(config, "artifacts", "root");
      if !rootOk {
        return false;
      }
    }
    if !(evalDataArg.Some? && evalDataArg.value != "") && Setting(config, "data", "eval_path").Err? {
      return false;
    }
    return true;
  }

  /** The harness call of cmd_eval in default mode and its exit code. */
  method EvalGate(modelName: string, evalResult: EvalResult, config: Json) returns (code: int)
    ensures code == 0 || code == 1
    ensures code == 0 <==> HarnessPasses(modelName, evalResult, config)
  {
    var metrics := MetricsOf(evalResult);
    assert BaselineName(None) == DefaultBaselineName;
    assert GateNames(metrics, None) == metrics.Keys;
    var result := RunHarness(modelName, evalResult, config, None, None);
    if result.Err? {
      return 1;
    }
    code := if result.value.gatePassed then 0 else 1;
  }

  /** With no configuration at all there are no baselines, so every metric
      passes and cmd_eval exits 0 once the eval entry point returns. */
  lemma EmptyConfigEvalPasses(modelName: string, evalResult: EvalResult)
    ensures HarnessPasses(modelName, evalResult, EmptyObj)
  {
    var metrics := MetricsOf(evalResult);
    assert GetBaselineMetrics(modelName, DefaultBaselineName, EmptyObj) == Ok(map[]);
    GatePassesIff(metrics, map[], metrics.Keys, 0.0);
    assert GateDeltaMin(EmptyObj) == Ok(Num(0.0));
  }

  /** cmd_validate's contract: the truthy `data_contract` entry, loaded. */
  function ContractOf(config: Json): Result<DataContract>
  {
    if !config.Obj? then Err("AttributeError: configuration is not a mapping")
    else
      var cd := Get(config.fields, "data_contract", EmptyObj);
      if !Truthy(cd) then Err("No data_contract in model config")
      else LoadContractFromDict(cd)
  }

  /** cmd_validate's verdict: the contract loads and every column it names
      is in the CSV. */
  predicate ValidatePasses(config: Json, columns: set<string>)
  {
    ContractOf(config).Ok? && FrameErrors(columns, ContractOf(config).value) == []
  }

  /** The top-level names foundation/data/contracts.py binds, which is what
      `from ... import` can find: the two dataclasses it defines and the
      names it imports. The loader is not among them: it is defined in
      foundation/data/validate.py. */
  const ContractsModuleNames: set<string> :=
    {"FieldSpec", "DataContract", "annotations", "dataclass", "field", "Any", "List", "Optional"}

  const LoaderName: string := "load_contract_from_dict"

  /** The loader's name is not one the contracts module defines. */
  lemma LoaderMissing()
    ensures LoaderName !in ContractsModuleNames
  {
    assert LoaderName[0] == 'l';
    forall n | n in ContractsModuleNames ensures n[0] != 'l' {
    }
  }

  /** cmd_validate as written: it first imports the loader from the contracts
      module, whose top-level names are `contractsNames`; a missing name
      raises ImportError, and the interpreter exits with 1. */
  method CmdValidateAsWritten(contractsNames: set<string>, modelName: string,
                              defaultsDoc: Option<Json>, modelDoc: Option<Json>, columns: set<string>)
    returns (code: int)
    ensures code == 0 || code == 1
    ensures code == 0 <==>
      var loaded := LoadConfigSpec(defaultsDoc, Some(modelName), modelDoc);
      LoaderName in contractsNames && loaded.Ok? && ValidatePasses(loaded.value, columns)
  {
    if LoaderName !in contractsNames {
      return 1;
    }
    code := CmdValidate(modelName, defaultsDoc, modelDoc, columns);
  }

  /** With the contracts module as it is, cmd_validate as written never
      exits 0, whatever the configuration and the CSV. */
  lemma ValidateAsWrittenNeverPasses(config: Json, columns: set<string>)
    ensures !(LoaderName in ContractsModuleNames && ValidatePasses(config, columns))
  {
    LoaderMissing();
  }

  /** The configuration of the fraud detector's contract test. */
  const AmountConfig: Json := Obj(map["data_contract" := AmountContractJson])

  /** Read as model.yaml without a defaults file, the contract test's
      configuration is taken as it is. */
  lemma AmountConfigLoads()
    ensures LoadConfigSpec(None, Some("fraud_detector"), Some(AmountConfig)) == Ok(AmountConfig)
  {
    assert "data_contract" in AmountConfig.fields;
    MergeOverEmpty(AmountConfig.fields);
  }

  /** The contract test's configuration yields its contract. */
  lemma AmountConfigContract()
    ensures ContractOf(AmountConfig) == Ok(AmountContract)
  {
    var cd := Get(AmountConfig.fields, "data_contract", EmptyObj);
    assert cd == AmountContractJson && "name" in cd.fields;
    AmountContractLoads();
  }

  /** A valid contract and a CSV holding its column: cmd_validate with the
      loader imported from where it is defined exits 0, while the loader is
      not in the contracts module, so cmd_validate as written exits 1. The
      configuration is the test's, read as model.yaml without a defaults
      file. */
  lemma ValidateImportCounterexample()
    ensures LoadConfigSpec(None, Some("fraud_detector"), Some(AmountConfig)) == Ok(AmountConfig)
    ensures ValidatePasses(AmountConfig, {"amount"})
    ensures LoaderName !in ContractsModuleNames
  {
    AmountConfigLoads();
    AmountConfigContract();
    AmountContractChecks();
    LoaderMissing();
  }

  /** cmd_validate with the loader imported from foundation/data/validate.py,
      over the CSV's column names: 1 when the configuration does not load,
      there is no contract, it cannot be loaded, or a column is missing; 0
      otherwise. */
  method CmdValidate(modelName: string, defaultsDoc: Option<Json>, modelDoc: Option<Json>, columns: set<string>)
    returns (code: int)
    ensures code == 0 || code == 1
    ensures LoadConfigSpec(defaultsDoc, Some(modelName), modelDoc).Err? ==> code == 1
    ensures code == 0 <==>
      var loaded := LoadConfigSpec(defaultsDoc, Some(modelName), modelDoc);
      loaded.Ok? && ValidatePasses(loaded.value, columns)
  {
    var loaded := LoadConfig(defaultsDoc, Some(modelName), modelDoc);
    if loaded.Err? {
      return 1;
    }
    var config := loaded.value;
    var contract := ContractOf(config);
    if contract.Err? {
      return 1;
    }
    var errors := ValidateDataframe(columns, contract.value);
    if errors != [] {
      return 1;
    }
    return 0;
  }

  /** cmd_validate exits 0 exactly when every feature column, and the target
      column if there is a target, is in the CSV. */
  lemma ValidateExitIff(config: Json, columns: set<string>)
    requires ContractOf(config).Ok?
    ensures var c := ContractOf(config).value;
      FrameErrors(columns, c) == [] <==>
        (forall n :: n in FeatureNames(c) ==> n in columns)
        && (c.target.Some? ==> c.target.value.name in columns)
  {
    FrameErrorsCharacterised(columns, ContractOf(config).value);
  }
}
