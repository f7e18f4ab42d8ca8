# ai-model-foundation: model promotion and bookkeeping, in Dafny

This project models the promotion and bookkeeping core of ai-model-foundation, a small MLOps
toolkit that trains, evaluates, validates and deploys per-model plugins. The model covers:

- the **promotion gate**. A run's metrics are compared with baseline metrics, metric by metric,
  against `eval.gate_delta_min`. A missing metric fails. A metric with no baseline passes
  ("fail-open").
- the **baseline lookup** from the configuration and the **eval harness** that ties the two
  together.
- the **canary** routing spec and the canary KPI comparator. The comparator allows a
  percentage regression up to a tolerance and skips missing KPIs and zero baselines.
- the **serving spec** and the deploy placeholder. Rollback to a stored version, and the list
  of rollback candidates.
- the file-backed **run registry**: `log_run` upserts, `get_run` reads back a stripped
  artifact path, `list_runs` sorts descending and slices.
- **model bundles**: `save_bundle` and `load_bundle` over a directory of files.
- **data contracts**: `FieldSpec`, `DataContract` and `to_dict`; row and data-frame
  validation; `load_contract_from_dict`.
- the **KPI monitor**: three bounded buffers and the KPI summary.
- the CLI's **configuration layering**: defaults are overlaid one level deep by the model's
  config. Also the **exit codes** of `eval` and `validate`.

How Python values are represented:

- Configuration documents, row values and JSON metadata are a `Json` datatype.
- Python's truthiness (`x or {}`) is written out explicitly.
- `dict.get` on a value that is not a dict raises AttributeError in Python. The model returns
  an `Err` result there.
- Metric values are mathematical reals.

The code is followed where it departs from the repository's design notes:

- `eval` exits with 1 both when the gate fails and when anything raises. The design calls for
  a distinct code for a failed gate.
- `get_baseline_metrics` returns an empty map when no baseline is configured. Its docstring
  says it returns zeros.

Stateful parts are classes:

- `Registry` holds a map from (model, run id) to the files of the run directory.
- `BundleDisk` holds a map from directory path to the files in it.
- `Monitor` holds its three buffers.

Loops of the source are methods with loop invariants. Each is proved equal to a reference
function, and the properties are proved about that function:

- `compute_gate_result`, `check_canary_kpis`
- the `list_runs` sort, the `get_previous_versions` filter
- `validate_row`, `validate_dataframe`
- the `_load_config` merge

## Model

Source paths are relative to the repository snapshot.

| member | source | states |
|---|---|---|
| Wrappers.KeysOf | ai-model-foundation/foundation/eval/harness.py:36 | `list(metrics.keys())`: every key of the map, each once |
| Values.OrEmpty | ai-model-foundation/foundation/eval/metrics.py:19 | `config or {}`: a truthy config is kept; None, empty and other falsy values become `{}` |
| Values.AsNumber | ai-model-foundation/foundation/data/validate.py:24 | a value is numeric for comparisons exactly when it is an int, a float or a bool |
| Values.Setting | ai-model-foundation/foundation/eval/metrics.py:20 | `config.get(section, {}).get(key)`: a key present in a dict section gives its value; absent at either level gives None; a falsy config gives None; it raises iff a truthy config, or its section, is not a dict |
| Values.SettingOr | ai-model-foundation/foundation/deploy/serving.py:19-20 | the lookup with the caller's default: the configured value when the key is present, the default when it is absent; it raises exactly when the lookup raises |
| Metrics.GateDeltaMin | ai-model-foundation/foundation/eval/metrics.py:19-20 | the configured `eval.gate_delta_min` when present; 0.0 when the config, the `eval` section or the key is absent; it raises exactly when the lookup does |
| Metrics.ComputeGateResult | ai-model-foundation/foundation/eval/metrics.py:9-38 | the loop's result equals the reference gate over the set of gate names; the details have exactly the gate names as keys; all_passed holds iff every detail passed |
| Metrics.GateDetails | ai-model-foundation/foundation/eval/metrics.py:23-37 | the loop stops at the first metric it would compare with a non-numeric threshold, exactly when there is one; otherwise its details equal the reference details over the names, and all_passed iff each passed |
| Metrics.CheckMetric | ai-model-foundation/foundation/eval/metrics.py:24-37 | one name's verdict: missing metric, no baseline, or the delta compared with the threshold |
| Metrics.MissingMetricFailsGate | ai-model-foundation/foundation/eval/metrics.py:26-29 | a gate metric the run lacks is `missing_metric` and fails the gate |
| Metrics.NoBaselinePasses | ai-model-foundation/foundation/eval/metrics.py:30-32 | a metric without a baseline is `no_baseline`, whatever its value (fail-open) |
| Metrics.ComparedPassesIffDelta | ai-model-foundation/foundation/eval/metrics.py:33-37 | with both values present, delta = value - baseline, and the metric passes iff delta >= gate_delta_min |
| Metrics.GatePassesIff | ai-model-foundation/foundation/eval/metrics.py:21-38 | the gate passes iff every gate metric is present and each one with a baseline reaches the threshold |
| Metrics.EmptyGatePasses | ai-model-foundation/foundation/eval/metrics.py:21-38 | an empty list of gate metrics passes with empty details |
| Metrics.GateExamples | ai-model-foundation/foundation/eval/metrics.py:24-35 | auc 0.92 against 0.90 passes with delta 0.02; 0.88 fails; no baseline passes; a missing metric fails |
| Baselines.MetricMap | ai-model-foundation/foundation/eval/baselines.py:21-22 | a configured baseline as the gate reads it: every entry not holding None, with its numeric value (a bool as 0 or 1); None entries are absent; any other value raises |
| Baselines.GetBaselineMetrics | ai-model-foundation/foundation/eval/baselines.py:19-24 | the configured `eval.baselines[name]` when present, otherwise the empty map; a falsy or baseline-less config gives the empty map; exactly which shapes raise |
| Baselines.BaselineIgnoresModelName | ai-model-foundation/foundation/eval/baselines.py:10-24 | the lookup does not depend on the model name |
| Harness.MetricsOf | ai-model-foundation/foundation/eval/harness.py:34 | the eval result's `metrics` entry when it has one, else the result's own entries (numeric entries only, see Left out) |
| Harness.BaselineName | ai-model-foundation/foundation/eval/harness.py:35 | the given baseline name unless it is None or empty, else "heuristic" |
| Harness.GateNames | ai-model-foundation/foundation/eval/harness.py:36 | the given gate metrics unless None or empty, else every metric the run reports |
| Harness.RunHarness | ai-model-foundation/foundation/eval/harness.py:14-43 | succeeds iff the baseline lookup and the gate succeed; returns the metrics, the baseline and exactly the gate's verdict and details |
| Harness.DefaultGateHasNoMissingMetric | ai-model-foundation/foundation/eval/harness.py:36-37 | without explicit gate metrics no entry is `missing_metric` |
| Harness.NoConfiguredBaselineFailsOpen | ai-model-foundation/foundation/eval/baselines.py:20-24 | with no configured baselines the lookup is empty and every reported gate metric passes as `no_baseline` |
| Canary.CanarySpec | ai-model-foundation/foundation/deploy/canary.py:9-24 | names and versions are echoed; `deploy.canary_percent` overrides the argument; a falsy config gives the argument; it raises exactly when the lookup does |
| Canary.KpiNames | ai-model-foundation/foundation/deploy/canary.py:34 | the given KPI names unless None or empty, else every canary metric |
| Canary.CheckCanaryKpis | ai-model-foundation/foundation/deploy/canary.py:27-51 | the details are the reference verdicts over exactly the chosen KPI names; all_ok iff every verdict passed |
| Canary.CompareKpis | ai-model-foundation/foundation/deploy/canary.py:37-50 | the loop's details equal the reference verdicts for the names visited; all_ok iff all passed |
| Canary.PositiveBaselineTolerance | ai-model-foundation/foundation/deploy/canary.py:46-47 | for a positive baseline, a KPI passes iff canary >= baseline - baseline * tolerance / 100 |
| Canary.CanaryOkIff | ai-model-foundation/foundation/deploy/canary.py:37-51 | the canary passes iff every KPI present on both sides with a non-zero baseline regressed by at most the tolerance |
| Canary.CanaryExamples | ai-model-foundation/foundation/deploy/canary.py:40-48 | a 4% regression passes a 5% tolerance; a 10% regression fails; a zero baseline passes as `no_baseline` |
| Text.TrimLeft | ai-model-foundation/foundation/core/registry.py:51 | drops exactly the leading whitespace: the result is a suffix, starts with non-space, and everything cut was whitespace |
| Text.TrimRight | ai-model-foundation/foundation/core/registry.py:51 | drops exactly the trailing whitespace: the result is a prefix, ends with non-space, and everything cut was whitespace |
| Text.StripIsSlice | ai-model-foundation/foundation/core/registry.py:51 | `strip()` keeps the slice between the whitespace it cuts on both sides |
| Text.StripEnds | ai-model-foundation/foundation/core/registry.py:51 | a stripped string neither starts nor ends with whitespace |
| Text.StripUnchanged | ai-model-foundation/foundation/core/registry.py:51 | a string without surrounding whitespace is its own strip |
| Text.StripIdempotent | ai-model-foundation/foundation/core/registry.py:51 | stripping twice is stripping once |
| Text.UniversalNewlines | ai-model-foundation/foundation/core/registry.py:51 | `read_text()` leaves no carriage return and never lengthens the text |
| Text.UniversalNewlinesUnchanged | ai-model-foundation/foundation/core/registry.py:38-51 | text without carriage returns reads back as written |
| Text.StrLessIrreflexive | ai-model-foundation/foundation/core/registry.py:61 | Python's string order is irreflexive |
| Text.StrLessTransitive | ai-model-foundation/foundation/core/registry.py:61 | the string order is transitive |
| Text.StrLessTotal | ai-model-foundation/foundation/core/registry.py:61 | any two distinct strings are ordered one way or the other |
| Text.StrLessAsymmetric | ai-model-foundation/foundation/core/registry.py:61 | the string order is asymmetric |
| RunRegistry.Upsert | ai-model-foundation/foundation/core/registry.py:30-38 | logging creates the run; other runs are unchanged; each file is overwritten iff its argument is not None, otherwise kept |
| RunRegistry.RunInfoOf | ai-model-foundation/foundation/core/registry.py:43-52 | get_run always carries run_id and model_name; a run never logged has no other key |
| RunRegistry.SliceStop | ai-model-foundation/foundation/core/registry.py:61 | `[:limit]` keeps min(limit, n) items, and a negative limit counts from the end |
| RunRegistry.MaxOf | ai-model-foundation/foundation/core/registry.py:61 | picks the element every other one is below in string order |
| RunRegistry.Registry.constructor | ai-model-foundation/foundation/core/registry.py:15-19 | the registry opens over the backend and the run directories on disk |
| RunRegistry.Registry.LogRun | ai-model-foundation/foundation/core/registry.py:21-39 | on the local backend the runs become the upsert; on any other backend nothing changes |
| RunRegistry.Registry.GetRun | ai-model-foundation/foundation/core/registry.py:41-53 | `{}` off the local backend; otherwise the ids, the stored metrics and params, and the stored artifact path read back and stripped, each present iff its file exists |
| RunRegistry.Registry.ListRuns | ai-model-foundation/foundation/core/registry.py:55-62 | the model's run ids in strictly descending string order, sliced to the limit, each above every id left out; `[]` off the local backend |
| RunRegistry.GetAfterLog | ai-model-foundation/foundation/core/registry.py:30-51 | after log_run, get_run returns the logged metrics and params and the stripped artifact path |
| RunRegistry.PlainPathReadsBack | ai-model-foundation/foundation/core/registry.py:38-51 | a path without carriage returns or surrounding whitespace reads back unchanged |
| RunRegistry.LogRunIdempotent | ai-model-foundation/foundation/core/registry.py:30-38 | logging the same arguments twice is logging once |
| RunRegistry.LoggedRunIsListed | ai-model-foundation/foundation/core/registry.py:31-32 | any log_run, even with every field None, adds exactly that run id to the model's listable runs |
| RunRegistry.ListRunsExample | ai-model-foundation/foundation/core/registry.py:61 | after run_a, run_b and run_c, limit 2 lists run_c, run_b |
| Serving.GetServingSpec | ai-model-foundation/foundation/deploy/serving.py:10-32 | echoes model, version, path and target; the env maps MODEL_NAME, MODEL_VERSION and ARTIFACT_PATH; replicas come from `staging_replicas` (default 1) for staging and `prod_replicas` (default 2) otherwise |
| Serving.NoConfigIsEmptyConfig | ai-model-foundation/foundation/deploy/serving.py:18-20 | no config behaves as `{}` and gives the default replica counts |
| Serving.DeployToTarget | ai-model-foundation/foundation/deploy/serving.py:35-45 | the placeholder succeeds iff the spec can be derived, which depends only on the shape of the `deploy` section |
| Rollback.ResolveArtifactPath | ai-model-foundation/foundation/deploy/rollback.py:24 | the registry's artifact path unless it is absent or empty, else `./artifacts/<model>/<version>` |
| Rollback.RollbackToVersion | ai-model-foundation/foundation/deploy/rollback.py:12-31 | deploys the given version to prod, with the stored, stripped artifact path when non-empty, else the default path; it raises exactly when deploying does |
| Rollback.Without | ai-model-foundation/foundation/deploy/rollback.py:38 | the filter removes exactly the current version and keeps everything else |
| Rollback.GetPreviousVersions | ai-model-foundation/foundation/deploy/rollback.py:34-38 | the candidates are list_runs' result with the current version removed, then sliced to the limit |
| Rollback.CandidatesProperties | ai-model-foundation/foundation/deploy/rollback.py:34-38 | the candidates never include the current version, keep list_runs' order, are descending, and are at most `limit` long |
| Artifacts.SavedDirectory | ai-model-foundation/foundation/core/artifacts.py:13-19 | both model files hold the model; metadata.json is written iff metadata is given, else any existing one is kept; other files are untouched |
| Artifacts.LoadFrom | ai-model-foundation/foundation/core/artifacts.py:23-33 | loads iff the directory exists, the model file it picks (model.bin when present, else model.joblib) holds a model, and any metadata.json holds JSON; the model comes from that file; absent metadata.json reads as `{}` |
| Artifacts.SaveThenLoad | ai-model-foundation/foundation/core/artifacts.py:11-33 | loading after saving with metadata returns the same model and metadata |
| Artifacts.SaveWithoutMetadataThenLoad | ai-model-foundation/foundation/core/artifacts.py:17-32 | without metadata a fresh bundle loads with `{}`, and an earlier metadata.json survives |
| Artifacts.BundleDisk.SaveBundle | ai-model-foundation/foundation/core/artifacts.py:11-20 | returns the path; only that directory changes, to the saved directory; load_bundle then returns the model with the given metadata, or with `{}` for a new directory saved without metadata |
| Artifacts.BundleDisk.LoadBundle | ai-model-foundation/foundation/core/artifacts.py:23-33 | a missing directory raises; otherwise it loads iff the chosen model file holds a model and any metadata.json holds JSON, returning that model and the metadata (`{}` when there is no metadata.json) |
| Contracts.FeatureNames | ai-model-foundation/foundation/data/contracts.py:30-31 | the feature names have the same length and order as the features |
| Contracts.StrList | ai-model-foundation/foundation/data/contracts.py:56 | the identifiers are written as a list of the same strings in order |
| Contracts.ToDict | ai-model-foundation/foundation/data/contracts.py:33-57 | five keys; features in order, each with all six fields; target is None iff absent, else only name, dtype and required |
| Validate.Lookup | ai-model-foundation/foundation/data/validate.py:16 | `row.get(name)` is None iff the key is absent, otherwise its value |
| Validate.FeatureErrors | ai-model-foundation/foundation/data/validate.py:15-27 | a required feature that is absent or None yields exactly one "missing required" error; an optional one yields none; a non-numeric value skips the range checks; each error names the feature |
| Validate.TargetErrors | ai-model-foundation/foundation/data/validate.py:28-30 | "missing target" iff a required target's key is absent (a present None is fine) |
| Validate.CheckFeature | ai-model-foundation/foundation/data/validate.py:16-27 | the loop body reports exactly the feature's errors |
| Validate.ValidateRow | ai-model-foundation/foundation/data/validate.py:12-31 | the loop's errors equal the reference errors of the row |
| Validate.FeatureErrorsEmptyIff | ai-model-foundation/foundation/data/validate.py:16-27 | a feature has no errors iff its value meets every constraint |
| Validate.FeaturesErrorsEmptyIff | ai-model-foundation/foundation/data/validate.py:15-27 | the features have no errors iff each feature conforms |
| Validate.RowErrorsEmptyIff | ai-model-foundation/foundation/data/validate.py:12-31 | validate_row returns no errors iff the row meets every constraint of the contract |
| Validate.MissingRequiredReported | ai-model-foundation/foundation/data/validate.py:17-19 | a required feature that is absent or None is reported among the row's errors |
| Validate.RowErrorsNameContractFields | ai-model-foundation/foundation/data/validate.py:12-31 | every error names a feature or the target |
| Validate.MissingColumns | ai-model-foundation/foundation/data/validate.py:37-39 | one "missing column" per absent feature column, and only those |
| Validate.ValidateDataframe | ai-model-foundation/foundation/data/validate.py:34-43 | the loop's errors equal the reference errors over the frame's columns |
| Validate.FrameErrorsCharacterised | ai-model-foundation/foundation/data/validate.py:34-43 | a missing column is reported iff it is a feature or the target (required or not) absent from the columns; no errors iff all exist; row values are never read |
| Validate.LoadBound | ai-model-foundation/foundation/data/validate.py:54-55 | null is no bound, and a number is that bound |
| Validate.LoadField | ai-model-foundation/foundation/data/validate.py:49-56 | the name is required; dtype defaults to "float" and required to true; a present dtype, required, allowed_values, min_val or max_val is the one stored, a null one is None; a target gets no allowed values or bounds |
| Validate.LoadFeatures | ai-model-foundation/foundation/data/validate.py:48-58 | succeeds iff every entry loads as a FieldSpec; then one FieldSpec per entry, in order, each the entry's own |
| Validate.LoadFeatureList | ai-model-foundation/foundation/data/validate.py:57 | a list is loaded entry by entry; None raises |
| Validate.LoadStrings | ai-model-foundation/foundation/data/validate.py:68 | succeeds iff every entry is a string; then the same strings in order |
| Validate.LoadContractFromDict | ai-model-foundation/foundation/data/validate.py:46-69 | a non-dict raises; the target is None iff the `target` entry is falsy; defaults: name "contract", version "1.0", no features, no identifiers |
| Validate.FeatureRoundTrip | ai-model-foundation/foundation/data/contracts.py:37-47 | a feature's dict loads back to the same feature |
| Validate.TargetRoundTrip | ai-model-foundation/foundation/data/validate.py:60-62 | the target's dict is truthy and loads back to the target when it has no allowed values or bounds |
| Validate.ContractRoundTrip | ai-model-foundation/foundation/data/validate.py:46-69 | `load_contract_from_dict(c.to_dict()) == c` whenever the target has no allowed values or bounds |
| Validate.LoaderDefaults | ai-model-foundation/foundation/data/validate.py:48-68 | the loader's defaults are the dataclasses' defaults |
| Validate.AmountContractLoads | ai-model-foundation/foundation/data/validate.py:46-69 | the contract dict of the fraud detector's contract test loads to one required float feature "amount" (the test module's own import of the loader fails, see Findings) |
| Validate.AmountContractChecks | ai-model-foundation/foundation/data/validate.py:12-43 | the contract test's expectations: an empty row misses the required amount; a row with an amount passes; a frame without the column reports it; one with it passes |
| Monitoring.Bounded | ai-model-foundation/foundation/observability/monitor.py:15-17 | a `deque(maxlen=n)` holds the last n elements appended, never more |
| Monitoring.BoundedAppend | ai-model-foundation/foundation/observability/monitor.py:19-26 | appending puts the element at the end; a full buffer drops its oldest element; a zero-size buffer stays empty |
| Monitoring.Insert | ai-model-foundation/foundation/observability/monitor.py:51 | inserting into a sorted list keeps it sorted and adds exactly that element |
| Monitoring.Sort | ai-model-foundation/foundation/observability/monitor.py:51 | `sorted` is ascending and a permutation of the buffer |
| Monitoring.SortedLastIsMax | ai-model-foundation/foundation/observability/monitor.py:54 | the last sorted latency is the largest one recorded |
| Monitoring.P99Index | ai-model-foundation/foundation/observability/monitor.py:54 | the p99 index is always within the buffer |
| Monitoring.Monitor.constructor | ai-model-foundation/foundation/observability/monitor.py:13-17 | three empty buffers of the given window size |
| Monitoring.Monitor.RecordPrediction | ai-model-foundation/foundation/observability/monitor.py:19-20 | appends to the prediction buffer only, within the window |
| Monitoring.Monitor.RecordLatency | ai-model-foundation/foundation/observability/monitor.py:22-23 | appends to the latency buffer only, within the window |
| Monitoring.Monitor.RecordError | ai-model-foundation/foundation/observability/monitor.py:25-26 | appends to the error buffer only, within the window |
| Monitoring.Monitor.Kpis | ai-model-foundation/foundation/observability/monitor.py:47-55 | the counts are the buffer lengths; the percentiles are present iff a latency is recorded; both are recorded latencies; p50 = sorted[n/2] <= p99 = sorted[p99 index]; no buffer changes |
| Monitoring.Monitor.DriftLiteKeys | ai-model-foundation/foundation/observability/monitor.py:28-45 | the keys are among current_mean, current_std, reference_mean, delta_mean and reference_std; none iff no prediction is recorded; otherwise current_mean and current_std, reference_mean and delta_mean each exactly when a reference mean is given, and reference_std exactly when a reference std is given |
| Monitoring.SmallWindowP99IsMax | ai-model-foundation/foundation/observability/monitor.py:54 | with fewer than 100 latencies p99 is the maximum |
| Monitoring.FullBufferEvicts | ai-model-foundation/foundation/observability/monitor.py:15-26 | recording into a full buffer keeps its length and drops the oldest element |
| Cli.MergeProperties | ai-model-foundation/foundation/cli.py:27-31 | default keys the model lacks are kept; dict over dict gives their union with the model winning; every other model value replaces the default |
| Cli.ApplyEntry | ai-model-foundation/foundation/cli.py:28-31 | one loop step updates only its own key |
| Cli.MergeModelConfig | ai-model-foundation/foundation/cli.py:27-31 | the loop's result equals the reference merge, whatever order the entries are visited in |
| Cli.LoadConfig | ai-model-foundation/foundation/cli.py:17-32 | the loaded configuration equals the reference layering, including which document shapes raise |
| Cli.NoModelConfigIsDefaults | ai-model-foundation/foundation/cli.py:20-25 | without a model name or model config the result is the defaults (`{}` when none) |
| Cli.MergeIsOneLevel | ai-model-foundation/foundation/cli.py:28-29 | a nested dict below the first level is replaced whole, not merged |
| Cli.MergeIdempotent | ai-model-foundation/foundation/cli.py:27-31 | overlaying the same model config twice is overlaying it once |
| Cli.CmdEval | ai-model-foundation/foundation/cli.py:78-94 | the exit code is 0 or 1; a configuration that does not load exits 1; 0 iff the configuration loads, the registry uri and (without a stored artifact path) the artifacts root are absent or strings that `Path` accepts, the eval data path can be looked up, the eval entry point returns, and the gate passes |
| Cli.EvalGate | ai-model-foundation/foundation/cli.py:86-94 | exit 0 iff the harness in default mode succeeds and its gate passes, else 1 |
| Cli.EmptyConfigEvalPasses | ai-model-foundation/foundation/eval/harness.py:35-37 | with no configuration every metric passes, so eval exits 0 once the entry point returns |
| Cli.CmdValidateAsWritten | ai-model-foundation/foundation/cli.py:35-52 | as written: exit 0 iff the contracts module binds the imported loader, the configuration loads and validation passes; otherwise 1 (the ImportError comes first) |
| Cli.ValidateAsWrittenNeverPasses | ai-model-foundation/foundation/cli.py:36 | with foundation/data/contracts.py as it is, cmd_validate never exits 0 |
| Cli.ValidateImportCounterexample | ai-model-foundation/foundation/cli.py:36 | the contract test's dict as model.yaml, without a defaults file, loads as it is and passes the corrected validate with an `amount` column, while the loader is not bound in the contracts module |
| Cli.CmdValidate | ai-model-foundation/foundation/cli.py:35-52 | with the loader imported from where it is defined: the exit code is 0 or 1; a configuration that does not load exits 1; 0 iff the configuration loads, a `data_contract` is present and loads, and every feature and target column exists |
| Cli.ValidateExitIff | ai-model-foundation/foundation/cli.py:46-52 | the corrected validate passes iff all feature columns and the target column are in the CSV |

## Findings

| source | as written | input that shows it | evidently intended | confidence | as-written member | corrected member |
|---|---|---|---|---|---|---|
| ai-model-foundation/foundation/cli.py:36 | `cmd_validate` imports `load_contract_from_dict` from foundation/data/contracts.py, which neither defines nor imports it (it is in foundation/data/validate.py:46). Every `validate` run raises ImportError and exits 1. The contract test (models/fraud_detector/tests/test_contracts.py:13) makes the same import. | model.yaml holding only a `data_contract` with one required feature `amount`, no defaults file, and a CSV whose columns include `amount` | import the loader from foundation.data.validate; exit 0 when every contract column exists | high; not executed | Cli.CmdValidateAsWritten, Cli.ValidateAsWrittenNeverPasses, Cli.ValidateImportCounterexample | Cli.CmdValidate |

## Left out

- Harness.RunHarness: `run_eval` is a per-model plugin reached by dynamic import. Its result is an input.
- Cli.CmdEval: the eval plugin's outcome (including an exception) is an input. The registry
  found at the configured uri is a parameter, and creating its directory cannot fail. Paths
  are not normalised. The artifact and data paths are modelled only by whether their lookups
  raise; for the registry uri and the artifacts root that includes `Path` raising on a
  non-string value.
- Cli.CmdValidate: the CSV read is I/O. The frame is its set of column names, and a read
  failure is not modelled. The loader's type checks (see Validate.LoadContractFromDict) reach
  the exit code: a contract with `min_val: "5"` or `dtype: 5` and every column present exits 0
  in Python and 1 in the model.
- cli.py's argparse setup and `cmd_train` (uuid run ids, the training plugin) are not modelled.
  The printed messages are not modelled either.
- Error messages: the text of each message (Python reprs in f-strings) is not modelled. Each
  message is a constructor naming its field and values.
- Monitoring.Monitor.Kpis: the p99 index `int(0.99 * n)` is taken as `(99 * n) / 100` over the
  reals. Python's float rounding may differ for some n.
- Monitoring.Monitor.DriftLiteKeys: only which keys `drift_lite` returns is modelled. The mean,
  stdev and delta values are floating-point statistics.
- Monitoring.Monitor.constructor: the window size is a natural number. A negative
  `window_size` makes `deque` raise ValueError, and that case is not modelled.
- Baselines.GetBaselineMetrics: an `eval.baselines` value that is not a dict raises in the
  model. Python answers `{}` for a list or string that does not contain the name. A baseline
  that is a list of pairs raises here, where `dict()` accepts it.
- Baselines.MetricMap: a baseline entry holding a string, list or dict raises here for every
  entry. Python raises only when the gate compares that entry, so not for a name outside the
  gate or whose metric is missing. An entry holding None is dropped, which the gate treats the
  same as Python (`no_baseline`), but the harness result then lacks that key.
- Harness.MetricsOf: an eval result whose `metrics` entry is not a dict (None, say) cannot be
  represented. Python raises AttributeError on its `.keys()` when the gate names default, and
  on its `.get()` in the gate otherwise.
  An eval result, nested or flat, is modelled by its numeric entries only.
  An entry holding None or a non-number is dropped, so it is never a default gate name. Python
  gates such an entry when the gate names default to every key: None is `missing_metric` and
  fails the gate; any other non-number is `no_baseline` without a baseline and a TypeError
  with one.
- Validate.LoadContractFromDict: a value whose type differs from the dataclass annotation
  raises. The mismatches covered are a non-string name, dtype or version, a non-bool
  `required`, `allowed_values` that is not a list, a non-numeric bound, and identifiers that
  are not a list of strings. Python stores these unchecked.
- Validate.PyEq: cross-type numeric equality (1 == 1.0 == True) is modelled for top-level
  values only. Inside nested lists and dicts, equality is structural.
- Metric values are mathematical reals, with no floating-point rounding. Metrics and baselines
  are maps to numbers. With explicit gate names, a metric holding None is treated by the gate
  exactly as an absent one (`missing_metric`).
- RunRegistry.Registry: a (model, run id) pair is assumed to name its own directory. Ids
  containing "/" or ".." that would alias directories are not modelled. Nor is a run id of ""
  or ".", which names the model directory itself: the model lists "" as a run, while Python
  would list the files written for it (`metrics.json`, `params.json`, `artifact_path.txt`)
  among the run ids. An MLflow backend
  exists only as a comment.
- RunRegistry.Registry.GetRun: metrics and params are assumed to survive the JSON round trip
  unchanged.
- Artifacts.BundleDisk: joblib is "store and return the same value". A directory path is
  taken as given, without normalisation.
- foundation/core/runner.py, foundation/core/logging.py, the per-model plugins, the pipelines
  and the scripts are not part of this model.
- The repository has no checksum verification, atomic writes, deploy locks, baseline
  persistence on promotion, deployment slots or remote registry. The model has none either.
