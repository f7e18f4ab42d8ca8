/** The file-backed run registry. Its directory tree
    `<uri>/<model>/<run_id>/{metrics.json, params.json, artifact_path.txt}`
    is abstracted to a map from (model, run id) to the files of that run
    directory; a run directory exists iff its key is in the map. */
module RunRegistry {
  import opened Wrappers
  import opened Values
  import opened Text

  const LocalBackend: string := "local"

  datatype RunKey = RunKey(model: string, runId: string)

  /** The files of one run directory; `None` is a file that does not exist.
      `artifactText` is the text written to artifact_path.txt. */
  datatype RunRecord = RunRecord(
    metrics: Option<map<string, real>>,
    params: Option<map<string, Json>>,
    artifactText: Option<string>)

  const EmptyRun: RunRecord := RunRecord(None, None, None)

  /** What get_run returns: `NoInfo` is the `{}` of a non-local backend;
      `Info` always carries run_id and model_name, and each optional key
      only when the corresponding file exists. */
  datatype RunInfo =
    | NoInfo
    | Info(runId: string, modelName: string,
           metrics: Option<map<string, real>>,
           params: Option<map<string, Json>>,
           artifactPath: Option<string>)

  /** The run directory as it stands, or an empty one. */
  function Previous(runs: map<RunKey, RunRecord>, key: RunKey): RunRecord
  {
    if key in runs then runs[key] else EmptyRun
  }

  /** log_run on the local store: create the run directory if needed and
      overwrite exactly the files whose argument is not None. */
  function Upsert(runs: map<RunKey, RunRecord>, key: RunKey,
                  metrics: Option<map<string, real>>, params: Option<map<string, Json>>,
                  artifactPath: Option<string>): (r: map<RunKey, RunRecord>)
    ensures key in r
    ensures r.Keys == runs.Keys + {key}
    ensures forall k :: k in runs && k != key ==> r[k] == runs[k]
    ensures r[key].metrics == if metrics.Some? then metrics else Previous(runs, key).metrics
    ensures r[key].params == if params.Some? then params else Previous(runs, key).params
    ensures r[key].artifactText == if artifactPath.Some? then artifactPath else Previous(runs, key).artifactText
  {
    var prev := Previous(runs, key);
    runs[key := RunRecord(
      if metrics.Some? then metrics else prev.metrics,
      if params.Some? then params else prev.params,
      if artifactPath.Some? then artifactPath else prev.artifactText)]
  }

  /** `(run_dir / "artifact_path.txt").read_text().strip()` of what was written. */
  function ReadBack(text: string): string
  {
    Strip(UniversalNewlines(text))
  }

  /** get_run on the local store. */
  function RunInfoOf(runs: map<RunKey, RunRecord>, model: string, runId: string): (info: RunInfo)
    ensures info.Info? && info.runId == runId && info.modelName == model
    ensures RunKey(model, runId) !in runs ==> info == Info(runId, model, None, None, None)
  {
    var rec := Previous(runs, RunKey(model, runId));
    Info(runId, model, rec.metrics, rec.params,
         if rec.artifactText.Some? then Some(ReadBack(rec.artifactText.value)) else None)
  }

  /** The entries of `<uri>/<model>`: the run ids logged for that model. */
  function RunIds(runs: map<RunKey, RunRecord>, model: string): set<string>
  {
    set k | k in runs && k.model == model :: k.runId
  }

  /** The end index of Python's slice `s[:limit]` on a list of length n;
      a negative limit counts from the end. */
  function SliceStop(n: nat, limit: int): (k: nat)
    ensures k <= n
    ensures 0 <= limit ==> k == if limit < n then limit else n
    ensures limit < 0 ==> k == if n + limit < 0 then 0 else n + limit
  {
    if 0 <= limit then (if limit < n then limit else n)
    else if n + limit < 0 then 0 else n + limit
  }

  /** Strictly descending in Python's string order. */
  predicate Descending(s: seq<string>)
  {
    forall i, j :: 0 <= i < j < |s| ==> StrLess(s[j], s[i])
  }

  /** `ids` is `sorted(all, reverse=True)[:limit]`: descending, drawn from
      `all`, of the sliced length, and above everything it leaves out. */
  predicate IsTopRuns(all: set<string>, limit: int, ids: seq<string>)
  {
    && Descending(ids)
    && (forall j :: 0 <= j < |ids| ==> ids[j] in all)
    && |ids| == SliceStop(|all|, limit)
    && (forall x, j :: x in all && x !in ids && 0 <= j < |ids| ==> StrLess(x, ids[j]))
  }

  /** The greatest element of a non-empty set of strings. */
  method MaxOf(s: set<string>) returns (m: string)
    requires s != {}
    ensures m in s
    ensures forall x :: x in s && x != m ==> StrLess(x, m)
  {
    m :| m in s;
    var rest := s - {m};
    while rest != {}
      invariant rest <= s && m in s && m !in rest
      invariant forall x :: x in s - rest && x != m ==> StrLess(x, m)
      decreases |rest|
    {
      var y :| y in rest;
      if StrLess(m, y) {
        forall x | x in s - rest && x != y
          ensures StrLess(x, y)
        {
          if x != m {
            StrLessTransitive(x, m, y);
          }
        }
        m := y;
      } else {
        StrLessTotal(y, m);
      }
      rest := rest - {y};
    }
  }

  class Registry {
    const backend: string
    /** The run directories under `uri`. */
    var runs: map<RunKey, RunRecord>

    /** Open the registry over the run directories already on disk. */
    constructor (backend: string, onDisk: map<RunKey, RunRecord>)
      ensures this.backend == backend && runs == onDisk
    {
      this.backend := backend;
      runs := onDisk;
    }

    /** log_run: an upsert on the local backend, nothing on any other. */
    method LogRun(modelName: string, runId: string,
                  metrics: Option<map<string, real>>, params: Option<map<string, Json>>,
                  artifactPath: Option<string>)
      modifies this
      ensures runs == if backend == LocalBackend
                      then Upsert(old(runs), RunKey(modelName, runId), metrics, params, artifactPath)
                      else old(runs)
    {
      if backend == LocalBackend {
        var key := RunKey(modelName, runId);
        var rec := if key in runs then runs[key] else EmptyRun;
        if metrics.Some? {
          rec := rec.(metrics := metrics);
        }
        if params.Some? {
          rec := rec.(params := params);
        }
        if artifactPath.Some? {
          rec := rec.(artifactText := artifactPath);
        }
        runs := runs[key := rec];
      }
    }

    /** get_run */
    function GetRun(modelName: string, runId: string): (info: RunInfo)
      reads this
      ensures backend != LocalBackend ==> info == NoInfo
      ensures backend == LocalBackend ==> info.Info? && info.runId == runId && info.modelName == modelName
      ensures backend == LocalBackend && RunKey(modelName, runId) in runs ==>
        var rec := runs[RunKey(modelName, runId)];
        && info.metrics == rec.metrics && info.params == rec.params
        && (info.artifactPath.Some? <==> rec.artifactText.Some?)
        && (rec.artifactText.Some? ==> info.artifactPath.value == Strip(UniversalNewlines(rec.artifactText.value)))
      ensures backend == LocalBackend && RunKey(modelName, runId) !in runs ==>
        info == Info(runId, modelName, None, None, None)
    {
      if backend == LocalBackend then RunInfoOf(runs, modelName, runId) else NoInfo
    }

    /** list_runs */
    method ListRuns(modelName: string, limit: int) returns (ids: seq<string>)
      ensures backend != LocalBackend ==> ids == []
      ensures backend == LocalBackend ==> IsTopRuns(RunIds(runs, modelName), limit, ids)
    {
      if backend != LocalBackend {
        return [];
      }
      var all := RunIds(runs, modelName);
      if all == {} {
        return [];
      }
      var sorted: seq<string> := [];
      var rest := all;
      while rest != {}
        invariant SortState(all, sorted, rest)
        decreases |rest|
      {
        var m := MaxOf(rest);
        SortStep(all, sorted, rest, m);
        sorted := sorted + [m];
        rest := rest - {m};
      }
      ids := sorted[..SliceStop(|sorted|, limit)];
      TopOfSorted(all, sorted, limit);
    }
  }

  /** Selection sort, part way: `sorted` holds, in descending order, the
      elements of `all` taken so far, each above every element still in
      `rest`. */
  ghost predicate SortState(all: set<string>, sorted: seq<string>, rest: set<string>)
  {
    && rest <= all
    && (forall j :: 0 <= j < |sorted| ==> sorted[j] in all && sorted[j] !in rest)
    && (forall x :: x in all && x !in rest ==> x in sorted)
    && |sorted| + |rest| == |all|
    && Descending(sorted)
    && (forall x, j :: x in rest && 0 <= j < |sorted| ==> StrLess(x, sorted[j]))
  }

  /** Moving the greatest remaining element to the end keeps the state. */
  lemma SortStep(all: set<string>, sorted: seq<string>, rest: set<string>, m: string)
    requires SortState(all, sorted, rest)
    requires m in rest && forall x :: x in rest && x != m ==> StrLess(x, m)
    ensures SortState(all, sorted + [m], rest - {m})
  {
    var s' := sorted + [m];
    forall i, j | 0 <= i < j < |s'| ensures StrLess(s'[j], s'[i]) {
      if j < |sorted| {
        assert s'[i] == sorted[i] && s'[j] == sorted[j];
      } else {
        assert s'[i] == sorted[i];
      }
    }
    forall x | x in all && x !in rest - {m} ensures x in s' {
      if x != m {
        assert x in sorted;
      }
    }
    forall j | 0 <= j < |s'| ensures s'[j] in all && s'[j] !in rest - {m} {
      if j < |sorted| {
        assert s'[j] == sorted[j];
      }
    }
  }

  /** A finished sort, sliced to the limit, is the top of the runs. */
  lemma TopOfSorted(all: set<string>, sorted: seq<string>, limit: int)
    requires SortState(all, sorted, {})
    ensures IsTopRuns(all, limit, sorted[..SliceStop(|sorted|, limit)])
  {
    var ids := sorted[..SliceStop(|sorted|, limit)];
    forall i, j | 0 <= i < j < |ids| ensures StrLess(ids[j], ids[i]) {
      assert ids[i] == sorted[i] && ids[j] == sorted[j];
    }
    forall x, j | x in all && x !in ids && 0 <= j < |ids|
      ensures StrLess(x, ids[j])
    {
      var p :| 0 <= p < |sorted| && sorted[p] == x;
      assert ids[j] == sorted[j];
    }
  }

  /** After logging a run with every field given, get_run returns the
      metrics and params and the stripped artifact path. */
  lemma GetAfterLog(runs: map<RunKey, RunRecord>, model: string, runId: string,
                    metrics: map<string, real>, params: map<string, Json>, artifactPath: string)
    ensures RunInfoOf(Upsert(runs, RunKey(model, runId), Some(metrics), Some(params), Some(artifactPath)), model, runId)
         == Info(runId, model, Some(metrics), Some(params), Some(Strip(UniversalNewlines(artifactPath))))
  {
  }

  /** A path with no carriage return and no surrounding whitespace reads back unchanged. */
  lemma PlainPathReadsBack(artifactPath: string)
    requires '\r' !in artifactPath
    requires artifactPath == [] || (!IsSpace(artifactPath[0]) && !IsSpace(artifactPath[|artifactPath| - 1]))
    ensures ReadBack(artifactPath) == artifactPath
  {
    UniversalNewlinesUnchanged(artifactPath);
    StripUnchanged(artifactPath);
  }

  /** Logging twice with the same arguments is logging once. */
  lemma LogRunIdempotent(runs: map<RunKey, RunRecord>, key: RunKey,
                         metrics: Option<map<string, real>>, params: Option<map<string, Json>>,
                         artifactPath: Option<string>)
    ensures var once := Upsert(runs, key, metrics, params, artifactPath);
      Upsert(once, key, metrics, params, artifactPath) == once
  {
  }

  /** Any log_run, even with every field None, makes the run id listable. */
  lemma LoggedRunIsListed(runs: map<RunKey, RunRecord>, model: string, runId: string,
                          metrics: Option<map<string, real>>, params: Option<map<string, Json>>,
                          artifactPath: Option<string>)
    ensures runId in RunIds(Upsert(runs, RunKey(model, runId), metrics, params, artifactPath), model)
    ensures RunIds(Upsert(runs, RunKey(model, runId), metrics, params, artifactPath), model) == RunIds(runs, model) + {runId}
  {
    var after := Upsert(runs, RunKey(model, runId), metrics, params, artifactPath);
    assert RunKey(model, runId) in after;
  }

  /** The worked example: after run_a, run_b and run_c, a limit of 2 lists run_c, run_b. */
  lemma ListRunsExample()
    ensures IsTopRuns({"run_a", "run_b", "run_c"}, 2, ["run_c", "run_b"])
  {
    assert StrLess("run_b", "run_c");
    assert StrLess("run_a", "run_b");
    assert |{"run_a", "run_b", "run_c"}| == 3;
  }
}
