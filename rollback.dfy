/** Rollback: redeploy an earlier version to production, and list the
    candidates to roll back to. */
module Rollback {
  import opened Wrappers
  import opened Values
  import opened Text
  import opened RunRegistry
  import opened Serving

  /** The call rollback makes to deploy_to_target. */
  datatype DeployRequest = DeployRequest(modelName: string, version: string, artifactPath: string, target: string)

  /** `f"./artifacts/{model_name}/{to_version}"` */
  function DefaultArtifactPath(modelName: string, version: string): string
  {
    "./artifacts/" + modelName + "/" + version
  }

  /** `run.get("artifact_path") or <default path>`: an absent or empty path
      falls back to the default. */
  function ResolveArtifactPath(info: RunInfo, modelName: string, version: string): (p: string)
    ensures info.Info? && info.artifactPath.Some? && info.artifactPath.value != "" ==> p == info.artifactPath.value
    ensures !(info.Info? && info.artifactPath.Some? && info.artifactPath.value != "") ==>
      p == DefaultArtifactPath(modelName, version)
  {
    if info.Info? && info.artifactPath.Some? && info.artifactPath.value != "" then info.artifactPath.value
    else DefaultArtifactPath(modelName, version)
  }

  /** rollback_to_version: always to production, with the registry's
      artifact path when it has one. The gate is not consulted. */
  function RollbackToVersion(modelName: string, toVersion: string, registry: Registry, config: Json): (r: Result<DeployRequest>)
    reads registry
    ensures r.Ok? <==> DeployToTarget(modelName, toVersion, ResolveArtifactPath(registry.GetRun(modelName, toVersion), modelName, toVersion), ProdTarget, config).Ok?
    ensures r.Ok? ==> r.value.target == ProdTarget && r.value.modelName == modelName && r.value.version == toVersion
    ensures r.Ok? && registry.backend != LocalBackend ==> r.value.artifactPath == DefaultArtifactPath(modelName, toVersion)
    ensures r.Ok? && registry.backend == LocalBackend ==>
      var rec := Previous(registry.runs, RunKey(modelName, toVersion));
      r.value.artifactPath ==
        if rec.artifactText.Some? && Strip(UniversalNewlines(rec.artifactText.value)) != ""
        then Strip(UniversalNewlines(rec.artifactText.value))
        else DefaultArtifactPath(modelName, toVersion)
  {
    var path := ResolveArtifactPath(registry.GetRun(modelName, toVersion), modelName, toVersion);
    match DeployToTarget(modelName, toVersion, path, ProdTarget, config)
    case Err(e) => Err(e)
    case Ok(_) => Ok(DeployRequest(modelName, toVersion, path, ProdTarget))
  }

  /** `[r for r in runs if r != current_version]` */
  function Without(s: seq<string>, x: string): (r: seq<string>)
    ensures x !in r
    ensures |r| <= |s|
    ensures forall y :: y in r <==> y in s && y != x
  {
    if s == [] then []
    else if s[0] == x then Without(s[1..], x)
    else [s[0]] + Without(s[1..], x)
  }

  /** `a` is `b` with some elements left out, in the same order. */
  predicate IsSubsequence(a: seq<string>, b: seq<string>)
  {
    if a == [] then true
    else if b == [] then false
    else if a[0] == b[0] then IsSubsequence(a[1..], b[1..])
    else IsSubsequence(a, b[1..])
  }

  /** The rollback candidates drawn from an already listed set of runs. */
  function Candidates(listed: seq<string>, currentVersion: string, limit: int): seq<string>
  {
    var w := Without(listed, currentVersion);
    w[..SliceStop(|w|, limit)]
  }

  /** get_previous_versions, over the registry at its default location.
      `listed` is what list_runs returned. */
  method GetPreviousVersions(registry: Registry, modelName: string, currentVersion: string, limit: int)
    returns (versions: seq<string>, ghost listed: seq<string>)
    ensures registry.backend == LocalBackend ==> IsTopRuns(RunIds(registry.runs, modelName), limit, listed)
    ensures registry.backend != LocalBackend ==> listed == []
    ensures versions == Candidates(listed, currentVersion, limit)
  {
    var runs := registry.ListRuns(modelName, limit);
    listed := runs;
    var kept: seq<string> := [];
    var i := 0;
    while i < |runs|
      invariant 0 <= i <= |runs|
      invariant kept == Without(runs[..i], currentVersion)
    {
      WithoutAppend(runs[..i], runs[i], currentVersion);
      assert runs[..i + 1] == runs[..i] + [runs[i]];
      if runs[i] != currentVersion {
        kept := kept + [runs[i]];
      }
      i := i + 1;
    }
    assert runs[..i] == runs;
    versions := kept[..SliceStop(|kept|, limit)];
  }

  lemma {:induction false} WithoutAppend(s: seq<string>, y: string, x: string)
    ensures Without(s + [y], x) == Without(s, x) + (if y == x then [] else [y])
  {
    if s != [] {
      assert (s + [y])[1..] == s[1..] + [y];
      WithoutAppend(s[1..], y, x);
    } else {
      assert [y][1..] == [];
    }
  }

  lemma {:induction false} WithoutIsSubsequence(s: seq<string>, x: string)
    ensures IsSubsequence(Without(s, x), s)
  {
    if s != [] {
      WithoutIsSubsequence(s[1..], x);
      if s[0] != x {
        assert ([s[0]] + Without(s[1..], x))[1..] == Without(s[1..], x);
      } else {
        SubsequenceSkip(Without(s[1..], x), s);
      }
    }
  }

  /** Dropping the head of `b` keeps a subsequence of its tail a subsequence of `b`. */
  lemma {:induction false} SubsequenceSkip(a: seq<string>, b: seq<string>)
    requires b != [] && IsSubsequence(a, b[1..])
    ensures IsSubsequence(a, b)
  {
    if a != [] && a[0] == b[0] {
      // a is a subsequence of b[1..]; so is a[1..], of b[1..] itself
      SubsequenceTail(a, b[1..]);
    }
  }

  lemma {:induction false} SubsequenceTail(a: seq<string>, b: seq<string>)
    requires a != [] && IsSubsequence(a, b)
    ensures IsSubsequence(a[1..], b)
  {
    if a[0] == b[0] {
      if a[1..] != [] {
        SubsequenceTail(a[1..], b[1..]);
        SubsequenceSkip(a[1..], b);
      }
    } else {
      SubsequenceTail(a, b[1..]);
      if a[1..] != [] {
        SubsequenceSkip(a[1..], b);
      }
    }
  }

  lemma {:induction false} PrefixIsSubsequence(a: seq<string>, k: nat)
    requires k <= |a|
    ensures IsSubsequence(a[..k], a)
  {
    if k > 0 {
      assert a[..k][1..] == a[1..][..k - 1];
      PrefixIsSubsequence(a[1..], k - 1);
    }
  }

  lemma {:induction false} SubsequenceTransitive(a: seq<string>, b: seq<string>, c: seq<string>)
    requires IsSubsequence(a, b) && IsSubsequence(b, c)
    ensures IsSubsequence(a, c)
    decreases |c|
  {
    if a != [] {
      if a[0] == b[0] && b[0] == c[0] {
        SubsequenceTransitive(a[1..], b[1..], c[1..]);
      } else if b[0] == c[0] {
        // a skips b[0]: a is a subsequence of b[1..], which is one of c[1..]
        SubsequenceTransitive(a, b[1..], c[1..]);
        SubsequenceSkip(a, c);
      } else {
        SubsequenceTransitive(a, b, c[1..]);
        SubsequenceSkip(a, c);
      }
    }
  }

  lemma {:induction false} SubsequenceElements(a: seq<string>, b: seq<string>, y: string)
    requires IsSubsequence(a, b) && y in a
    ensures y in b
  {
    if a[0] == b[0] {
      if y != a[0] {
        SubsequenceElements(a[1..], b[1..], y);
      }
    } else {
      SubsequenceElements(a, b[1..], y);
    }
  }

  /** A subsequence of a descending list is descending. */
  lemma {:induction false} SubsequenceDescending(a: seq<string>, b: seq<string>)
    requires IsSubsequence(a, b) && Descending(b)
    ensures Descending(a)
  {
    if a != [] {
      if a[0] == b[0] {
        SubsequenceDescending(a[1..], b[1..]);
        forall j | 0 < j < |a| ensures StrLess(a[j], a[0]) {
          assert a[j] == a[1..][j - 1];
          SubsequenceElements(a[1..], b[1..], a[j]);
          var p :| 0 <= p < |b[1..]| && b[1..][p] == a[j];
          assert b[p + 1] == a[j];
        }
      } else {
        SubsequenceDescending(a, b[1..]);
      }
    }
  }

  /** The rollback candidates never include the current version, keep the
      order of list_runs, are descending, and are at most `limit` long. */
  lemma CandidatesProperties(listed: seq<string>, currentVersion: string, limit: int)
    requires Descending(listed)
    ensures currentVersion !in Candidates(listed, currentVersion, limit)
    ensures IsSubsequence(Candidates(listed, currentVersion, limit), listed)
    ensures Descending(Candidates(listed, currentVersion, limit))
    ensures 0 <= limit ==> |Candidates(listed, currentVersion, limit)| <= limit
  {
    var w := Without(listed, currentVersion);
    var c := Candidates(listed, currentVersion, limit);
    WithoutIsSubsequence(listed, currentVersion);
    PrefixIsSubsequence(w, SliceStop(|w|, limit));
    SubsequenceTransitive(c, w, listed);
    SubsequenceDescending(c, listed);
    assert forall y :: y in c ==> y in w;
  }
}
