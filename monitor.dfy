/** The KPI monitor: three bounded buffers (predictions, latencies, errors)
    that drop their oldest element when full, and the KPI summary over them. */
module Monitoring {
  import opened Wrappers
  import opened Values

  /** A `deque(maxlen=cap)` after its elements are appended in order: the
      last `cap` of them. */
  function Bounded<T>(s: seq<T>, cap: nat): (r: seq<T>)
    ensures |r| <= cap && |r| <= |s|
    ensures r == s[|s| - |r|..]
  {
    if |s| <= cap then s else s[|s| - cap..]
  }

  /** Appending to a bounded buffer: the new element goes at the end (unless
      the buffer has no room at all), and a full buffer loses its oldest
      element. */
  lemma BoundedAppend<T>(s: seq<T>, x: T, cap: nat)
    requires |s| <= cap
    ensures |s| < cap ==> Bounded(s + [x], cap) == s + [x]
    ensures 0 < |s| == cap ==> Bounded(s + [x], cap) == s[1..] + [x]
    ensures cap == 0 ==> Bounded(s + [x], cap) == []
    ensures 0 < cap ==> |Bounded(s + [x], cap)| == |s| + (if |s| < cap then 1 else 0)
    ensures 0 < cap ==> Bounded(s + [x], cap)[|Bounded(s + [x], cap)| - 1] == x
  {
    if 0 < |s| == cap {
      assert (s + [x])[1..] == s[1..] + [x];
    }
  }

  predicate SortedSeq(s: seq<real>)
  {
    forall i, j :: 0 <= i < j < |s| ==> s[i] <= s[j]
  }

  /** A bound on every element of `t` and on `x` bounds every element of a
      permutation of `t + [x]`. */
  lemma LowerBound(lo: real, rest: seq<real>, t: seq<real>, x: real)
    requires multiset(rest) == multiset(t) + multiset{x}
    requires lo <= x && forall k :: 0 <= k < |t| ==> lo <= t[k]
    ensures forall k :: 0 <= k < |rest| ==> lo <= rest[k]
  {
    forall k | 0 <= k < |rest| ensures lo <= rest[k] {
      assert rest[k] in multiset(rest);
      if rest[k] != x {
        assert rest[k] in multiset(t);
        var p :| 0 <= p < |t| && t[p] == rest[k];
      }
    }
  }

  /** A lower bound of a sorted list can go in front of it. */
  lemma ConsSorted(h: real, rest: seq<real>)
    requires SortedSeq(rest) && forall k :: 0 <= k < |rest| ==> h <= rest[k]
    ensures SortedSeq([h] + rest)
  {
    forall i, j | 0 <= i < j < |rest| + 1 ensures ([h] + rest)[i] <= ([h] + rest)[j] {
      if i > 0 {
        assert ([h] + rest)[i] == rest[i - 1];
      }
      assert ([h] + rest)[j] == rest[j - 1];
    }
  }

  function Insert(x: real, s: seq<real>): (r: seq<real>)
    requires SortedSeq(s)
    ensures SortedSeq(r)
    ensures multiset(r) == multiset(s) + multiset{x}
    ensures |r| == |s| + 1
  {
    if s == [] then [x]
    else if x <= s[0] then [x] + s
    else
      var rest := Insert(x, s[1..]);
      assert s == [s[0]] + s[1..];
      LowerBound(s[0], rest, s[1..], x);
      ConsSorted(s[0], rest);
      assert multiset([s[0]] + rest) == multiset{s[0]} + multiset(rest);
      [s[0]] + rest
  }

  /** `sorted(...)`: ascending, and a permutation of the input. */
  function Sort(s: seq<real>): (r: seq<real>)
    ensures SortedSeq(r)
    ensures multiset(r) == multiset(s)
    ensures |r| == |s|
  {
    if s == [] then []
    else
      assert s == s[..|s| - 1] + [s[|s| - 1]];
      Insert(s[|s| - 1], Sort(s[..|s| - 1]))
  }

  /** The last element of a sorted permutation is the maximum. */
  lemma SortedPermutationMax(r: seq<real>, s: seq<real>)
    requires SortedSeq(r) && multiset(r) == multiset(s) && r != []
    ensures forall x :: x in s ==> x <= r[|r| - 1]
    ensures r[|r| - 1] in s
  {
    forall x | x in s ensures x <= r[|r| - 1] {
      assert x in multiset(r);
      var p :| 0 <= p < |r| && r[p] == x;
    }
    assert r[|r| - 1] in multiset(s);
  }

  /** The last sorted latency is the largest one recorded. */
  lemma SortedLastIsMax(s: seq<real>)
    requires s != []
    ensures forall x :: x in s ==> x <= Sort(s)[|s| - 1]
    ensures Sort(s)[|s| - 1] in s
  {
    SortedPermutationMax(Sort(s), s);
  }

  /** What kpis() returns; the two percentiles are present only when a
      latency has been recorded. */
  datatype KpiReport = KpiReport(
    predictionCount: nat,
    errorCount: nat,
    latencyP50: Option<real>,
    latencyP99: Option<real>)

  /** The index of the 99th percentile in the sorted latencies, with
      `int(0.99 * n)` taken over the reals. */
  function P99Index(n: nat): (k: nat)
    requires 0 < n
    ensures k < n
  {
    if n >= 100 then (99 * n) / 100 else n - 1
  }

  class Monitor {
    const windowSize: nat
    var predictions: seq<real>
    var latencies: seq<real>
    var errors: seq<Json>

    /** No buffer holds more than window_size elements. */
    ghost predicate Valid()
      reads this
    {
      |predictions| <= windowSize && |latencies| <= windowSize && |errors| <= windowSize
    }

    constructor (windowSize: nat)
      ensures this.windowSize == windowSize
      ensures predictions == [] && latencies == [] && errors == []
      ensures Valid()
    {
      this.windowSize := windowSize;
      predictions := [];
      latencies := [];
      errors := [];
    }

    /** record_prediction */
    method RecordPrediction(value: real)
      requires Valid()
      modifies this
      ensures Valid()
      ensures predictions == Bounded(old(predictions) + [value], windowSize)
      ensures latencies == old(latencies) && errors == old(errors)
    {
      predictions := Bounded(predictions + [value], windowSize);
    }

    /** record_latency */
    method RecordLatency(sec: real)
      requires Valid()
      modifies this
      ensures Valid()
      ensures latencies == Bounded(old(latencies) + [sec], windowSize)
      ensures predictions == old(predictions) && errors == old(errors)
    {
      latencies := Bounded(latencies + [sec], windowSize);
    }

    /** record_error */
    method RecordError(error: Json)
      requires Valid()
      modifies this
      ensures Valid()
      ensures errors == Bounded(old(errors) + [error], windowSize)
      ensures predictions == old(predictions) && latencies == old(latencies)
    {
      errors := Bounded(errors + [error], windowSize);
    }

    /** kpis(): a function of the buffers, which it leaves alone. */
    function Kpis(): (k: KpiReport)
      reads this
      ensures k.predictionCount == |predictions| && k.errorCount == |errors|
      ensures k.latencyP50.Some? <==> latencies != []
      ensures k.latencyP99.Some? <==> latencies != []
      ensures latencies != [] ==> k.latencyP50.value in latencies && k.latencyP99.value in latencies
      ensures latencies != [] ==> k.latencyP50.value <= k.latencyP99.value
      ensures latencies != [] ==> k.latencyP50.value == Sort(latencies)[|latencies| / 2]
      ensures latencies != [] ==> k.latencyP99.value == Sort(latencies)[P99Index(|latencies|)]
    {
      if latencies == [] then KpiReport(|predictions|, |errors|, None, None)
      else
        var sorted := Sort(latencies);
        var n := |sorted|;
        assert sorted[n / 2] in multiset(latencies);
        assert sorted[P99Index(n)] in multiset(latencies);
        KpiReport(|predictions|, |errors|, Some(sorted[n / 2]), Some(sorted[P99Index(n)]))
    }

    /** The keys drift_lite's result has; its statistics are not modelled.
        With no prediction recorded the result is empty. */
    function DriftLiteKeys(referenceMean: Option<real>, referenceStd: Option<real>): (keys: set<string>)
      reads this
      ensures keys <= {"current_mean", "current_std", "reference_mean", "delta_mean", "reference_std"}
      ensures keys == {} <==> predictions == []
      ensures predictions != [] ==> {"current_mean", "current_std"} <= keys
      ensures "reference_mean" in keys <==> predictions != [] && referenceMean.Some?
      ensures "delta_mean" in keys <==> predictions != [] && referenceMean.Some?
      ensures "reference_std" in keys <==> predictions != [] && referenceStd.Some?
    {
      if predictions == [] then {}
      else
        {"current_mean", "current_std"}
          + (if referenceMean.Some? then {"reference_mean", "delta_mean"} else {})
          + (if referenceStd.Some? then {"reference_std"} else {})
    }
  }

  /** With fewer than 100 latencies, p99 is the largest one. */
  lemma SmallWindowP99IsMax(m: Monitor)
    requires 0 < |m.latencies| < 100
    ensures forall x :: x in m.latencies ==> x <= m.Kpis().latencyP99.value
  {
    SortedLastIsMax(m.latencies);
  }

  /** Once the latency buffer is full, recording one more keeps its length
      and drops the oldest latency. */
  lemma FullBufferEvicts(s: seq<real>, x: real, cap: nat)
    requires 0 < |s| == cap
    ensures Bounded(s + [x], cap) == s[1..] + [x]
    ensures |Bounded(s + [x], cap)| == cap
  {
    BoundedAppend(s, x, cap);
  }
}
