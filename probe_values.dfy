/**
  Where each yielded value comes from, and how a failure ends the run: after
  the yields from the /system reply, the probe is a sequence of
  request-then-yield pairs, so a run that stops stops at the request or the
  yield that failed, with one metric for every pair completed before it.
 */
module ProbeValues {
  import opened Wrappers
  import opened JsonValue
  import opened LooseVersion
  import opened Uris
  import opened ProbePlan
  import opened ProbeProperties
  import Evaluators

  /** The yields the probe makes from the /system reply: the identity, then `graylog2_processing`. */
  function HeadPlan(v: Version): seq<Instr> {
    IdentityPlan(v) + ProcessingPlan
  }

  /** The request-then-yield pairs that follow: events, inputs, throughput, indexer failures. */
  function PairsPlan(v: Version): seq<Instr> {
    EventsPlan(v) + TailPlan
  }

  /** A plan made of a request followed by a yield, any number of times. */
  ghost predicate Alternating(plan: seq<Instr>)
    decreases |plan|
  {
    |plan| == 0 || (|plan| >= 2 && plan[0].Request? && plan[1].Emit? && Alternating(plan[2..]))
  }

  /** The field `path` of the reply to `base + suffix`, if the request and the lookup succeed. */
  ghost function Field(base: string, fetch: Oracle, suffix: string, path: seq<string>): Option<Json> {
    match GetJson(fetch(RequestUri(base, suffix)))
    case Failure(_) => None
    case Success(reply) => GetPath(reply, path)
  }

  /** The metric the `j`-th pair of an alternating plan yields, if its request and lookup succeed. */
  ghost function PairMetric(base: string, fetch: Oracle, plan: seq<Instr>, j: nat): Option<Metric>
    requires Alternating(plan)
    decreases |plan|
  {
    if |plan| == 0 then None
    else if j > 0 then PairMetric(base, fetch, plan[2..], j - 1)
    else
      PairValue(Field(base, fetch, plan[0].suffix, plan[1].path), plan[1].name)
  }

  /**
    Yields alone never request anything and can only fail on a missing
    field; each metric they yield is the named field of the current reply.
   */
  lemma {:induction false} ExecYields(base: string, fetch: Oracle, plan: seq<Instr>, run: Run)
    requires run.trace.error.None?
    requires forall i :: 0 <= i < |plan| ==> plan[i].Emit?
    ensures var r := Exec(base, fetch, plan, run);
      var m0 := |run.trace.metrics|;
      && r.trace.requested == run.trace.requested
      && r.current == run.current
      && (r.trace.error.Some? ==> r.trace.error.value.MissingField? && |r.trace.metrics| < m0 + |plan|)
      && (r.trace.error.None? ==> |r.trace.metrics| == m0 + |plan|)
      && (forall i :: 0 <= i < |r.trace.metrics| - m0 ==>
            GetPath(run.current, plan[i].path).Some? &&
            r.trace.metrics[m0 + i] == Metric(plan[i].name, GetPath(run.current, plan[i].path).value, None))
    decreases |plan|
  {
    if |plan| > 0 {
      var s := Step(base, fetch, plan[0], run);
      var r := Exec(base, fetch, plan, run);
      var m0 := |run.trace.metrics|;
      assert r == Exec(base, fetch, plan[1..], s);
      if s.trace.error.None? {
        ExecYields(base, fetch, plan[1..], s);
        forall i | 0 <= i < |r.trace.metrics| - m0
          ensures GetPath(run.current, plan[i].path).Some?
          ensures r.trace.metrics[m0 + i] == Metric(plan[i].name, GetPath(run.current, plan[i].path).value, None)
        {
          if i > 0 {
            assert plan[1..][i - 1] == plan[i];
          }
        }
      }
    }
  }

  /**
    A run of request-then-yield pairs: when it fails, it has made one more
    request than it yielded metrics, and an API failure is the reply to the
    last URI it requested; every metric it yields is its pair's field.
   */
  lemma {:induction false} ExecPairs(base: string, fetch: Oracle, plan: seq<Instr>, run: Run)
    requires run.trace.error.None?
    requires Alternating(plan)
    ensures var r := Exec(base, fetch, plan, run).trace;
      var m0, q0 := |run.trace.metrics|, |run.trace.requested|;
      && (r.error.None? ==> |r.metrics| - m0 == |r.requested| - q0 == |plan| / 2)
      && (r.error.Some? ==> |r.requested| > q0 && |r.metrics| - m0 == |r.requested| - q0 - 1)
      && (r.error.Some? && r.error.value.ApiFailure? ==>
            GetJson(fetch(r.requested[|r.requested| - 1])) == Failure(r.error.value.message))
      && (forall j: nat :: j < |r.metrics| - m0 ==> PairMetric(base, fetch, plan, j) == Some(r.metrics[m0 + j]))
    decreases |plan|
  {
    if |plan| > 0 {
      var m0 := |run.trace.metrics|;
      var s1 := Step(base, fetch, plan[0], run);
      var r := Exec(base, fetch, plan, run);
      assert r == Exec(base, fetch, plan[1..], s1);
      if s1.trace.error.None? {
        var s2 := Step(base, fetch, plan[1], s1);
        assert plan[1..][0] == plan[1] && plan[1..][1..] == plan[2..];
        assert r == Exec(base, fetch, plan[2..], s2);
        if s2.trace.error.None? {
          ExecPairs(base, fetch, plan[2..], s2);
          assert PairMetric(base, fetch, plan, 0) == Some(s2.trace.metrics[m0]);
          forall j: nat | j < |r.trace.metrics| - m0
            ensures PairMetric(base, fetch, plan, j) == Some(r.trace.metrics[m0 + j])
          {
            if j > 0 {
              assert PairMetric(base, fetch, plan, j) == PairMetric(base, fetch, plan[2..], j - 1);
            }
          }
        }
      }
    }
  }

  /**
    Yields from one reply complete exactly when every field they name is
    present, and a yield that stops the run names a field that really is
    missing: the one after the metrics yielded so far.
   */
  lemma {:induction false} ExecYieldsComplete(base: string, fetch: Oracle, plan: seq<Instr>, run: Run)
    requires run.trace.error.None?
    requires forall i :: 0 <= i < |plan| ==> plan[i].Emit?
    ensures var r := Exec(base, fetch, plan, run).trace;
      var m0 := |run.trace.metrics|;
      && (r.error.None? <==> forall i :: 0 <= i < |plan| ==> GetPath(run.current, plan[i].path).Some?)
      && (r.error.Some? ==>
            m0 <= |r.metrics| < m0 + |plan| &&
            GetPath(run.current, plan[|r.metrics| - m0].path).None? &&
            r.error == Some(MissingField(plan[|r.metrics| - m0].path)))
    decreases |plan|
  {
    if |plan| > 0 {
      var s := Step(base, fetch, plan[0], run);
      var m0 := |run.trace.metrics|;
      assert Exec(base, fetch, plan, run) == Exec(base, fetch, plan[1..], s);
      if s.trace.error.None? {
        ExecYieldsComplete(base, fetch, plan[1..], s);
        var r := Exec(base, fetch, plan, run).trace;
        if r.error.Some? {
          assert plan[1..][|r.metrics| - (m0 + 1)] == plan[|r.metrics| - m0];
        }
        if forall i :: 0 <= i < |plan| ==> GetPath(run.current, plan[i].path).Some? {
          forall i | 0 <= i < |plan[1..]|
            ensures GetPath(s.current, plan[1..][i].path).Some?
          {
            assert plan[1..][i] == plan[i + 1];
          }
        }
        if r.error.None? {
          forall i | 0 <= i < |plan|
            ensures GetPath(run.current, plan[i].path).Some?
          {
            if i > 0 {
              assert plan[1..][i - 1] == plan[i];
            }
          }
        }
      }
    }
  }

  /**
    A run of pairs completes exactly when every pair's request succeeds and
    its field is present, and a run that stops, stops at the first pair that
    has no metric: when that is a missing field, the reply to the last
    request decoded and lacks the field named.
   */
  lemma {:induction false} ExecPairsComplete(base: string, fetch: Oracle, plan: seq<Instr>, run: Run)
    requires run.trace.error.None?
    requires Alternating(plan)
    ensures var r := Exec(base, fetch, plan, run).trace;
      var m0 := |run.trace.metrics|;
      && (r.error.None? <==> AllPairsYield(base, fetch, plan))
      && (r.error.Some? ==> m0 <= |r.metrics| && PairMetric(base, fetch, plan, |r.metrics| - m0).None?)
      && (r.error.Some? && r.error.value.MissingField? ==>
            |r.requested| > 0 &&
            GetJson(fetch(r.requested[|r.requested| - 1])).Success? &&
            GetPath(GetJson(fetch(r.requested[|r.requested| - 1])).value, r.error.value.path).None?)
    decreases |plan|
  {
    if |plan| > 0 {
      var m0 := |run.trace.metrics|;
      var s1 := Step(base, fetch, plan[0], run);
      var r := Exec(base, fetch, plan, run);
      assert r == Exec(base, fetch, plan[1..], s1);
      if s1.trace.error.None? {
        var s2 := Step(base, fetch, plan[1], s1);
        assert plan[1..][0] == plan[1] && plan[1..][1..] == plan[2..];
        assert r == Exec(base, fetch, plan[2..], s2);
        if s2.trace.error.None? {
          ExecPairsComplete(base, fetch, plan[2..], s2);
          assert PairMetric(base, fetch, plan, 0).Some?;
          assert |plan[2..]| / 2 == |plan| / 2 - 1;
          if r.trace.error.Some? {
            assert PairMetric(base, fetch, plan, |r.trace.metrics| - m0)
              == PairMetric(base, fetch, plan[2..], |r.trace.metrics| - (m0 + 1));
          }
          AllPairsShift(base, fetch, plan);
        } else {
          var uri := RequestUri(base, plan[0].suffix);
          assert r == s2;
          assert s2.trace.requested[|s2.trace.requested| - 1] == uri;
          assert GetJson(fetch(uri)).Success? && s1.current == GetJson(fetch(uri)).value;
          assert PairMetric(base, fetch, plan, 0).None?;
        }
      } else {
        assert r == s1;
        assert GetJson(fetch(RequestUri(base, plan[0].suffix))).Failure?;
        assert PairMetric(base, fetch, plan, 0).None?;
        assert 0 < |plan| / 2;
      }
    }
  }

  /** Every pair of an alternating plan yields its metric. */
  ghost predicate AllPairsYield(base: string, fetch: Oracle, plan: seq<Instr>)
    requires Alternating(plan)
  {
    forall j: nat :: j < |plan| / 2 ==> PairMetric(base, fetch, plan, j).Some?
  }

  /** Every pair of a plan yields iff its first pair does and every pair after it does. */
  lemma AllPairsShift(base: string, fetch: Oracle, plan: seq<Instr>)
    requires Alternating(plan) && |plan| > 0
    ensures AllPairsYield(base, fetch, plan) <==>
      PairMetric(base, fetch, plan, 0).Some? && AllPairsYield(base, fetch, plan[2..])
  {
    assert |plan| >= 2 && |plan[2..]| / 2 == |plan| / 2 - 1;
    if AllPairsYield(base, fetch, plan) {
      assert PairMetric(base, fetch, plan, 0).Some?;
      forall j: nat | j < |plan[2..]| / 2
        ensures PairMetric(base, fetch, plan[2..], j).Some?
      {
        assert j + 1 < |plan| / 2;
        assert PairMetric(base, fetch, plan, j + 1) == PairMetric(base, fetch, plan[2..], j);
      }
    }
    if PairMetric(base, fetch, plan, 0).Some? && AllPairsYield(base, fetch, plan[2..]) {
      forall j: nat | j < |plan| / 2
        ensures PairMetric(base, fetch, plan, j).Some?
      {
        if j > 0 {
          assert j - 1 < |plan[2..]| / 2;
          assert PairMetric(base, fetch, plan, j) == PairMetric(base, fetch, plan[2..], j - 1);
        }
      }
    }
  }

  lemma PairsPlanAlternates(v: Version)
    ensures Alternating(PairsPlan(v)) && |PairsPlan(v)| == 8
    ensures PairsPlan(v)[2..] == TailPlan
  {
    var p := PairsPlan(v);
    var t2 := TailPlan[2..];
    var t4 := t2[2..];
    assert p[2..] == TailPlan;
    assert t4[2..] == [];
    assert Alternating(t4);
    assert Alternating(t2);
    assert Alternating(TailPlan);
  }

  /** A run that reads the version yields from the /system reply, then runs the pairs. */
  lemma ProbeStages(base: string, fetch: Oracle, elapsed: int)
    requires ReportedVersion(base, fetch).Some?
    ensures var start := StartRun(base, fetch);
      var v := ReportedVersion(base, fetch).value;
      var head := Exec(base, fetch, HeadPlan(v), start);
      && start.trace == Trace([], [RequestUri(base, SystemSuffix)], None)
      && start.current == ReportedSystem(base, fetch).value
      && ProbeSpec(base, fetch, elapsed) == Finish(Exec(base, fetch, PairsPlan(v), head).trace, elapsed)
  {
    var v := ReportedVersion(base, fetch).value;
    var start := StartRun(base, fetch);
    ProbeAfterVersion(base, fetch, elapsed);
    assert AfterSystemPlan(v) == HeadPlan(v) + PairsPlan(v);
    ExecAppend(base, fetch, HeadPlan(v), PairsPlan(v), start);
  }

  /**
    A run ends where a step failed. It either stops while yielding from the
    /system reply, having requested nothing else and yielded at most the
    identity metrics, or it stops at a later request or yield, with one
    metric for each request completed before; an API failure is the reply
    to the last URI requested. A complete run requests five URIs and yields
    six metrics besides the identity.
   */
  lemma RunEndsAtFailure(base: string, fetch: Oracle, elapsed: int)
    requires ReportedVersion(base, fetch).Some?
    ensures var t := ProbeSpec(base, fetch, elapsed);
      var k := |IdentityNames(ReportedVersion(base, fetch).value)|;
      && (t.error.None? ==> |t.requested| == 5 && |t.metrics| == k + 6)
      && (t.error.Some? ==>
            (|t.requested| == 1 && |t.metrics| <= k) || (|t.requested| >= 2 && |t.metrics| == k + |t.requested| - 1))
      && (t.error.Some? && t.error.value.ApiFailure? ==>
            |t.requested| >= 2 && GetJson(fetch(t.requested[|t.requested| - 1])) == Failure(t.error.value.message))
  {
    var v := ReportedVersion(base, fetch).value;
    var k := |IdentityNames(v)|;
    var start := StartRun(base, fetch);
    ProbeStages(base, fetch, elapsed);
    IdentityLists("", v);
    assert |HeadPlan(v)| == k + 1;
    ExecYields(base, fetch, HeadPlan(v), start);
    var head := Exec(base, fetch, HeadPlan(v), start);
    if head.trace.error.None? {
      PairsPlanAlternates(v);
      FinishPairs(base, fetch, PairsPlan(v), head, elapsed);
    }
  }

  /**
    A run of pairs followed by its final `query_time`: complete, it adds one
    request per pair and one metric more; failed, one request more than
    metrics, and an API failure is the reply to the last request.
   */
  lemma FinishPairs(base: string, fetch: Oracle, plan: seq<Instr>, run: Run, elapsed: int)
    requires run.trace.error.None? && Alternating(plan)
    ensures var t := Finish(Exec(base, fetch, plan, run).trace, elapsed);
      var m0, q0 := |run.trace.metrics|, |run.trace.requested|;
      && (t.error.None? ==> |t.requested| == q0 + |plan| / 2 && |t.metrics| == m0 + |plan| / 2 + 1)
      && (t.error.Some? ==> |t.requested| > q0 && |t.metrics| - m0 == |t.requested| - q0 - 1)
      && (t.error.Some? && t.error.value.ApiFailure? ==>
            GetJson(fetch(t.requested[|t.requested| - 1])) == Failure(t.error.value.message))
  {
    ExecPairs(base, fetch, plan, run);
  }

  /**
    A run completes exactly when the server answers every request with JSON
    holding every field the probe reads: the identity fields for its version
    and `is_processing` in /system, then `events` or `counts.events`,
    `total`, `throughput` and `failures` in the replies that follow.
   */
  lemma RunCompletes(base: string, fetch: Oracle, elapsed: int)
    requires ReportedVersion(base, fetch).Some?
    ensures var v := ReportedVersion(base, fetch).value;
      var system := ReportedSystem(base, fetch).value;
      ProbeSpec(base, fetch, elapsed).error.None? <==>
        && (Less(v, IdentityBreak) ==> Get(system, "server_id").Some?)
        && (!Less(v, IdentityBreak) ==> Get(system, "node_id").Some? && Get(system, "cluster_id").Some?)
        && Get(system, "is_processing").Some?
        && Field(base, fetch, EventsSuffix(v), EventsPath(v)).Some?
        && Field(base, fetch, InputsSuffix, ["total"]).Some?
        && Field(base, fetch, ThroughputSuffix, ["throughput"]).Some?
        && Field(base, fetch, FailuresSuffix, ["failures"]).Some?
  {
    var v := ReportedVersion(base, fetch).value;
    var system := ReportedSystem(base, fetch).value;
    var start := StartRun(base, fetch);
    ProbeStages(base, fetch, elapsed);
    ExecYieldsComplete(base, fetch, HeadPlan(v), start);
    HeadFieldsPresent(system, v);
    var head := Exec(base, fetch, HeadPlan(v), start);
    if head.trace.error.None? {
      PairsPlanAlternates(v);
      ExecPairsComplete(base, fetch, PairsPlan(v), head);
      PairsFieldsPresent(base, fetch, v);
    }
  }

  /** The yields from /system all succeed iff the reply holds the identity fields and `is_processing`. */
  lemma HeadFieldsPresent(system: Json, v: Version)
    ensures (forall i :: 0 <= i < |HeadPlan(v)| ==> GetPath(system, HeadPlan(v)[i].path).Some?) <==>
      && (Less(v, IdentityBreak) ==> Get(system, "server_id").Some?)
      && (!Less(v, IdentityBreak) ==> Get(system, "node_id").Some? && Get(system, "cluster_id").Some?)
      && Get(system, "is_processing").Some?
  {
    var plan := HeadPlan(v);
    var keys := if Less(v, IdentityBreak) then ["server_id", "is_processing"]
                else ["node_id", "cluster_id", "is_processing"];
    assert |plan| == |keys|;
    assert forall i :: 0 <= i < |plan| ==> plan[i].path == [keys[i]];
    var all := forall i :: 0 <= i < |plan| ==> GetPath(system, plan[i].path).Some?;
    assert all <==> forall i :: 0 <= i < |keys| ==> Get(system, keys[i]).Some?;
    if !Less(v, IdentityBreak) {
      assert keys[0] == "node_id" && keys[1] == "cluster_id" && keys[2] == "is_processing";
    } else {
      assert keys[0] == "server_id" && keys[1] == "is_processing";
    }
  }

  /** The pairs after /system all yield iff each of their replies decodes and holds its field. */
  lemma PairsFieldsPresent(base: string, fetch: Oracle, v: Version)
    requires Alternating(PairsPlan(v))
    ensures AllPairsYield(base, fetch, PairsPlan(v)) <==>
      && Field(base, fetch, EventsSuffix(v), EventsPath(v)).Some?
      && Field(base, fetch, InputsSuffix, ["total"]).Some?
      && Field(base, fetch, ThroughputSuffix, ["throughput"]).Some?
      && Field(base, fetch, FailuresSuffix, ["failures"]).Some?
  {
    PairsPlanAlternates(v);
    PairsMetrics(base, fetch, v);
    var pairs := PairsPlan(v);
    assert |pairs| / 2 == 4;
    if AllPairsYield(base, fetch, pairs) {
      assert PairMetric(base, fetch, pairs, 0).Some? && PairMetric(base, fetch, pairs, 1).Some?;
      assert PairMetric(base, fetch, pairs, 2).Some? && PairMetric(base, fetch, pairs, 3).Some?;
    }
  }

  /**
    The values yielded from the /system reply: `server_id` below 2.0.0,
    `node_id` and `cluster_id` from it on, then `is_processing`, each as
    soon as the run got as far as yielding it.
   */
  lemma SystemMetricValues(base: string, fetch: Oracle, elapsed: int)
    requires ReportedVersion(base, fetch).Some?
    ensures var t := ProbeSpec(base, fetch, elapsed);
      var v := ReportedVersion(base, fetch).value;
      var k := |IdentityNames(v)|;
      var system := ReportedSystem(base, fetch).value;
      && (Less(v, IdentityBreak) && |t.metrics| > 0 ==>
            Get(system, "server_id").Some? &&
            t.metrics[0] == Metric("graylog2_serverid", Get(system, "server_id").value, None))
      && (!Less(v, IdentityBreak) && |t.metrics| > 0 ==>
            Get(system, "node_id").Some? &&
            t.metrics[0] == Metric("graylog2_nodeid", Get(system, "node_id").value, None))
      && (!Less(v, IdentityBreak) && |t.metrics| > 1 ==>
            Get(system, "cluster_id").Some? &&
            t.metrics[1] == Metric("graylog2_clusterid", Get(system, "cluster_id").value, None))
      && (|t.metrics| > k ==>
            Get(system, "is_processing").Some? &&
            t.metrics[k] == Metric("graylog2_processing", Get(system, "is_processing").value, None))
  {
    var v := ReportedVersion(base, fetch).value;
    var start := StartRun(base, fetch);
    var t := ProbeSpec(base, fetch, elapsed);
    var plan := HeadPlan(v);
    ProbeStages(base, fetch, elapsed);
    IdentityLists("", v);
    assert |plan| == |IdentityNames(v)| + 1;
    ExecYields(base, fetch, plan, start);
    var head := Exec(base, fetch, plan, start);
    if head.trace.error.None? {
      PairsPlanAlternates(v);
      ExecPairs(base, fetch, PairsPlan(v), head);
    }
    assert head.trace.metrics <= t.metrics;
    assert |t.metrics| > |head.trace.metrics| ==> head.trace.error.None?;
    if Less(v, IdentityBreak) {
      assert plan[0] == Emit("graylog2_serverid", ["server_id"]);
      assert plan[1] == Emit("graylog2_processing", ["is_processing"]);
    } else {
      assert plan[0] == Emit("graylog2_nodeid", ["node_id"]);
      assert plan[1] == Emit("graylog2_clusterid", ["cluster_id"]);
      assert plan[2] == Emit("graylog2_processing", ["is_processing"]);
    }
  }

  /**
    The values yielded after /system: `events` is the field `events` of
    /count/total below 4.0.0 and `counts.events` of /system/indexer/overview
    from 4.0.0 on; `inputs` is `total` of /system/inputs, `throughput` is
    `throughput` of /system/throughput, and `indexer_failures` is `failures`
    of /system/indexer/failures, each as soon as the run got as far as
    yielding it.
   */
  lemma FetchedMetricValues(base: string, fetch: Oracle, elapsed: int)
    requires ReportedVersion(base, fetch).Some?
    ensures var t := ProbeSpec(base, fetch, elapsed);
      var v := ReportedVersion(base, fetch).value;
      var k := |IdentityNames(v)|;
      var events := Field(base, fetch, EventsSuffix(v), EventsPath(v));
      var inputs := Field(base, fetch, InputsSuffix, ["total"]);
      var throughput := Field(base, fetch, ThroughputSuffix, ["throughput"]);
      var failures := Field(base, fetch, FailuresSuffix, ["failures"]);
      && (|t.metrics| > k + 1 ==> events.Some? && t.metrics[k + 1] == Metric("events", events.value, None))
      && (|t.metrics| > k + 2 ==> inputs.Some? && t.metrics[k + 2] == Metric("inputs", inputs.value, None))
      && (|t.metrics| > k + 3 ==>
            throughput.Some? && t.metrics[k + 3] == Metric("throughput", throughput.value, None))
      && (|t.metrics| > k + 4 ==>
            failures.Some? && t.metrics[k + 4] == Metric("indexer_failures", failures.value, None))
  {
    var v := ReportedVersion(base, fetch).value;
    PairsYieldInOrder(base, fetch, elapsed);
    PairsMetrics(base, fetch, v);
  }

  /** Past the yields from /system, the `j`-th metric is the one the `j`-th pair yields. */
  lemma PairsYieldInOrder(base: string, fetch: Oracle, elapsed: int)
    requires ReportedVersion(base, fetch).Some?
    ensures var t := ProbeSpec(base, fetch, elapsed);
      var v := ReportedVersion(base, fetch).value;
      var k := |IdentityNames(v)|;
      && Alternating(PairsPlan(v))
      && forall j: nat :: j < 4 && k + 1 + j < |t.metrics| ==>
           PairMetric(base, fetch, PairsPlan(v), j) == Some(t.metrics[k + 1 + j])
  {
    var v := ReportedVersion(base, fetch).value;
    var k := |IdentityNames(v)|;
    var start := StartRun(base, fetch);
    PairsPlanAlternates(v);
    ProbeStages(base, fetch, elapsed);
    IdentityLists("", v);
    assert |HeadPlan(v)| == k + 1;
    ExecYields(base, fetch, HeadPlan(v), start);
    var head := Exec(base, fetch, HeadPlan(v), start);
    if head.trace.error.None? {
      FinishKeepsPairs(base, fetch, PairsPlan(v), head, elapsed);
    }
  }

  /** After a run of pairs and its final `query_time`, the metrics past the start are the pairs' metrics. */
  lemma FinishKeepsPairs(base: string, fetch: Oracle, plan: seq<Instr>, run: Run, elapsed: int)
    requires run.trace.error.None? && Alternating(plan)
    ensures var t := Finish(Exec(base, fetch, plan, run).trace, elapsed);
      var m0 := |run.trace.metrics|;
      forall j: nat :: j < |plan| / 2 && m0 + j < |t.metrics| ==> PairMetric(base, fetch, plan, j) == Some(t.metrics[m0 + j])
  {
    ExecPairs(base, fetch, plan, run);
  }

  /** The metric each pair after /system yields: its request's reply, at its path. */
  lemma PairsMetrics(base: string, fetch: Oracle, v: Version)
    requires Alternating(PairsPlan(v))
    ensures var pairs := PairsPlan(v);
      && PairMetric(base, fetch, pairs, 0) == PairValue(Field(base, fetch, EventsSuffix(v), EventsPath(v)), "events")
      && PairMetric(base, fetch, pairs, 1) == PairValue(Field(base, fetch, InputsSuffix, ["total"]), "inputs")
      && PairMetric(base, fetch, pairs, 2) == PairValue(Field(base, fetch, ThroughputSuffix, ["throughput"]), "throughput")
      && PairMetric(base, fetch, pairs, 3) == PairValue(Field(base, fetch, FailuresSuffix, ["failures"]), "indexer_failures")
  {
    var pairs := PairsPlan(v);
    var t2 := TailPlan[2..];
    PairsPlanAlternates(v);
    assert pairs[2..] == TailPlan;
    assert PairMetric(base, fetch, pairs, 1) == PairMetric(base, fetch, TailPlan, 0);
    assert PairMetric(base, fetch, pairs, 2) == PairMetric(base, fetch, TailPlan, 1) == PairMetric(base, fetch, t2, 0);
    assert PairMetric(base, fetch, pairs, 3) == PairMetric(base, fetch, TailPlan, 2)
      == PairMetric(base, fetch, t2, 1) == PairMetric(base, fetch, t2[2..], 0);
  }

  /** A field found, as the unit-less metric of that name. */
  function PairValue(field: Option<Json>, name: string): Option<Metric> {
    match field
    case None => None
    case Some(value) => Some(Metric(name, value, None))
  }

  /**
    Once `graylog2_processing` is yielded, its context reports CRITICAL
    exactly when the server's `is_processing` is falsy, whatever the version.
   */
  lemma ProcessingVerdictFollowsSystem(base: string, fetch: Oracle, elapsed: int)
    requires ReportedVersion(base, fetch).Some?
    ensures var t := ProbeSpec(base, fetch, elapsed);
      var k := |IdentityNames(ReportedVersion(base, fetch).value)|;
      var system := ReportedSystem(base, fetch).value;
      |t.metrics| > k ==>
        && t.metrics[k].name == "graylog2_processing"
        && Get(system, "is_processing").Some?
        && (Evaluators.EvaluateProcessing(t.metrics[k].value).state == Evaluators.Critical <==>
            !Truthy(Get(system, "is_processing").value))
  {
    SystemMetricValues(base, fetch, elapsed);
  }
}
