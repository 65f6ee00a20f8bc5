/**
  Properties of a probe run: the order of requests and of yielded metrics,
  which identity metrics and which events endpoint the version selects, and
  that `query_time` comes last and only after a complete run.
 */
module ProbeProperties {
  import opened Wrappers
  import opened JsonValue
  import opened LooseVersion
  import opened Uris
  import opened ProbePlan

  function Names(ms: seq<Metric>): (names: seq<string>)
    ensures |names| == |ms|
    ensures forall i :: 0 <= i < |ms| ==> names[i] == ms[i].name
  {
    seq(|ms|, i requires 0 <= i < |ms| => ms[i].name)
  }

  /** The names a plan yields, in order. */
  function PlanNames(plan: seq<Instr>): seq<string> {
    if |plan| == 0 then []
    else (if plan[0].Emit? then [plan[0].name] else []) + PlanNames(plan[1..])
  }

  /** The URIs a plan requests, in order. */
  function PlanUris(base: string, plan: seq<Instr>): seq<string> {
    if |plan| == 0 then []
    else (if plan[0].Request? then [RequestUri(base, plan[0].suffix)] else []) + PlanUris(base, plan[1..])
  }

  lemma {:induction false} PlanListsAppend(base: string, a: seq<Instr>, b: seq<Instr>)
    ensures PlanNames(a + b) == PlanNames(a) + PlanNames(b)
    ensures PlanUris(base, a + b) == PlanUris(base, a) + PlanUris(base, b)
    decreases |a|
  {
    if |a| > 0 {
      assert (a + b)[0] == a[0];
      assert (a + b)[1..] == a[1..] + b;
      PlanListsAppend(base, a[1..], b);
    } else {
      assert a + b == b;
    }
  }

  /**
    A plan only extends the trace it starts from: the yielded names and the
    requested URIs are prefixes of what the plan lists, all of it when no
    step fails, and nothing it yields carries a unit.
   */
  lemma ExecShape(base: string, fetch: Oracle, plan: seq<Instr>, run: Run)
    requires run.trace.error.None?
    ensures var r := Exec(base, fetch, plan, run).trace;
      && run.trace.metrics <= r.metrics
      && run.trace.requested <= r.requested
      && Names(r.metrics) <= Names(run.trace.metrics) + PlanNames(plan)
      && r.requested <= run.trace.requested + PlanUris(base, plan)
      && (r.error.None? ==>
            Names(r.metrics) == Names(run.trace.metrics) + PlanNames(plan) &&
            r.requested == run.trace.requested + PlanUris(base, plan))
      && (forall i :: |run.trace.metrics| <= i < |r.metrics| ==> r.metrics[i].uom.None?)
  {
    ExecNames(base, fetch, plan, run);
    ExecUris(base, fetch, plan, run);
    ExecUnitless(base, fetch, plan, run);
  }

  /** The names a plan yields are a prefix of the names it lists, all of them when no step fails. */
  lemma {:induction false} ExecNames(base: string, fetch: Oracle, plan: seq<Instr>, run: Run)
    requires run.trace.error.None?
    ensures var r := Exec(base, fetch, plan, run).trace;
      && Names(r.metrics) <= Names(run.trace.metrics) + PlanNames(plan)
      && (r.error.None? ==> Names(r.metrics) == Names(run.trace.metrics) + PlanNames(plan))
    decreases |plan|
  {
    if |plan| > 0 {
      var t := run.trace;
      var s := Step(base, fetch, plan[0], run);
      assert Exec(base, fetch, plan, run) == Exec(base, fetch, plan[1..], s);
      StepShape(base, fetch, plan, run);
      if s.trace.error.None? {
        ExecNames(base, fetch, plan[1..], s);
        assert Names(t.metrics) + PlanNames(plan) == Names(s.trace.metrics) + PlanNames(plan[1..]);
      }
    }
  }

  /** The URIs a plan requests are a prefix of the URIs it lists, all of them when no step fails. */
  lemma {:induction false} ExecUris(base: string, fetch: Oracle, plan: seq<Instr>, run: Run)
    requires run.trace.error.None?
    ensures var r := Exec(base, fetch, plan, run).trace;
      && r.requested <= run.trace.requested + PlanUris(base, plan)
      && (r.error.None? ==> r.requested == run.trace.requested + PlanUris(base, plan))
    decreases |plan|
  {
    if |plan| > 0 {
      var t := run.trace;
      var s := Step(base, fetch, plan[0], run);
      assert Exec(base, fetch, plan, run) == Exec(base, fetch, plan[1..], s);
      StepShape(base, fetch, plan, run);
      if s.trace.error.None? {
        ExecUris(base, fetch, plan[1..], s);
        assert t.requested + PlanUris(base, plan) == s.trace.requested + PlanUris(base, plan[1..]);
      }
    }
  }

  /** Nothing a plan yields carries a unit. */
  lemma {:induction false} ExecUnitless(base: string, fetch: Oracle, plan: seq<Instr>, run: Run)
    requires run.trace.error.None?
    ensures var r := Exec(base, fetch, plan, run).trace;
      forall i :: |run.trace.metrics| <= i < |r.metrics| ==> r.metrics[i].uom.None?
    decreases |plan|
  {
    if |plan| > 0 {
      var s := Step(base, fetch, plan[0], run);
      assert Exec(base, fetch, plan, run) == Exec(base, fetch, plan[1..], s);
      StepShape(base, fetch, plan, run);
      if s.trace.error.None? {
        ExecUnitless(base, fetch, plan[1..], s);
      }
    }
  }

  /** The first step of a plan adds at most the plan's first name or first URI. */
  lemma StepShape(base: string, fetch: Oracle, plan: seq<Instr>, run: Run)
    requires run.trace.error.None? && |plan| > 0
    ensures var t := run.trace;
      var s := Step(base, fetch, plan[0], run).trace;
      var name := if plan[0].Emit? then [plan[0].name] else [];
      var uri := if plan[0].Request? then [RequestUri(base, plan[0].suffix)] else [];
      && PlanNames(plan) == name + PlanNames(plan[1..])
      && PlanUris(base, plan) == uri + PlanUris(base, plan[1..])
      && Names(s.metrics) == Names(t.metrics) + (if s.error.None? then name else [])
      && s.requested == t.requested + uri
      && (forall i :: |t.metrics| <= i < |s.metrics| ==> s.metrics[i].uom.None?)
  {
  }

  /** The decoded /system reply, when the request for it succeeds. */
  ghost function ReportedSystem(base: string, fetch: Oracle): Option<Json> {
    match GetJson(fetch(RequestUri(base, SystemSuffix)))
    case Failure(_) => None
    case Success(system) => Some(system)
  }

  /** The version the run reads from /system, when it gets that far. */
  ghost function ReportedVersion(base: string, fetch: Oracle): Option<Version> {
    match ReportedSystem(base, fetch)
    case None => None
    case Some(system) =>
      match SystemVersion(system)
      case Failure(_) => None
      case Success(v) => Some(v)
  }

  function IdentityNames(v: Version): seq<string> {
    if Less(v, IdentityBreak) then ["graylog2_serverid"] else ["graylog2_nodeid", "graylog2_clusterid"]
  }

  /** Every metric a full run on a server of version `v` yields, in order. */
  function PlannedNames(v: Version): seq<string> {
    IdentityNames(v) + ["graylog2_processing", "events", "inputs", "throughput", "indexer_failures", "query_time"]
  }

  /** Every URI a full run on a server of version `v` requests, in order. */
  function PlannedRequests(base: string, v: Version): seq<string> {
    [RequestUri(base, SystemSuffix), RequestUri(base, EventsSuffix(v)), RequestUri(base, InputsSuffix),
     RequestUri(base, ThroughputSuffix), RequestUri(base, FailuresSuffix)]
  }

  lemma RequestThenEmit(base: string, suffix: string, name: string, path: seq<string>, rest: seq<Instr>)
    ensures PlanNames([Request(suffix), Emit(name, path)] + rest) == [name] + PlanNames(rest)
    ensures PlanUris(base, [Request(suffix), Emit(name, path)] + rest) == [RequestUri(base, suffix)] + PlanUris(base, rest)
  {
    var plan := [Request(suffix), Emit(name, path)] + rest;
    assert plan[1..][1..] == rest;
  }

  lemma TailLists(base: string)
    ensures PlanNames(TailPlan) == ["inputs", "throughput", "indexer_failures"]
    ensures PlanUris(base, TailPlan) ==
      [RequestUri(base, InputsSuffix), RequestUri(base, ThroughputSuffix), RequestUri(base, FailuresSuffix)]
  {
    var p3 := [Request(FailuresSuffix), Emit("indexer_failures", ["failures"])];
    var p2 := [Request(ThroughputSuffix), Emit("throughput", ["throughput"])] + p3;
    assert TailPlan == [Request(InputsSuffix), Emit("inputs", ["total"])] + p2;
    RequestThenEmit(base, FailuresSuffix, "indexer_failures", ["failures"], []);
    assert p3 == p3 + [];
    RequestThenEmit(base, ThroughputSuffix, "throughput", ["throughput"], p3);
    RequestThenEmit(base, InputsSuffix, "inputs", ["total"], p2);
  }

  lemma IdentityLists(base: string, v: Version)
    ensures PlanNames(IdentityPlan(v)) == IdentityNames(v)
    ensures PlanUris(base, IdentityPlan(v)) == []
  {
    var idp := IdentityPlan(v);
    if !Less(v, IdentityBreak) {
      var second := idp[1..];
      assert second == [Emit("graylog2_clusterid", ["cluster_id"])];
      assert second[1..] == [];
      assert PlanNames(second) == ["graylog2_clusterid"] && PlanUris(base, second) == [];
    } else {
      assert idp[1..] == [];
    }
  }

  lemma HeadLists(base: string, v: Version)
    ensures PlanNames(IdentityPlan(v) + ProcessingPlan + EventsPlan(v)) == IdentityNames(v) + ["graylog2_processing", "events"]
    ensures PlanUris(base, IdentityPlan(v) + ProcessingPlan + EventsPlan(v)) == [RequestUri(base, EventsSuffix(v))]
  {
    var idp, evp := IdentityPlan(v), EventsPlan(v);
    PlanListsAppend(base, idp, ProcessingPlan);
    PlanListsAppend(base, idp + ProcessingPlan, evp);
    IdentityLists(base, v);
    RequestThenEmit(base, EventsSuffix(v), "events", EventsPath(v), []);
    assert evp == evp + [];
    assert ProcessingPlan[1..] == [];
  }

  lemma AfterSystemLists(base: string, v: Version)
    ensures PlanNames(AfterSystemPlan(v)) + ["query_time"] == PlannedNames(v)
    ensures [RequestUri(base, SystemSuffix)] + PlanUris(base, AfterSystemPlan(v)) == PlannedRequests(base, v)
  {
    PlanListsAppend(base, IdentityPlan(v) + ProcessingPlan + EventsPlan(v), TailPlan);
    HeadLists(base, v);
    TailLists(base);
  }

  /** A run that reads the version goes on with the plan for that version from the /system reply. */
  lemma ProbeAfterVersion(base: string, fetch: Oracle, elapsed: int)
    requires ReportedVersion(base, fetch).Some?
    ensures var start := StartRun(base, fetch);
      && start.trace == Trace([], [RequestUri(base, SystemSuffix)], None)
      && ProbeSpec(base, fetch, elapsed) ==
         Finish(Exec(base, fetch, AfterSystemPlan(ReportedVersion(base, fetch).value), start).trace, elapsed)
  {
  }

  /**
    /system is requested first, and a run that cannot read the version
    stops right there, having yielded nothing.
   */
  lemma ProbeStartsWithSystem(base: string, fetch: Oracle, elapsed: int)
    ensures var t := ProbeSpec(base, fetch, elapsed);
      && |t.requested| >= 1 && t.requested[0] == RequestUri(base, SystemSuffix)
      && (ReportedVersion(base, fetch).None? ==>
            t.error.Some? && t.metrics == [] && t.requested == [RequestUri(base, SystemSuffix)])
  {
    if ReportedVersion(base, fetch).Some? {
      var v := ReportedVersion(base, fetch).value;
      var start := StartRun(base, fetch);
      ProbeAfterVersion(base, fetch, elapsed);
      ExecShape(base, fetch, AfterSystemPlan(v), start);
    }
  }

  /**
    A run on a server of version `v` yields a prefix of the planned metrics
    and requests a prefix of the planned URIs, all of them exactly when
    nothing failed.
   */
  lemma ProbeFollowsPlan(base: string, fetch: Oracle, elapsed: int)
    requires ReportedVersion(base, fetch).Some?
    ensures var t := ProbeSpec(base, fetch, elapsed);
      var v := ReportedVersion(base, fetch).value;
      && Names(t.metrics) <= PlannedNames(v)
      && t.requested <= PlannedRequests(base, v)
      && (t.error.None? <==> Names(t.metrics) == PlannedNames(v))
      && (t.error.None? ==> t.requested == PlannedRequests(base, v))
  {
    var v := ReportedVersion(base, fetch).value;
    var start := StartRun(base, fetch);
    var done := Exec(base, fetch, AfterSystemPlan(v), start).trace;
    ProbeAfterVersion(base, fetch, elapsed);
    ExecShape(base, fetch, AfterSystemPlan(v), start);
    AfterSystemLists(base, v);
    var planned := PlanNames(AfterSystemPlan(v));
    assert Names(start.trace.metrics) == [];
    assert Names(done.metrics) <= planned;
    var t := ProbeSpec(base, fetch, elapsed);
    if done.error.None? {
      assert Names(t.metrics) == Names(done.metrics) + ["query_time"];
    } else {
      assert |Names(t.metrics)| < |PlannedNames(v)|;
    }
  }

  /**
    `query_time` is the last metric of a complete run and the only one with
    a unit ('s'); a run that failed never yields it.
   */
  lemma QueryTimeLast(base: string, fetch: Oracle, elapsed: int)
    ensures var t := ProbeSpec(base, fetch, elapsed);
      && (t.error.None? ==> ReportedVersion(base, fetch).Some? && t.metrics[|t.metrics| - 1] == QueryTime(elapsed))
      && (t.error.Some? ==> forall i :: 0 <= i < |t.metrics| ==> t.metrics[i].name != "query_time")
      && (forall i :: 0 <= i < |t.metrics| ==> (t.metrics[i].uom.Some? <==> t.error.None? && i == |t.metrics| - 1))
  {
    if ReportedVersion(base, fetch).Some? {
      ProbeAfterVersion(base, fetch, elapsed);
      AfterSystemYieldsNoQueryTime(base, fetch, ReportedVersion(base, fetch).value, StartRun(base, fetch));
    }
  }

  /** Before `Finish`, a run yields no metric named `query_time` and none with a unit. */
  lemma AfterSystemYieldsNoQueryTime(base: string, fetch: Oracle, v: Version, start: Run)
    requires start.trace.error.None? && start.trace.metrics == []
    ensures var done := Exec(base, fetch, AfterSystemPlan(v), start).trace;
      forall i :: 0 <= i < |done.metrics| ==> done.metrics[i].name != "query_time" && done.metrics[i].uom.None?
  {
    var done := Exec(base, fetch, AfterSystemPlan(v), start).trace;
    ExecNames(base, fetch, AfterSystemPlan(v), start);
    ExecUnitless(base, fetch, AfterSystemPlan(v), start);
    var planned := PlanNames(AfterSystemPlan(v));
    PlanOmitsQueryTime(base, v);
    var names := Names(done.metrics);
    assert names <= planned;
    forall i | 0 <= i < |done.metrics|
      ensures done.metrics[i].name != "query_time"
    {
      assert done.metrics[i].name == names[i] == planned[i];
      assert planned[i] in planned;
    }
  }

  /** The plan after /system never yields `query_time`: that is left to `Finish`. */
  lemma PlanOmitsQueryTime(base: string, v: Version)
    ensures "query_time" !in PlanNames(AfterSystemPlan(v))
  {
    PlanListsAppend(base, IdentityPlan(v) + ProcessingPlan + EventsPlan(v), TailPlan);
    HeadLists(base, v);
    TailLists(base);
    var planned := PlanNames(AfterSystemPlan(v));
    var rest := ["graylog2_processing", "events", "inputs", "throughput", "indexer_failures"];
    assert planned == IdentityNames(v) + rest;
    assert "query_time" !in rest;
    assert "query_time" !in IdentityNames(v);
  }

  /** A server old enough for `server_id` is also old enough for /count/total. */
  lemma LegacyIdentityImpliesLegacyEvents(v: Version)
    ensures Less(v, IdentityBreak) ==> Less(v, EventsBreak)
  {
    if Less(v, IdentityBreak) {
      BelowRelease(IdentityBreak, 4);
      LessTransitive(v, IdentityBreak, EventsBreak);
    }
  }

  /**
    The complete list of metrics for each side of 2.0.0: `graylog2_serverid`
    alone below it, `graylog2_nodeid` then `graylog2_clusterid` from it on,
    followed in both cases by the same six metrics ending in `query_time`.
   */
  lemma PlannedNamesByVersion(v: Version)
    ensures Less(v, IdentityBreak) ==>
      PlannedNames(v) == ["graylog2_serverid", "graylog2_processing", "events", "inputs", "throughput",
                          "indexer_failures", "query_time"]
    ensures !Less(v, IdentityBreak) ==>
      PlannedNames(v) == ["graylog2_nodeid", "graylog2_clusterid", "graylog2_processing", "events", "inputs",
                          "throughput", "indexer_failures", "query_time"]
  {
  }

  lemma IdentityNamesInPrefix(names: seq<string>, v: Version)
    requires names <= PlannedNames(v)
    ensures "graylog2_serverid" in names ==> Less(v, IdentityBreak)
    ensures "graylog2_nodeid" in names ==> !Less(v, IdentityBreak)
    ensures "graylog2_clusterid" in names ==> !Less(v, IdentityBreak)
  {
    var planned := PlannedNames(v);
    PlannedNamesByVersion(v);
    forall i | 0 <= i < |names|
      ensures names[i] in planned
    {
      assert names[i] == planned[i];
    }
  }

  /**
    A run yields `graylog2_serverid` only from a server below 2.0.0 and
    `graylog2_nodeid` or `graylog2_clusterid` only from one at or above it,
    so never both kinds.
   */
  lemma IdentityMetricsExclusive(base: string, fetch: Oracle, elapsed: int)
    requires ReportedVersion(base, fetch).Some?
    ensures var names := Names(ProbeSpec(base, fetch, elapsed).metrics);
      var v := ReportedVersion(base, fetch).value;
      && ("graylog2_serverid" in names ==> Less(v, IdentityBreak))
      && ("graylog2_nodeid" in names ==> !Less(v, IdentityBreak))
      && ("graylog2_clusterid" in names ==> !Less(v, IdentityBreak))
      && !("graylog2_serverid" in names && ("graylog2_nodeid" in names || "graylog2_clusterid" in names))
  {
    ProbeFollowsPlan(base, fetch, elapsed);
    IdentityNamesInPrefix(Names(ProbeSpec(base, fetch, elapsed).metrics), ReportedVersion(base, fetch).value);
  }

  /**
    Below 4.0.0 the events come from /count/total, from 4.0.0 on from
    /system/indexer/overview: a run requests at most one of the two, and a
    complete run exactly the one its version selects.
   */
  lemma EventsEndpoint(base: string, fetch: Oracle, elapsed: int)
    requires ReportedVersion(base, fetch).Some?
    ensures var t := ProbeSpec(base, fetch, elapsed);
      var v := ReportedVersion(base, fetch).value;
      && (RequestUri(base, CountTotalSuffix) in t.requested ==> Less(v, EventsBreak))
      && (RequestUri(base, IndexerOverviewSuffix) in t.requested ==> !Less(v, EventsBreak))
      && !(RequestUri(base, CountTotalSuffix) in t.requested && RequestUri(base, IndexerOverviewSuffix) in t.requested)
      && (t.error.None? ==> RequestUri(base, EventsSuffix(v)) in t.requested)
  {
    ProbeFollowsPlan(base, fetch, elapsed);
    var t := ProbeSpec(base, fetch, elapsed);
    var v := ReportedVersion(base, fetch).value;
    var planned := PlannedRequests(base, v);
    assert t.requested == planned[..|t.requested|];
    forall i | 0 <= i < |t.requested|
      ensures t.requested[i] == RequestUri(base, CountTotalSuffix) ==> Less(v, EventsBreak)
      ensures t.requested[i] == RequestUri(base, IndexerOverviewSuffix) ==> !Less(v, EventsBreak)
    {
      assert t.requested[i] == planned[i];
    }
    if t.error.None? {
      assert t.requested[1] == RequestUri(base, EventsSuffix(v));
    }
  }

  /** A failed request for /system ends the run: nothing else is requested or yielded. */
  lemma SystemFailureStopsRun(base: string, fetch: Oracle, elapsed: int)
    requires GetJson(fetch(RequestUri(base, SystemSuffix))).Failure?
    ensures ProbeSpec(base, fetch, elapsed) ==
      Trace([], [RequestUri(base, SystemSuffix)],
            Some(ApiFailure(GetJson(fetch(RequestUri(base, SystemSuffix))).error)))
  {
  }
}
