/**
  What one run of `Graylog2Check.probe` does, as data: the plan of requests
  and yields it follows for a given server version, and an interpreter for
  that plan against an oracle standing for the server. `ProbeSpec` is the
  reference the imperative `Graylog2Check.Probe` is proved against.
 */
module ProbePlan {
  import opened Wrappers
  import opened JsonValue
  import opened LooseVersion
  import opened Uris

  /**
    What the server's answer to one GET turns into: an HTTP error status, a
    connection failure, a body that is not JSON, or a decoded JSON body.
   */
  datatype Reply =
    | HttpError(reason: string)
    | UrlError(reason: string)
    | NonJson(reason: string)
    | Body(json: Json)

  /** The server, as the reply it gives to each request URI. */
  type Oracle = string -> Reply

  /** `__get_json`: the decoded body, or the RuntimeError message it raises. */
  function GetJson(reply: Reply): (r: Result<Json, string>)
    ensures r.Success? <==> reply.Body?
    ensures r.Success? ==> r.value == reply.json
  {
    match reply
    case HttpError(reason) => Failure("Graylog2 API Failure: " + reason)
    case UrlError(reason) => Failure("Graylog2 API URLError: " + reason)
    case NonJson(reason) => Failure("Graylog2 API returned non-JSON value: " + reason)
    case Body(json) => Success(json)
  }

  /** A yielded `nagiosplugin.Metric`: name, value and unit of measure. */
  datatype Metric = Metric(name: string, value: Json, uom: Option<string>)

  /**
    Why the generator stopped: a failed request, a missing key (or a
    subscript of a non-object) on the path read, or a version that cannot
    be compared.
   */
  datatype ProbeError =
    | ApiFailure(message: string)
    | MissingField(path: seq<string>)
    | BadVersion(version: Option<Json>)

  /**
    What a run shows: the metrics yielded, the URIs requested, both in order,
    and the exception that ended it, if any.
   */
  datatype Trace = Trace(metrics: seq<Metric>, requested: seq<string>, error: Option<ProbeError>)

  const SystemSuffix := "/system"
  const CountTotalSuffix := "/count/total"
  const IndexerOverviewSuffix := "/system/indexer/overview"
  const InputsSuffix := "/system/inputs"
  const ThroughputSuffix := "/system/throughput"
  const FailuresSuffix := "/system/indexer/failures?limit=1&offset=0"

  /** Servers below 2.0.0 report `server_id`; from 2.0.0 on, `node_id` and `cluster_id`. */
  const IdentityBreak: Version := [2, 0, 0]
  /** Servers below 4.0.0 count events at /count/total; from 4.0.0 on, in the indexer overview. */
  const EventsBreak: Version := [4, 0, 0]

  /** One step of the probe after /system: fetch a suffix, or yield a field of the last reply. */
  datatype Instr = Request(suffix: string) | Emit(name: string, path: seq<string>)

  function IdentityPlan(v: Version): seq<Instr> {
    if Less(v, IdentityBreak) then [Emit("graylog2_serverid", ["server_id"])]
    else [Emit("graylog2_nodeid", ["node_id"]), Emit("graylog2_clusterid", ["cluster_id"])]
  }

  function EventsSuffix(v: Version): string {
    if Less(v, EventsBreak) then CountTotalSuffix else IndexerOverviewSuffix
  }

  function EventsPath(v: Version): seq<string> {
    if Less(v, EventsBreak) then ["events"] else ["counts", "events"]
  }

  const ProcessingPlan := [Emit("graylog2_processing", ["is_processing"])]

  function EventsPlan(v: Version): seq<Instr> {
    [Request(EventsSuffix(v)), Emit("events", EventsPath(v))]
  }

  const TailPlan := [
    Request(InputsSuffix), Emit("inputs", ["total"]),
    Request(ThroughputSuffix), Emit("throughput", ["throughput"]),
    Request(FailuresSuffix), Emit("indexer_failures", ["failures"])]

  /** Everything the probe does after reading the version from /system. */
  function AfterSystemPlan(v: Version): seq<Instr> {
    IdentityPlan(v) + ProcessingPlan + EventsPlan(v) + TailPlan
  }

  /** The interpreter's state: the trace so far and the last decoded reply. */
  datatype Run = Run(trace: Trace, current: Json)

  /**
    One step: a request records its URI and either makes the reply current
    or fails with the API error; a yield either appends the field of the
    current reply as a unit-less metric or fails naming the missing path.
   */
  function Step(base: string, fetch: Oracle, instr: Instr, run: Run): (r: Run)
    requires run.trace.error.None?
    ensures instr.Request? ==>
      var reply := GetJson(fetch(RequestUri(base, instr.suffix)));
      && r.trace.requested == run.trace.requested + [RequestUri(base, instr.suffix)]
      && r.trace.metrics == run.trace.metrics
      && (reply.Success? ==> r.trace.error.None? && r.current == reply.value)
      && (reply.Failure? ==> r.trace.error == Some(ApiFailure(reply.error)))
    ensures instr.Emit? ==>
      var field := GetPath(run.current, instr.path);
      && r.trace.requested == run.trace.requested
      && r.current == run.current
      && (field.Some? ==>
            r.trace.error.None? && r.trace.metrics == run.trace.metrics + [Metric(instr.name, field.value, None)])
      && (field.None? ==> r.trace.error == Some(MissingField(instr.path)) && r.trace.metrics == run.trace.metrics)
  {
    match instr
    case Request(suffix) =>
      var uri := RequestUri(base, suffix);
      var trace := run.trace.(requested := run.trace.requested + [uri]);
      (match GetJson(fetch(uri))
       case Failure(message) => Run(trace.(error := Some(ApiFailure(message))), run.current)
       case Success(json) => Run(trace, json))
    case Emit(name, path) =>
      match GetPath(run.current, path)
      case None => run.(trace := run.trace.(error := Some(MissingField(path))))
      case Some(value) => run.(trace := run.trace.(metrics := run.trace.metrics + [Metric(name, value, None)]))
  }

  /** Runs a plan until it ends or a step fails; a failed run is left as it is. */
  function Exec(base: string, fetch: Oracle, plan: seq<Instr>, run: Run): (r: Run)
    ensures run.trace.error.Some? ==> r == run
    ensures run.trace.metrics <= r.trace.metrics && run.trace.requested <= r.trace.requested
    ensures |r.trace.metrics| <= |run.trace.metrics| + |plan| && |r.trace.requested| <= |run.trace.requested| + |plan|
    decreases |plan|
  {
    if |plan| == 0 || run.trace.error.Some? then run
    else Exec(base, fetch, plan[1..], Step(base, fetch, plan[0], run))
  }

  /** Running two plans one after the other is running their concatenation. */
  lemma {:induction false} ExecAppend(base: string, fetch: Oracle, a: seq<Instr>, b: seq<Instr>, run: Run)
    ensures Exec(base, fetch, a + b, run) == Exec(base, fetch, b, Exec(base, fetch, a, run))
    decreases |a|
  {
    if |a| > 0 && run.trace.error.None? {
      assert (a + b)[1..] == a[1..] + b;
      ExecAppend(base, fetch, a[1..], b, Step(base, fetch, a[0], run));
    } else if |a| == 0 {
      assert a + b == b;
    }
  }

  lemma ExecSingle(base: string, fetch: Oracle, a: Instr, run: Run)
    requires run.trace.error.None?
    ensures Exec(base, fetch, [a], run) == Step(base, fetch, a, run)
  {
    assert [a][1..] == [];
  }

  lemma ExecPair(base: string, fetch: Oracle, a: Instr, b: Instr, run: Run)
    requires run.trace.error.None?
    ensures var s := Step(base, fetch, a, run);
      Exec(base, fetch, [a, b], run) == if s.trace.error.Some? then s else Step(base, fetch, b, s)
  {
    var s := Step(base, fetch, a, run);
    assert [a, b][1..] == [b];
    if s.trace.error.None? {
      ExecSingle(base, fetch, b, s);
    }
  }

  /**
    `LooseVersion(system['version'])`, or why it cannot be had: the key is
    missing (or the reply is no object), or the value is not a version string.
   */
  function SystemVersion(system: Json): (r: Result<Version, ProbeError>)
    ensures Get(system, "version").None? ==> r == Failure(MissingField(["version"]))
    ensures r.Success? <==>
      Get(system, "version").Some? && Get(system, "version").value.JStr? &&
      ParseVersion(Get(system, "version").value.s).Some?
    ensures r.Success? ==> r.value == ParseVersion(Get(system, "version").value.s).value
    ensures Get(system, "version").Some? && r.Failure? ==> r.error == BadVersion(Get(system, "version"))
  {
    match Get(system, "version")
    case None => Failure(MissingField(["version"]))
    case Some(JStr(s)) =>
      (match ParseVersion(s)
       case Some(v) => Success(v)
       case None => Failure(BadVersion(Some(JStr(s)))))
    case Some(other) => Failure(BadVersion(Some(other)))
  }

  /** The last metric: the elapsed time of the run, in seconds. */
  function QueryTime(elapsed: int): Metric {
    Metric("query_time", JNum(elapsed), Some("s"))
  }

  /** The request for /system, the first thing a run does. */
  function StartRun(base: string, fetch: Oracle): Run {
    Step(base, fetch, Request(SystemSuffix), Run(Trace([], [], None), JNull))
  }

  /** A run that got through its plan ends by yielding `query_time`. */
  function Finish(done: Trace, elapsed: int): Trace {
    if done.error.Some? then done else done.(metrics := done.metrics + [QueryTime(elapsed)])
  }

  /**
    One run of the probe against `fetch`, with base URI `base`; `elapsed`
    is what the clock says the run took.
   */
  function ProbeSpec(base: string, fetch: Oracle, elapsed: int): (t: Trace)
    ensures |t.requested| >= 1 && t.requested[0] == RequestUri(base, SystemSuffix)
    ensures t.error.None? ==> |t.metrics| >= 1 && t.metrics[|t.metrics| - 1] == QueryTime(elapsed)
    ensures GetJson(fetch(RequestUri(base, SystemSuffix))).Failure? ==> t.metrics == [] && |t.requested| == 1
  {
    var start := StartRun(base, fetch);
    if start.trace.error.Some? then start.trace
    else
      match SystemVersion(start.current)
      case Failure(e) => start.trace.(error := Some(e))
      case Success(v) => Finish(Exec(base, fetch, AfterSystemPlan(v), start).trace, elapsed)
  }
}
