/**
  The probe resource, `Graylog2Check`: the constructor that fixes the API
  base URI, `get_api_data`, and `probe`, which requests the API endpoints in
  sequence and yields one metric at a time.
 */
module Graylog2Check {
  import opened Wrappers
  import opened JsonValue
  import opened Decimal
  import opened LooseVersion
  import opened Uris
  import opened ProbePlan

  class Graylog2Check {
    var args: Args
    var apiBaseUri: string

    /** `__init__`: keeps the options and builds `proto://host:port[prefix]` piece by piece. */
    constructor (args: Args)
      ensures this.args == args
      ensures apiBaseUri == BaseUri(args)
    {
      this.args := args;
      var proto: string;
      if args.ssl {
        proto := "https";
      } else {
        proto := "http";
      }
      var base := proto + "://" + args.host + ":" + IntToString(args.port);
      if args.url.Some? {
        base := base + args.url.value;
      }
      apiBaseUri := base;
    }

    /** `get_api_data`: the URI it requests and what `__get_json` makes of the reply. */
    method GetApiData(fetch: Oracle, suffix: string) returns (uri: string, data: Result<Json, string>)
      ensures uri == RequestUri(apiBaseUri, suffix)
      ensures data == GetJson(fetch(uri))
    {
      uri := apiBaseUri + suffix;
      data := GetJson(fetch(uri));
    }

    /**
      `probe`: each request is logged in the trace, each yield appended to
      its metrics; the first exception ends the run with what was yielded
      so far. `elapsed` stands for `time.time() - query_start`.
     */
    method Probe(fetch: Oracle, elapsed: int) returns (trace: Trace)
      ensures trace == ProbeSpec(apiBaseUri, fetch, elapsed)
    {
      var uri, system := GetApiData(fetch, SystemSuffix);
      trace := Trace([], [uri], None);
      if system.Failure? {
        return trace.(error := Some(ApiFailure(system.error)));
      }
      // Both comparisons of the source read the same `system['version']`.
      var version := SystemVersion(system.value);
      if version.Failure? {
        return trace.(error := Some(version.error));
      }
      ghost var base, v := apiBaseUri, version.value;
      ghost var start := Run(trace, system.value);
      assert StartRun(base, fetch) == start;
      assert AfterSystemPlan(v) == (IdentityPlan(v) + ProcessingPlan) + (EventsPlan(v) + TailPlan);
      ExecAppend(base, fetch, IdentityPlan(v) + ProcessingPlan, EventsPlan(v) + TailPlan, start);

      trace := YieldSystemMetrics(fetch, system.value, version.value, trace);
      if trace.error.Some? {
        assert Exec(base, fetch, EventsPlan(v) + TailPlan, Run(trace, system.value)) == Run(trace, system.value);
        return;
      }
      ghost var afterSystem := Run(trace, system.value);
      ExecAppend(base, fetch, EventsPlan(v), TailPlan, afterSystem);

      trace := ProbeEvents(fetch, version.value, trace, system.value);
      if trace.error.Some? {
        return;
      }
      ghost var afterEvents := Exec(base, fetch, EventsPlan(v), afterSystem);

      trace := ProbeCounters(fetch, trace, afterEvents.current);
      if trace.error.Some? {
        return;
      }
      trace := trace.(metrics := trace.metrics + [QueryTime(elapsed)]);
    }

    /** The identity metrics for version `v`, then `graylog2_processing`, all read from the /system reply. */
    method YieldSystemMetrics(ghost fetch: Oracle, system: Json, v: Version, trace: Trace) returns (next: Trace)
      requires trace.error.None?
      ensures Run(next, system) == Exec(apiBaseUri, fetch, IdentityPlan(v) + ProcessingPlan, Run(trace, system))
    {
      ghost var start := Run(trace, system);
      ghost var idp := IdentityPlan(v);
      ExecAppend(apiBaseUri, fetch, idp, ProcessingPlan, start);
      if Less(v, IdentityBreak) {
        ExecSingle(apiBaseUri, fetch, idp[0], start);
      } else {
        ExecPair(apiBaseUri, fetch, idp[0], idp[1], start);
      }
      var metrics := trace.metrics;
      if Less(v, IdentityBreak) {
        var serverId := Get(system, "server_id");
        if serverId.None? {
          return trace.(error := Some(MissingField(["server_id"])));
        }
        metrics := metrics + [Metric("graylog2_serverid", serverId.value, None)];
      } else {
        var nodeId := Get(system, "node_id");
        if nodeId.None? {
          return trace.(error := Some(MissingField(["node_id"])));
        }
        metrics := metrics + [Metric("graylog2_nodeid", nodeId.value, None)];
        var clusterId := Get(system, "cluster_id");
        if clusterId.None? {
          return trace.(metrics := metrics, error := Some(MissingField(["cluster_id"])));
        }
        metrics := metrics + [Metric("graylog2_clusterid", clusterId.value, None)];
      }
      assert Exec(apiBaseUri, fetch, idp, start) == Run(trace.(metrics := metrics), system);

      ExecSingle(apiBaseUri, fetch, Emit("graylog2_processing", ["is_processing"]), Run(trace.(metrics := metrics), system));
      var isProcessing := Get(system, "is_processing");
      if isProcessing.None? {
        return trace.(metrics := metrics, error := Some(MissingField(["is_processing"])));
      }
      next := trace.(metrics := metrics + [Metric("graylog2_processing", isProcessing.value, None)]);
    }

    /**
      `events`: below 4.0.0 the field `events` of /count/total, from 4.0.0
      on the field `counts.events` of /system/indexer/overview.
     */
    method ProbeEvents(fetch: Oracle, v: Version, trace: Trace, ghost current: Json) returns (next: Trace)
      requires trace.error.None?
      ensures next == Exec(apiBaseUri, fetch, EventsPlan(v), Run(trace, current)).trace
    {
      ExecPair(apiBaseUri, fetch, Request(EventsSuffix(v)), Emit("events", EventsPath(v)), Run(trace, current));
      var uri, events, count;
      if Less(v, EventsBreak) {
        uri, events := GetApiData(fetch, CountTotalSuffix);
        next := trace.(requested := trace.requested + [uri]);
        if events.Failure? {
          return next.(error := Some(ApiFailure(events.error)));
        }
        count := Get(events.value, "events");
        if count.None? {
          return next.(error := Some(MissingField(["events"])));
        }
      } else {
        uri, events := GetApiData(fetch, IndexerOverviewSuffix);
        next := trace.(requested := trace.requested + [uri]);
        if events.Failure? {
          return next.(error := Some(ApiFailure(events.error)));
        }
        count := GetPath(events.value, ["counts", "events"]);
        if count.None? {
          return next.(error := Some(MissingField(["counts", "events"])));
        }
      }
      next := next.(metrics := next.metrics + [Metric("events", count.value, None)]);
    }

    /** `inputs`, `throughput` and `indexer_failures`, one request each. */
    method ProbeCounters(fetch: Oracle, trace: Trace, ghost current: Json) returns (next: Trace)
      requires trace.error.None?
      ensures next == Exec(apiBaseUri, fetch, TailPlan, Run(trace, current)).trace
    {
      ghost var base := apiBaseUri;
      ghost var inputsPair := [Request(InputsSuffix), Emit("inputs", ["total"])];
      ghost var throughputPair := [Request(ThroughputSuffix), Emit("throughput", ["throughput"])];
      ghost var failuresPair := [Request(FailuresSuffix), Emit("indexer_failures", ["failures"])];
      assert TailPlan == inputsPair + (throughputPair + failuresPair);
      ExecAppend(base, fetch, inputsPair, throughputPair + failuresPair, Run(trace, current));
      ExecPair(base, fetch, inputsPair[0], inputsPair[1], Run(trace, current));

      var uri, inputs := GetApiData(fetch, InputsSuffix);
      next := trace.(requested := trace.requested + [uri]);
      if inputs.Failure? {
        return next.(error := Some(ApiFailure(inputs.error)));
      }
      var total := Get(inputs.value, "total");
      if total.None? {
        return next.(error := Some(MissingField(["total"])));
      }
      next := next.(metrics := next.metrics + [Metric("inputs", total.value, None)]);
      ghost var run := Run(next, inputs.value);
      ExecAppend(base, fetch, throughputPair, failuresPair, run);
      ExecPair(base, fetch, throughputPair[0], throughputPair[1], run);

      var throughput;
      uri, throughput := GetApiData(fetch, ThroughputSuffix);
      next := next.(requested := next.requested + [uri]);
      if throughput.Failure? {
        return next.(error := Some(ApiFailure(throughput.error)));
      }
      var rate := Get(throughput.value, "throughput");
      if rate.None? {
        return next.(error := Some(MissingField(["throughput"])));
      }
      next := next.(metrics := next.metrics + [Metric("throughput", rate.value, None)]);
      run := Run(next, throughput.value);
      ExecPair(base, fetch, failuresPair[0], failuresPair[1], run);

      var indexerFailures;
      uri, indexerFailures := GetApiData(fetch, FailuresSuffix);
      next := next.(requested := next.requested + [uri]);
      if indexerFailures.Failure? {
        return next.(error := Some(ApiFailure(indexerFailures.error)));
      }
      var failures := Get(indexerFailures.value, "failures");
      if failures.None? {
        return next.(error := Some(MissingField(["failures"])));
      }
      next := next.(metrics := next.metrics + [Metric("indexer_failures", failures.value, None)]);
    }
  }
}
