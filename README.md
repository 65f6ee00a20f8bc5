# A Dafny model of the Graylog2 Nagios check

`check_graylog2.py` is a monitoring probe for a Graylog2 log server. It asks the
server's REST API for its version, identity, processing flag, event count,
number of inputs, throughput and most recent indexer failure, yields each as a
`nagiosplugin.Metric`, and hands them to contexts that turn them into
OK/WARNING/CRITICAL states and to a summary that prints the OK line.

This project models the decision logic of that check once HTTP, JSON decoding
and the clock are abstracted away:

- `Decimal` — the shortest decimal text of integers, as `'%d'` and `'%s'`
  write them, and reading it back.
- `LooseVersion` — server versions as `distutils.version.LooseVersion` sees a
  dotted numeric string: a list of numbers compared like Python lists (no
  zero padding, so "2.0" is below "2.0.0"), with a parser for strings of
  digits and dots.
- `JsonValue` — decoded replies, Python truthiness, and `value[key]` lookups
  that fail on a missing key or a non-object.
- `Evaluators` — the `graylog2_processing` and `indexer_failures` contexts and
  the OK summary line.
- `Uris` — the options the core reads, `main`'s `--url` prefix check, the base
  URI `proto://host:port[prefix]` and request URIs `base + suffix`.
- `ProbePlan` — the server as an oracle from request URI to reply, a run of
  the probe as a trace (metrics yielded, URIs requested, the exception that
  ended it), the plan of requests and yields each server version selects, and
  `ProbeSpec`, the reference definition of one run.
- `ProbeProperties` — what every run does: order of requests and metrics,
  which identity metrics and which events endpoint the version selects, and
  that `query_time` comes last and only after a complete run.
- `ProbeValues` — where each yielded value comes from, and that a run which
  fails stops at the request or the yield that failed.
- `Graylog2Check` — the class: the constructor builds the base URI step by
  step; `Probe` issues the requests in sequence and appends to the trace,
  stopping at the first failure, and is proved equal to `ProbeSpec`. Its
  body is split into three methods that follow the source's sections
  (the /system metrics, the events count, the three counters).

Two behaviours of the code are worth naming: versions are not zero-padded
(`LooseVersion` compares lists, so "2.0" takes the pre-2.0.0 branch), and a
timestamp that cannot be parsed raises when the indexer-failure context is
evaluated, not while the probe collects its metrics.

## Model

| member | source | states |
|---|---|---|
| `LooseVersion.Less` | check_graylog2.py:79 | one version is below another iff at their first difference the first has ended while the second goes on, or has the smaller component |
| `LooseVersion.LessIrreflexive` | check_graylog2.py:79 | no version is below itself |
| `LooseVersion.LessTransitive` | check_graylog2.py:79 | the version order is transitive |
| `LooseVersion.LessTotal` | check_graylog2.py:79 | two distinct versions are ordered one way and never both |
| `LooseVersion.ProperPrefixIsLess` | check_graylog2.py:79 | a proper prefix is smaller (list order, no zero padding) |
| `LooseVersion.BelowRelease` | check_graylog2.py:79-87 | below `M.0.0` are exactly the versions with a smaller first component and the proper prefixes `[]`, `[M]`, `[M, 0]` |
| `LooseVersion.ParseVersion` | check_graylog2.py:79 | a version is read exactly from non-empty strings of digits and dots; `""` never yields a comparable version |
| `LooseVersion.ParseFormatVersion` | check_graylog2.py:79 | parsing the dotted text of a non-empty version gives that version back |
| `LooseVersion.TwoPointZeroBelowTwoPointZeroPointZero` | check_graylog2.py:79 | "2.0" reads as [2, 0], which is below 2.0.0 |
| `JsonValue.Get` | check_graylog2.py:80-85 | `value[key]` succeeds exactly on an object holding the key, giving its member |
| `JsonValue.Truthy` | check_graylog2.py:23 | a value is falsy exactly when it is None, False, 0, "", [] or {} |
| `JsonValue.GetPath` | check_graylog2.py:89-92 | the empty path finds the value itself, a one-key path is one lookup, a two-key path such as `['counts']['events']` looks the second key up in what the first found, and fails if either is missing |
| `JsonValue.GetPathAppend` | check_graylog2.py:92 | looking up `p + q` is looking up `p` and then `q` in what it found, failing if either fails |
| `Evaluators.EvaluateProcessing` | check_graylog2.py:21-26 | OK iff the value is truthy, otherwise CRITICAL, no other state; the message is the processing or not-processing text according to the state |
| `Evaluators.EvaluateIndexerFailures` | check_graylog2.py:34-49 | empty list: OK "No indexer failures"; otherwise only the first record counts: an unparsable timestamp raises, WARNING iff `now - at` is under two hours with a message embedding the raw timestamp and the failure message, otherwise OK "No indexer failure within last hour" |
| `Evaluators.OnlyFirstFailureInspected` | check_graylog2.py:40 | two non-empty lists with the same first record evaluate alike |
| `Evaluators.IndexerFailureWindow` | check_graylog2.py:46-49 | exactly two hours old: OK; a microsecond younger, stamped now or in the future: WARNING; three hours old: OK |
| `Evaluators.FailureHintEmbedsRecord` | check_graylog2.py:47 | the warning message contains the raw timestamp and then the failure message at fixed positions |
| `Evaluators.SummaryOk` | check_graylog2.py:55-56 | the OK line ends in " events/sec" and what precedes it is the throughput's shortest decimal text (no leading zero, '-' only for negatives) and reads back as the throughput |
| `Evaluators.SummaryOkUnique` | check_graylog2.py:56 | any line of that form whose number is in shortest form and reads as the throughput is the OK line itself |
| `Decimal.NatToString` | check_graylog2.py:56 | a natural number's text is digits only, without a leading zero, and starts with '0' exactly for zero |
| `Decimal.IntToString` | check_graylog2.py:66 | an integer's text is in shortest form and starts with '-' exactly for negative numbers |
| `Decimal.ParseIntToString` | check_graylog2.py:56 | reading back the text of an integer gives the integer |
| `Decimal.CanonicalIntIsText` | check_graylog2.py:56 | every shortest-form text reads as some integer whose text it is, so the rendering is unique |
| `Uris.ValidateUrlPrefix` | check_graylog2.py:164-168 | an absent prefix passes; a prefix not starting with "/" fails with the start message (checked first); one ending with "/" fails with the end message |
| `Uris.ValidPrefixIff` | check_graylog2.py:164-168 | a prefix is accepted iff it is absent or starts with "/" and does not end with "/" |
| `Uris.RootAndEmptyPrefixRejected` | check_graylog2.py:164-168 | "/" and "" are rejected, "/api" accepted |
| `Uris.BaseUri` | check_graylog2.py:62-69 | the base URI is `proto://host:` followed by text that reads back as the port and then by the prefix, if one is given |
| `Uris.BaseUriScheme` | check_graylog2.py:62-66 | the base URI starts with "https://" iff ssl is set, and with "http://" iff it is not |
| `Uris.BaseUriPrefix` | check_graylog2.py:66-69 | the base URI is `proto://host:port`, followed by the prefix only when one is given |
| `Uris.ValidBaseUriJoinsWithOneSlash` | check_graylog2.py:117-118 | with an accepted prefix the base never ends in "/", so a suffix starting with "/" joins with one slash |
| `Uris.RequestUri` | check_graylog2.py:117-118 | the request URI is the base followed by the suffix, unnormalised |
| `Uris.RequestUriInjective` | check_graylog2.py:117-118 | different suffixes give different request URIs |
| `ProbePlan.GetJson` | check_graylog2.py:121-147 | a reply decodes iff it is a JSON body; HTTP, connection and non-JSON failures become the RuntimeError |
| `ProbePlan.SystemVersion` | check_graylog2.py:79 | the version is read iff `system['version']` exists and is a version string; a missing key fails as a missing field, any other value as an uncomparable version |
| `ProbePlan.Step` | check_graylog2.py:77-102 | a request records its URI and makes the reply current or fails with the API error; a yield appends the field of the current reply as a unit-less metric or fails naming the missing path |
| `ProbePlan.Exec` | check_graylog2.py:77-102 | running a plan only extends the trace, by at most one metric or request per step, and leaves a failed run unchanged |
| `ProbePlan.ProbeSpec` | check_graylog2.py:71-105 | a run requests /system first, stops with no metric when that fails, and when nothing failed ends with `query_time` |
| `ProbeProperties.ExecShape` | check_graylog2.py:71-105 | a run only extends its trace; names and URIs are prefixes of the plan's, all of them when no step fails; yielded metrics carry no unit |
| `ProbeProperties.ProbeAfterVersion` | check_graylog2.py:77-79 | after reading the version the run has requested only /system and follows that version's plan |
| `ProbeProperties.ProbeStartsWithSystem` | check_graylog2.py:77 | /system is requested first; a run that cannot read the version stops there having yielded nothing |
| `ProbeProperties.SystemFailureStopsRun` | check_graylog2.py:77 | a failed /system request ends the run with no metric and no other request |
| `ProbeProperties.ProbeFollowsPlan` | check_graylog2.py:77-105 | metrics and requests are prefixes of the planned ones (/system, the events endpoint, /system/inputs, /system/throughput, /system/indexer/failures?limit=1&offset=0); all metrics iff nothing failed, and all requests when nothing failed |
| `ProbeProperties.PlannedNamesByVersion` | check_graylog2.py:79-105 | the full metric order: identity, `graylog2_processing`, `events`, `inputs`, `throughput`, `indexer_failures`, `query_time` |
| `ProbeProperties.QueryTimeLast` | check_graylog2.py:104-105 | `query_time` is last in a complete run and the only metric with a unit ('s'); a failed run never yields it |
| `ProbeProperties.IdentityMetricsExclusive` | check_graylog2.py:79-83 | `graylog2_serverid` only below 2.0.0, `graylog2_nodeid`/`graylog2_clusterid` only from 2.0.0 on, never both kinds |
| `ProbeProperties.LegacyIdentityImpliesLegacyEvents` | check_graylog2.py:79-87 | a version below 2.0.0 is also below 4.0.0 |
| `ProbeProperties.EventsEndpoint` | check_graylog2.py:87-92 | /count/total only below 4.0.0, /system/indexer/overview only from 4.0.0 on, never both; a complete run requests the selected one |
| `ProbeValues.ExecYields` | check_graylog2.py:80-85 | yields from one reply request nothing, fail only on a missing field, and each yields the named field of that reply |
| `ProbeValues.ExecPairs` | check_graylog2.py:87-102 | a run of request-then-yield pairs that fails has made one more request than it yielded; an API failure is the reply to its last request; each metric is its pair's field |
| `ProbeValues.ExecYieldsComplete` | check_graylog2.py:80-85 | yields from one reply all succeed iff every field they name is present; one that stops the run names a field that is really missing |
| `ProbeValues.ExecPairsComplete` | check_graylog2.py:87-102 | a run of request-then-yield pairs completes iff every pair's reply decodes and holds its field; it stops at the first pair without a metric, and a missing-field stop means the last reply decoded but lacks that field |
| `ProbeValues.RunCompletes` | check_graylog2.py:77-105 | once the version is read, a run completes iff /system holds the identity fields for its version and `is_processing`, and the events, inputs, throughput and failures replies decode and hold `events` or `counts.events`, `total`, `throughput` and `failures` |
| `ProbeValues.RunEndsAtFailure` | check_graylog2.py:77-105 | a run stops at the step that failed: while yielding from /system with no other request and at most the identity metrics, or later with one metric per completed request; an API failure is the reply to the last URI requested; a complete run makes five requests and yields six metrics besides the identity |
| `ProbeValues.SystemMetricValues` | check_graylog2.py:79-85 | `graylog2_serverid` is `server_id` of /system below 2.0.0, `graylog2_nodeid` and `graylog2_clusterid` are `node_id` and `cluster_id` from 2.0.0 on, and `graylog2_processing` is `is_processing` |
| `ProbeValues.FetchedMetricValues` | check_graylog2.py:87-102 | `events` is `events` of /count/total or `counts.events` of the overview, by version; `inputs`, `throughput` and `indexer_failures` are `total`, `throughput` and `failures` of their replies |
| `ProbeValues.ProcessingVerdictFollowsSystem` | check_graylog2.py:85 | the yielded processing metric evaluates to CRITICAL iff the server's `is_processing` is falsy |
| `Graylog2Check.Graylog2Check.constructor` | check_graylog2.py:60-69 | keeps the options and sets the base URI to `BaseUri(args)` |
| `Graylog2Check.Graylog2Check.GetApiData` | check_graylog2.py:117-119 | requests `base + suffix` and returns the decoded reply or the failure |
| `Graylog2Check.Graylog2Check.Probe` | check_graylog2.py:71-105 | the imperative run equals `ProbeSpec`, so every `ProbeProperties` lemma holds of it |
| `Graylog2Check.Graylog2Check.YieldSystemMetrics` | check_graylog2.py:79-85 | the identity metrics for the version, then `graylog2_processing`, as the plan's steps |
| `Graylog2Check.Graylog2Check.ProbeEvents` | check_graylog2.py:87-92 | the events request and yield for the version, as the plan's steps |
| `Graylog2Check.Graylog2Check.ProbeCounters` | check_graylog2.py:95-102 | the inputs, throughput and indexer-failure requests and yields, as the plan's steps |

## Left out

- HTTP transport, the basic-auth opener installed process-wide (check_graylog2.py:107-115) and the Python 2/3 branches: replaced by the oracle from request URI to reply.
- JSON decoding (check_graylog2.py:143): replies arrive decoded; numbers are integers only, so floating-point values (a fractional throughput, for one) are not modelled.
- The clock (check_graylog2.py:73, 104): `query_time` carries an `elapsed` value passed in; only its position and unit are modelled.
- `strptime` (check_graylog2.py:44): each failure record carries the instant it would parse to, in microseconds, or none when the text does not match the format.
- Evaluators.EvaluateIndexerFailures: takes a list of typed records; a `failures` value that is not a list of objects with `timestamp` and `message` (a TypeError or KeyError inside `evaluate`) is not modelled, and the ValueError for a bad timestamp is represented by the timestamp text rather than Python's message.
- Evaluators.SummaryOk: takes an integer throughput; `'%s'` of a float is not modelled.
- LooseVersion.ParseVersion: version strings with characters other than digits and dots (such as "2.0.0-rc.1") make the modelled run stop with `BadVersion`, whereas `LooseVersion` would compare their mixed numeric and alphabetic components.
- nagiosplugin itself: the `ScalarContext` ranges for `throughput`, `events`, `inputs` and `query_time` (check_graylog2.py:171-175), the default context and performance data of `Graylog2ServerID` (check_graylog2.py:29-31), worst-state aggregation, exit codes and output formatting.
- argparse and its defaults (check_graylog2.py:151-162), and `int(args.port)` (check_graylog2.py:66): the options arrive parsed, the port already an integer.
- setup.py: packaging metadata.
