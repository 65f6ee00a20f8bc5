/**
  The check's own contexts, which turn one collected metric into a state and
  a message, and the summary line printed when the overall state is OK
  (check_graylog2.py, classes Graylog2Processing, Graylog2IndexerFailures and
  Graylog2Summary).
 */
module Evaluators {
  import opened Wrappers
  import opened Decimal
  import opened JsonValue

  /** The monitoring states these contexts can return. */
  datatype State = Ok | Warn | Critical

  /** A context's result: its state and the message shown for it. */
  datatype Verdict = Verdict(state: State, hint: string)

  const ProcessingHint := "Graylog2 Server is processing messages"
  const NotProcessingHint := "Graylog2 Server is not processing messages"

  /** `graylog2_processing`: OK when `is_processing` is truthy, CRITICAL otherwise. */
  function EvaluateProcessing(value: Json): (r: Verdict)
    ensures r.state == Ok || r.state == Critical
    ensures r.state == Ok <==> Truthy(value)
    ensures r.hint == if r.state == Ok then ProcessingHint else NotProcessingHint
  {
    if Truthy(value) then Verdict(Ok, ProcessingHint) else Verdict(Critical, NotProcessingHint)
  }

  /**
    One record of `/system/indexer/failures`. `at` is what `strptime` makes of
    `timestamp` with the format "%Y-%m-%dT%H:%M:%S.%fZ", as an instant in
    microseconds, or `None` when the text does not match the format.
   */
  datatype IndexerFailure = IndexerFailure(timestamp: string, at: Option<int>, message: string)

  /** `timedelta(hours=2)` in microseconds. */
  const TwoHours: int := 2 * 60 * 60 * 1000000

  const NoFailuresHint := "No indexer failures"
  const NoRecentFailureHint := "No indexer failure within last hour"

  function FailureHint(f: IndexerFailure): string {
    "Indexer failure at " + f.timestamp + ": " + f.message
  }

  /**
    `indexer_failures` at instant `now` (microseconds, UTC): only the first
    record is looked at; it warns when it is less than two hours old (a
    record from the future included). `Failure` is the ValueError `strptime`
    raises for a timestamp it cannot read, carrying that timestamp.
   */
  function EvaluateIndexerFailures(failures: seq<IndexerFailure>, now: int): (r: Result<Verdict, string>)
    ensures |failures| == 0 ==> r == Success(Verdict(Ok, NoFailuresHint))
    ensures |failures| > 0 ==> (r.Failure? <==> failures[0].at.None?)
    ensures r.Failure? ==> r.error == failures[0].timestamp
    ensures r.Success? ==> r.value.state == Ok || r.value.state == Warn
    ensures r.Success? ==>
      (r.value.state == Warn <==> |failures| > 0 && now - failures[0].at.value < TwoHours)
    ensures r.Success? && r.value.state == Warn ==> r.value.hint == FailureHint(failures[0])
    ensures r.Success? && r.value.state == Ok && |failures| > 0 ==> r.value.hint == NoRecentFailureHint
  {
    if |failures| == 0 then
      Success(Verdict(Ok, NoFailuresHint))
    else
      var failure := failures[0];
      match failure.at
      case None => Failure(failure.timestamp)
      case Some(at) =>
        if now - at < TwoHours then Success(Verdict(Warn, FailureHint(failure)))
        else Success(Verdict(Ok, NoRecentFailureHint))
  }

  /** Records after the first one never change the result. */
  lemma OnlyFirstFailureInspected(fs: seq<IndexerFailure>, gs: seq<IndexerFailure>, now: int)
    requires |fs| > 0 && |gs| > 0 && fs[0] == gs[0]
    ensures EvaluateIndexerFailures(fs, now) == EvaluateIndexerFailures(gs, now)
  {
  }

  /**
    The window is strict: a failure exactly two hours old is OK, one a
    microsecond younger warns, and so do one stamped now and one from the
    future, while one three hours old is OK.
   */
  lemma IndexerFailureWindow(ts: string, msg: string, now: int)
    ensures EvaluateIndexerFailures([IndexerFailure(ts, Some(now - TwoHours), msg)], now).value.state == Ok
    ensures EvaluateIndexerFailures([IndexerFailure(ts, Some(now - TwoHours + 1), msg)], now).value.state == Warn
    ensures EvaluateIndexerFailures([IndexerFailure(ts, Some(now), msg)], now).value.state == Warn
    ensures EvaluateIndexerFailures([IndexerFailure(ts, Some(now + 1), msg)], now).value.state == Warn
    ensures EvaluateIndexerFailures([IndexerFailure(ts, Some(now - 3 * 60 * 60 * 1000000), msg)], now).value.state == Ok
  {
  }

  /** The warning message starts with its fixed text, then the raw timestamp, then the failure's message. */
  lemma FailureHintEmbedsRecord(f: IndexerFailure)
    ensures var h := FailureHint(f);
      var n := |"Indexer failure at "|;
      |h| == n + |f.timestamp| + 2 + |f.message| &&
      h[n..n + |f.timestamp|] == f.timestamp &&
      h[n + |f.timestamp| + 2..] == f.message
  {
  }

  const EventsPerSec := " events/sec"

  /**
    The OK summary line, `'%s events/sec' % throughput`: the throughput in
    decimal, in its shortest form, which reads back as the same number,
    then " events/sec".
   */
  function SummaryOk(throughput: int): (line: string)
    ensures |line| > |EventsPerSec|
    ensures line[|line| - |EventsPerSec|..] == EventsPerSec
    ensures CanonicalInt(line[..|line| - |EventsPerSec|])
    ensures ParseInt(line[..|line| - |EventsPerSec|]) == Some(throughput)
  {
    var text := IntToString(throughput);
    ParseIntToString(throughput);
    var line := text + EventsPerSec;
    assert line[..|line| - |EventsPerSec|] == text;
    line
  }

  /**
    The summary is the only line of its form for that throughput: any line
    ending in " events/sec" whose number is written in shortest form and
    reads as the throughput is `SummaryOk(throughput)`.
   */
  lemma SummaryOkUnique(throughput: int, line: string)
    requires |line| > |EventsPerSec| && line[|line| - |EventsPerSec|..] == EventsPerSec
    requires CanonicalInt(line[..|line| - |EventsPerSec|])
    requires ParseInt(line[..|line| - |EventsPerSec|]) == Some(throughput)
    ensures line == SummaryOk(throughput)
  {
    var text := line[..|line| - |EventsPerSec|];
    CanonicalIntIsText(text);
    assert line == text + EventsPerSec;
  }
}
