/**
 * Routing of the SDK's log messages to the browser console. A message is
 * forwarded only at or above the page's minimum level, and each forwarded
 * level goes to exactly one console sink.
 *
 * The SDK's log-level enumeration is not visible here; only the order of its
 * named levels matters to the routing, so levels are integers and the named
 * levels are constants in that order.
 */
module Logging {
  import opened Handles

  const Debug: int := 1
  const Information: int := 2
  const Warning: int := 3
  const Error: int := 4

  /** The four console methods. */
  datatype Sink = ErrorSink | WarnSink | InfoSink | LogSink
  {
    /** Severity of the sink, from console.log up to console.error. */
    function Severity(): nat
    {
      match this
      case LogSink => 0
      case InfoSink => 1
      case WarnSink => 2
      case ErrorSink => 3
    }
  }

  /** A message handed to one console sink. */
  datatype ConsoleLine = ConsoleLine(sink: Sink, message: string)

  /** consoleLog: which console method a message of this level goes to. */
  function ConsoleSink(level: int): (s: Sink)
    ensures s == ErrorSink <==> level >= Error
    ensures s == WarnSink <==> Warning <= level < Error
    ensures s == InfoSink <==> Information <= level < Warning
    ensures s == LogSink <==> level < Information
  {
    if level >= Error then ErrorSink
    else if level >= Warning then WarnSink
    else if level >= Information then InfoSink
    else LogSink
  }

  /** A more severe level never goes to a less severe sink. */
  lemma {:induction false} ConsoleSinkMonotone(a: int, b: int)
    requires a <= b
    ensures ConsoleSink(a).Severity() <= ConsoleSink(b).Severity()
  {
  }

  /** `config.minimumLogLevel ?? RainwayLogLevel.Debug`. */
  function InitialMinimumLogLevel(configured: Option<int>): (r: int)
    ensures configured.Some? ==> r == configured.value
    ensures configured.None? ==> r == Debug
  {
    if configured.Some? then configured.value else Debug
  }

  /** handleLog: the console line written for a message, if any. */
  function HandleLog(minimumLogLevel: int, level: int, message: string): (r: Option<ConsoleLine>)
    ensures r.Some? <==> level >= minimumLogLevel
    ensures r.Some? ==> r.value.message == message && r.value.sink == ConsoleSink(level)
  {
    if level >= minimumLogLevel then Some(ConsoleLine(ConsoleSink(level), message)) else None
  }

  /** Raising the minimum level only ever drops messages that a lower minimum forwarded. */
  lemma {:induction false} HandleLogThresholdMonotone(low: int, high: int, level: int, message: string)
    requires low <= high
    ensures HandleLog(high, level, message).Some? ==> HandleLog(low, level, message) == HandleLog(high, level, message)
  {
  }
}
