/** What the service leaves behind besides its results: tracing spans, log
    lines and error reports. All of them go to one ordered event stream, so
    the model can state in which order and how often they happen. */
module Telemetry {
  import opened Base
  import opened Errors

  /** One element of a structured log line or of a report's extras. */
  datatype Value =
    | VStr(s: string)
    | VInt(i: int)
      /** The elapsed wall-clock time of a call. */
    | VTook
    | VError(e: Error)

  datatype Level = Info | Warn | Error

  datatype LogLine = LogLine(level: Level, fields: seq<Value>)

  /** One error report: the reported error, its two tags and the two extras
      (None is a nil extra). */
  datatype Capture = Capture(
    err: Error,
    codeTag: string,
    methodTag: string,
    request: Option<seq<Value>>,
    response: Option<seq<Value>>)

  datatype Event =
    | SpanStarted(name: string)
    | SpanFinished(name: string)
    | Logged(line: LogLine)
    | Captured(report: Capture)

  /** A span opened and closed around a call that emits nothing else. */
  function Span(enabled: bool, name: string): seq<Event>
  {
    if enabled then [SpanStarted(name), SpanFinished(name)] else []
  }

  /** The logger, the tracer and the error reporter seen together. */
  class Sinks {
    ghost var events: seq<Event>

    constructor ()
      ensures events == []
    {
      events := [];
    }

    method Emit(e: Event)
      modifies this
      ensures events == old(events) + [e]
    {
      events := events + [e];
    }
  }
}
