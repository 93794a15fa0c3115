/** The decorators stacked around the user service (pkg/user/logging.go,
    pkg/user/sentry.go, and the pass-through metrics and tracing layers).
    Each decorator calls the service it wraps and returns that service's
    results unchanged; after the inner call it may emit a log line or an
    error report. A tracing layer opens a span before the inner call and
    closes it after. */
module UserDecorators {
  import opened Base
  import opened Text
  import opened Errors
  import opened UserRepository
  import opened Telemetry
  import opened UserMessages
  import opened UserService

  datatype Layer = Metrics | Logging | Tracing | Sentry

  /** A service as composed at start-up: the core service, or a decorator
      around another service. */
  datatype Stack = Core | Wrap(layer: Layer, inner: Stack)

  /** The layers from the outermost inwards. */
  function Layers(s: Stack): (ls: seq<Layer>)
    ensures |ls| == Depth(s)
  {
    if s.Core? then [] else [s.layer] + Layers(s.inner)
  }

  function Depth(s: Stack): nat
  {
    if s.Core? then 0 else 1 + Depth(s.inner)
  }

  /** How many layers of a kind the stack holds. */
  function Occurrences(s: Stack, l: Layer): nat
  {
    if s.Core? then 0 else (if s.layer == l then 1 else 0) + Occurrences(s.inner, l)
  }

  datatype HTTPInfo = HTTPInfo(verb: string, url: string, from: string, protocol: string)

  /** The request context as the decorators read it: the gRPC marker and
      the HTTP request information, each present or not. */
  datatype Context = Context(grpc: bool, http: Option<HTTPInfo>)

  /** The optional `Log()` and `SentryLog()` methods of the request and
      response types: None when the type does not have the method. */
  datatype Capabilities = Capabilities(
    requestLog: Request -> Option<seq<Value>>,
    responseLog: Response -> Option<seq<Value>>,
    requestSentryLog: Request -> Option<seq<Value>>,
    responseSentryLog: Response -> Option<seq<Value>>)

  /** The response the deferred steps see: none after a panic. */
  function ResponseOf(o: Outcome): Option<Response>
  {
    if o.Returned? then Some(o.resp) else None
  }

  // ---------------------------------------------------------------------
  // Logging

  /** `getInfoFromContext`: "protocol" "GRPC" for a gRPC call, then "url"
      and the request URI for an HTTP call. */
  function ContextFields(ctx: Context): (m: seq<Value>)
    ensures |m| == (if ctx.grpc then 2 else 0) + (if ctx.http.Some? then 2 else 0)
    ensures ctx.grpc ==> m[..2] == [VStr("protocol"), VStr("GRPC")]
    ensures ctx.http.Some? ==> m[|m| - 2..] == [VStr("url"), VStr(ctx.http.value.url)]
  {
    (if ctx.grpc then [VStr("protocol"), VStr("GRPC")] else [])
    + (if ctx.http.Some? then [VStr("url"), VStr(ctx.http.value.url)] else [])
  }

  function Present(v: Option<seq<Value>>): seq<Value>
  {
    if v.Some? then v.value else []
  }

  /** `getLog`: the request's `Log()` pairs, then the response's. */
  function GetLog(req: Request, resp: Option<Response>, caps: Capabilities): (out: seq<Value>)
    ensures |out| == |Present(caps.requestLog(req))| + (if resp.Some? then |Present(caps.responseLog(resp.value))| else 0)
    ensures out[..|Present(caps.requestLog(req))|] == Present(caps.requestLog(req))
    ensures resp.Some? ==> out[|Present(caps.requestLog(req))|..] == Present(caps.responseLog(resp.value))
  {
    Present(caps.requestLog(req)) + (if resp.Some? then Present(caps.responseLog(resp.value)) else [])
  }

  /** The fields every log line starts with, in order. */
  function CommonFields(ctx: Context, req: Request, o: Outcome, caps: Capabilities): seq<Value>
  {
    ContextFields(ctx)
    + [VStr("code"), VInt(StatusCode(ErrorOf(o))), VStr("method"), VStr(MethodName(req)), VStr("took"), VTook]
    + GetLog(req, ResponseOf(o), caps)
  }

  /** The line the logging decorator writes after the inner call: a warning
      carrying the error under "msg" when it classifies as 404, an error
      carrying it under "err" for any other error, information otherwise. */
  function LogLineFor(ctx: Context, req: Request, o: Outcome, caps: Capabilities): (line: LogLine)
    ensures line.level == Warn <==> StatusCode(ErrorOf(o)) == StatusNotFound
    ensures line.level == Info <==> ErrorOf(o).None?
    ensures line.level == Error <==> ErrorOf(o).Some? && StatusCode(ErrorOf(o)) != StatusNotFound
    ensures ErrorOf(o).None? ==> line.fields == CommonFields(ctx, req, o, caps)
    ensures ErrorOf(o).Some? ==>
      line.fields == CommonFields(ctx, req, o, caps)
                     + [VStr(if line.level == Warn then "msg" else "err"), VError(ErrorOf(o).value)]
  {
    var err := ErrorOf(o);
    var m := CommonFields(ctx, req, o, caps);
    if StatusCode(err) == StatusNotFound then LogLine(Warn, m + [VStr("msg"), VError(err.value)])
    else if err.Some? then LogLine(Error, m + [VStr("err"), VError(err.value)])
    else LogLine(Info, m)
  }

  /** The fixed part of a log line sits between the context fields and the
      request and response pairs. */
  lemma LogLineLayout(ctx: Context, req: Request, o: Outcome, caps: Capabilities)
    ensures var f := LogLineFor(ctx, req, o, caps).fields;
      var c := |ContextFields(ctx)|;
      && f[..c] == ContextFields(ctx)
      && f[c..c + 6] == [VStr("code"), VInt(StatusCode(ErrorOf(o))), VStr("method"), VStr(MethodName(req)), VStr("took"), VTook]
      && f[c + 6..c + 6 + |GetLog(req, ResponseOf(o), caps)|] == GetLog(req, ResponseOf(o), caps)
  {
    var f := LogLineFor(ctx, req, o, caps).fields;
    var cf := ContextFields(ctx);
    var fixed := [VStr("code"), VInt(StatusCode(ErrorOf(o))), VStr("method"), VStr(MethodName(req)), VStr("took"), VTook];
    var gl := GetLog(req, ResponseOf(o), caps);
    var common := cf + fixed + gl;
    assert common == CommonFields(ctx, req, o, caps);
    assert f[..|common|] == common;
    assert f[..|cf|] == common[..|cf|] == cf;
    assert f[|cf|..|cf| + 6] == common[|cf|..|cf| + 6] == fixed;
    assert f[|cf| + 6..|cf| + 6 + |gl|] == common[|cf| + 6..] == gl;
  }

  /** A call that panics is logged as a success: the deferred step sees a
      nil error, so the line is informational and carries code 200. */
  lemma PanicIsLoggedAsSuccess(ctx: Context, req: Request, caps: Capabilities)
    ensures LogLineFor(ctx, req, Panicked, caps).level == Info
    ensures VInt(StatusOK) in LogLineFor(ctx, req, Panicked, caps).fields
  {
    var f := LogLineFor(ctx, req, Panicked, caps).fields;
    assert f[|ContextFields(ctx)| + 1] == VInt(StatusOK);
  }

  // ---------------------------------------------------------------------
  // Error reports

  /** `getSentryLog`: the `SentryLog()` values of the request and of the
      response, under "request" and "response", each present only when
      the type has the method. */
  method GetSentryLog(req: Request, resp: Option<Response>, caps: Capabilities)
    returns (out: map<string, seq<Value>>)
    ensures out.Keys <= {"request", "response"}
    ensures "request" in out <==> caps.requestSentryLog(req).Some?
    ensures "request" in out ==> out["request"] == caps.requestSentryLog(req).value
    ensures "response" in out <==> resp.Some? && caps.responseSentryLog(resp.value).Some?
    ensures "response" in out ==> out["response"] == caps.responseSentryLog(resp.value).value
  {
    out := map[];
    var fromRequest := caps.requestSentryLog(req);
    if fromRequest.Some? {
      out := out["request" := Lookup(out, "request") + fromRequest.value];
    }
    if resp.Some? {
      var fromResponse := caps.responseSentryLog(resp.value);
      if fromResponse.Some? {
        out := out["response" := Lookup(out, "response") + fromResponse.value];
      }
    }
  }

  /** Reading a missing key gives the nil slice. */
  function Lookup(m: map<string, seq<Value>>, key: string): seq<Value>
  {
    if key in m then m[key] else []
  }

  /** A report extra: a nil slice unless something was appended to it. */
  function Extra(m: map<string, seq<Value>>, key: string): Option<seq<Value>>
  {
    if Lookup(m, key) == [] then None else Some(m[key])
  }

  function NonEmpty(v: Option<seq<Value>>): Option<seq<Value>>
  {
    if v.Some? && v.value != [] then v else None
  }

  /** The report the Sentry decorator sends for a failed call. */
  function CaptureFor(req: Request, o: Outcome, caps: Capabilities): (c: Capture)
    requires ErrorOf(o).Some?
    ensures c.err == ErrorOf(o).value
    ensures c.codeTag == IntToString(StatusCode(ErrorOf(o)))
    ensures c.methodTag == MethodName(req)
    ensures c.request.Some? <==> caps.requestSentryLog(req).Some? && caps.requestSentryLog(req).value != []
    ensures c.request.Some? ==> c.request == caps.requestSentryLog(req)
    ensures c.response.Some? <==> caps.responseSentryLog(o.resp).Some? && caps.responseSentryLog(o.resp).value != []
    ensures c.response.Some? ==> c.response == caps.responseSentryLog(o.resp)
  {
    Capture(o.err.value, IntToString(StatusCode(o.err)), MethodName(req),
            NonEmpty(caps.requestSentryLog(req)), NonEmpty(caps.responseSentryLog(o.resp)))
  }

  /** Reports of calls that failed with different status codes carry
      different code tags. */
  lemma CodeTagsDistinguishCodes(req: Request, o1: Outcome, o2: Outcome, caps: Capabilities)
    requires ErrorOf(o1).Some? && ErrorOf(o2).Some?
    requires StatusCode(ErrorOf(o1)) != StatusCode(ErrorOf(o2))
    ensures CaptureFor(req, o1, caps).codeTag != CaptureFor(req, o2, caps).codeTag
  {
    if CaptureFor(req, o1, caps).codeTag == CaptureFor(req, o2, caps).codeTag {
      IntToStringInjective(StatusCode(ErrorOf(o1)), StatusCode(ErrorOf(o2)));
    }
  }

  // ---------------------------------------------------------------------
  // The composed call

  /** The events of the core service: a repository span when the
      repository is traced and the call reaches it. */
  function CoreEvents(traced: bool, req: Request): seq<Event>
  {
    match req
    case UpdateUserCall(u) => Span(traced && u.data.Some?, "UpdateUser")
    case SearchUserCall(q) => Span(traced && q.surname != [], "FindBySurname")
  }

  /** Every event one call through the stack emits, in order. Tracing spans
      of the service layer are named "Version" for both methods. */
  function Events(s: Stack, traced: bool, ctx: Context, req: Request, o: Outcome, caps: Capabilities): seq<Event>
  {
    match s
    case Core => CoreEvents(traced, req)
    case Wrap(Metrics, inner) => Events(inner, traced, ctx, req, o, caps)
    case Wrap(Logging, inner) => Events(inner, traced, ctx, req, o, caps) + [Logged(LogLineFor(ctx, req, o, caps))]
    case Wrap(Tracing, inner) => [SpanStarted("Version")] + Events(inner, traced, ctx, req, o, caps) + [SpanFinished("Version")]
    case Wrap(Sentry, inner) =>
      Events(inner, traced, ctx, req, o, caps)
      + (if ErrorOf(o).Some? then [Captured(CaptureFor(req, o, caps))] else [])
  }

  /** What the core service may do with a table: the result and the new
      table of `UpdateUser`, or a result of `SearchUser` and no change. */
  ghost predicate CoreAllows(rows: map<uint64, Record>, req: Request, db: Faults, o: Outcome, rows': map<uint64, Record>)
  {
    match req
    case UpdateUserCall(u) => o == UpdateOutcome(rows, u, db) && rows' == RowsAfterUpdate(rows, u, db)
    case SearchUserCall(q) => SearchResult(rows, q, db, o) && rows' == rows
  }

  method CoreCall(t: UserTable, traced: bool, sinks: Sinks, req: Request, db: Faults) returns (o: Outcome)
    requires t.Valid()
    modifies t, sinks
    ensures t.Valid()
    ensures CoreAllows(old(t.rows), req, db, o, t.rows)
    ensures sinks.events == old(sinks.events) + CoreEvents(traced, req)
  {
    match req
    case UpdateUserCall(u) =>
      o := UpdateUser(t, traced, sinks, u, db);
    case SearchUserCall(q) =>
      o := SearchUser(t, traced, sinks, q, db);
  }

  /** One call through the composed service. Whatever the layers, the
      result is one the core service allows, and the table changes as the
      core changes it. */
  method Call(s: Stack, t: UserTable, traced: bool, sinks: Sinks, ctx: Context, req: Request, db: Faults, caps: Capabilities)
    returns (o: Outcome)
    requires t.Valid()
    modifies t, sinks
    decreases s, 1
    ensures t.Valid()
    ensures CoreAllows(old(t.rows), req, db, o, t.rows)
    ensures sinks.events == old(sinks.events) + Events(s, traced, ctx, req, o, caps)
  {
    if s.Core? {
      o := CoreCall(t, traced, sinks, req, db);
    } else if s.layer == Metrics {
      o := Call(s.inner, t, traced, sinks, ctx, req, db, caps);
    } else if s.layer == Logging {
      o := LoggingCall(s.inner, t, traced, sinks, ctx, req, db, caps);
    } else if s.layer == Tracing {
      o := TracingCall(s.inner, t, traced, sinks, ctx, req, db, caps);
    } else {
      o := SentryCall(s.inner, t, traced, sinks, ctx, req, db, caps);
    }
  }

  /** `loggingService.UpdateUser` and `loggingService.SearchUser`. */
  method LoggingCall(inner: Stack, t: UserTable, traced: bool, sinks: Sinks, ctx: Context, req: Request, db: Faults, caps: Capabilities)
    returns (o: Outcome)
    requires t.Valid()
    modifies t, sinks
    decreases inner, 2
    ensures t.Valid()
    ensures CoreAllows(old(t.rows), req, db, o, t.rows)
    ensures sinks.events == old(sinks.events) + Events(inner, traced, ctx, req, o, caps) + [Logged(LogLineFor(ctx, req, o, caps))]
  {
    o := Call(inner, t, traced, sinks, ctx, req, db, caps);
    var err := ErrorOf(o);
    var m := ContextFields(ctx);
    m := m + [VStr("code"), VInt(StatusCode(err)), VStr("method"), VStr(MethodName(req)), VStr("took"), VTook];
    m := m + GetLog(req, ResponseOf(o), caps);
    var line;
    if StatusCode(err) == StatusNotFound {
      m := m + [VStr("msg"), VError(err.value)];
      line := LogLine(Warn, m);
    } else if err.Some? {
      m := m + [VStr("err"), VError(err.value)];
      line := LogLine(Error, m);
    } else {
      line := LogLine(Info, m);
    }
    sinks.Emit(Logged(line));
  }

  /** `tracingService.UpdateUser` and `tracingService.SearchUser`. */
  method TracingCall(inner: Stack, t: UserTable, traced: bool, sinks: Sinks, ctx: Context, req: Request, db: Faults, caps: Capabilities)
    returns (o: Outcome)
    requires t.Valid()
    modifies t, sinks
    decreases inner, 2
    ensures t.Valid()
    ensures CoreAllows(old(t.rows), req, db, o, t.rows)
    ensures sinks.events == old(sinks.events) + [SpanStarted("Version")] + Events(inner, traced, ctx, req, o, caps) + [SpanFinished("Version")]
  {
    sinks.Emit(SpanStarted("Version"));
    o := Call(inner, t, traced, sinks, ctx, req, db, caps);
    sinks.Emit(SpanFinished("Version"));
  }

  /** `sentryService.UpdateUser` and `sentryService.SearchUser`. */
  method SentryCall(inner: Stack, t: UserTable, traced: bool, sinks: Sinks, ctx: Context, req: Request, db: Faults, caps: Capabilities)
    returns (o: Outcome)
    requires t.Valid()
    modifies t, sinks
    decreases inner, 2
    ensures t.Valid()
    ensures CoreAllows(old(t.rows), req, db, o, t.rows)
    ensures sinks.events == old(sinks.events) + Events(inner, traced, ctx, req, o, caps)
                            + (if ErrorOf(o).Some? then [Captured(CaptureFor(req, o, caps))] else [])
  {
    o := Call(inner, t, traced, sinks, ctx, req, db, caps);
    var err := ErrorOf(o);
    if err.Some? {
      var log := GetSentryLog(req, ResponseOf(o), caps);
      var report := Capture(err.value, IntToString(StatusCode(err)), MethodName(req),
                            Extra(log, "request"), Extra(log, "response"));
      sinks.Emit(Captured(report));
    }
  }

  // ---------------------------------------------------------------------
  // Counting events

  datatype Kind = Starts | Finishes | Logs | Reports

  predicate IsKind(e: Event, k: Kind)
  {
    match k
    case Starts => e.SpanStarted?
    case Finishes => e.SpanFinished?
    case Logs => e.Logged?
    case Reports => e.Captured?
  }

  /** How many events of a kind a stream holds. */
  function Tally(evs: seq<Event>, k: Kind): nat
  {
    if evs == [] then 0 else Tally(evs[..|evs| - 1], k) + (if IsKind(evs[|evs| - 1], k) then 1 else 0)
  }

  lemma {:induction false} TallyConcat(a: seq<Event>, b: seq<Event>, k: Kind)
    ensures Tally(a + b, k) == Tally(a, k) + Tally(b, k)
    decreases |b|
  {
    if b == [] {
      assert a + b == a;
    } else {
      assert (a + b)[..|a + b| - 1] == a + b[..|b| - 1];
      TallyConcat(a, b[..|b| - 1], k);
    }
  }

  lemma TallySingle(e: Event, k: Kind)
    ensures Tally([e], k) == if IsKind(e, k) then 1 else 0
  {
    assert [e][..0] == [];
  }

  /** How many events of a kind one call emits, by the layers of the stack,
      whether the call failed and whether a repository span was emitted. */
  function Expected(s: Stack, k: Kind, failed: bool, repoSpan: bool): nat
  {
    match k
    case Logs => Occurrences(s, Logging)
    case Reports => if failed then Occurrences(s, Sentry) else 0
    case Starts => Occurrences(s, Tracing) + (if repoSpan then 1 else 0)
    case Finishes => Occurrences(s, Tracing) + (if repoSpan then 1 else 0)
  }

  lemma TallyAppend(a: seq<Event>, e: Event, k: Kind)
    ensures Tally(a + [e], k) == Tally(a, k) + (if IsKind(e, k) then 1 else 0)
  {
    TallyConcat(a, [e], k);
    TallySingle(e, k);
  }

  lemma TallyAround(b: Event, a: seq<Event>, f: Event, k: Kind)
    ensures Tally([b] + a + [f], k) == Tally(a, k) + (if IsKind(b, k) then 1 else 0) + (if IsKind(f, k) then 1 else 0)
  {
    TallyAppend([b] + a, f, k);
    TallyConcat([b], a, k);
    TallySingle(b, k);
  }

  lemma TallyCore(traced: bool, req: Request, k: Kind)
    ensures Tally(CoreEvents(traced, req), k) ==
      if |CoreEvents(traced, req)| > 0 && (k == Starts || k == Finishes) then 1 else 0
  {
    var core := CoreEvents(traced, req);
    if |core| > 0 {
      assert core == [SpanStarted(core[0].name)] + [] + [SpanFinished(core[0].name)];
      TallyAround(SpanStarted(core[0].name), [], SpanFinished(core[0].name), k);
    }
  }

  /** One layer adds its own events to those of the stack it wraps. */
  lemma TallyLayer(s: Stack, traced: bool, ctx: Context, req: Request, o: Outcome, caps: Capabilities, k: Kind)
    requires s.Wrap?
    ensures Tally(Events(s, traced, ctx, req, o, caps), k) ==
      Tally(Events(s.inner, traced, ctx, req, o, caps), k)
      + (if s.layer == Logging && k == Logs then 1 else 0)
      + (if s.layer == Tracing && (k == Starts || k == Finishes) then 1 else 0)
      + (if s.layer == Sentry && k == Reports && ErrorOf(o).Some? then 1 else 0)
  {
    var inner := Events(s.inner, traced, ctx, req, o, caps);
    var all := Events(s, traced, ctx, req, o, caps);
    match s.layer
    case Metrics =>
    case Logging =>
      var e := Logged(LogLineFor(ctx, req, o, caps));
      assert all == inner + [e];
      TallyAppend(inner, e, k);
    case Tracing =>
      TallyAround(SpanStarted("Version"), inner, SpanFinished("Version"), k);
    case Sentry =>
      if ErrorOf(o).Some? {
        var e := Captured(CaptureFor(req, o, caps));
        assert all == inner + [e];
        TallyAppend(inner, e, k);
      } else {
        assert all == inner + [];
        assert inner + [] == inner;
      }
  }

  lemma {:induction false} TallyEvents(s: Stack, traced: bool, ctx: Context, req: Request, o: Outcome, caps: Capabilities, k: Kind)
    ensures Tally(Events(s, traced, ctx, req, o, caps), k) ==
      Expected(s, k, ErrorOf(o).Some?, |CoreEvents(traced, req)| > 0)
  {
    if s.Core? {
      TallyCore(traced, req, k);
    } else {
      TallyEvents(s.inner, traced, ctx, req, o, caps, k);
      TallyLayer(s, traced, ctx, req, o, caps, k);
    }
  }

  /** Exactly one log line per logging layer, on success, on error and on
      a panic alike. */
  lemma OneLinePerLoggingLayer(s: Stack, traced: bool, ctx: Context, req: Request, o: Outcome, caps: Capabilities)
    ensures Tally(Events(s, traced, ctx, req, o, caps), Logs) == Occurrences(s, Logging)
  {
    TallyEvents(s, traced, ctx, req, o, caps, Logs);
  }

  /** Exactly one report per Sentry layer when the call failed, and none
      when it succeeded or panicked. */
  lemma ReportsOnlyOnError(s: Stack, traced: bool, ctx: Context, req: Request, o: Outcome, caps: Capabilities)
    ensures Tally(Events(s, traced, ctx, req, o, caps), Reports) ==
      if ErrorOf(o).Some? then Occurrences(s, Sentry) else 0
  {
    TallyEvents(s, traced, ctx, req, o, caps, Reports);
  }

  /** Every span that is opened is closed: one pair per tracing layer, and
      one more around a traced repository call. */
  lemma SpansArePaired(s: Stack, traced: bool, ctx: Context, req: Request, o: Outcome, caps: Capabilities)
    ensures Tally(Events(s, traced, ctx, req, o, caps), Starts) == Tally(Events(s, traced, ctx, req, o, caps), Finishes)
    ensures Tally(Events(s, traced, ctx, req, o, caps), Starts) ==
      Occurrences(s, Tracing) + (if |CoreEvents(traced, req)| > 0 then 1 else 0)
  {
    TallyEvents(s, traced, ctx, req, o, caps, Starts);
    TallyEvents(s, traced, ctx, req, o, caps, Finishes);
  }

  /** Every log line and every report of one call describe that call: the
      same method, the same classified code, the same error. */
  lemma {:induction false} EventsDescribeTheCall(s: Stack, traced: bool, ctx: Context, req: Request, o: Outcome, caps: Capabilities)
    ensures forall e :: e in Events(s, traced, ctx, req, o, caps) && e.Logged? ==> e.line == LogLineFor(ctx, req, o, caps)
    ensures forall e :: e in Events(s, traced, ctx, req, o, caps) && e.Captured? ==>
      ErrorOf(o).Some? && e.report == CaptureFor(req, o, caps)
    ensures forall e :: e in Events(s, traced, ctx, req, o, caps) && (e.SpanStarted? || e.SpanFinished?) ==>
      e.name in {"Version", "UpdateUser", "FindBySurname"}
  {
    if s.Wrap? {
      EventsDescribeTheCall(s.inner, traced, ctx, req, o, caps);
    }
  }
}
