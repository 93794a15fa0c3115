/** The HTTP transport of the user service (pkg/user/http.go): the route
    table, the two request decoders, the response and error encoders, and
    the CORS middleware in front of the router. Query-string and JSON
    decoding are abstract: a decoder is handed their outcome. */
module UserHTTP {
  import opened Base
  import opened Errors
  import opened UserRepository
  import opened Telemetry
  import opened UserMessages
  import opened UserDecorators
  import opened Validation
  import UserEndpoints

  // ---------------------------------------------------------------------
  // Routes

  datatype Route = UpdateUserRoute | SearchUserRoute

  /** The route table: `PUT /user` and `GET /user/search`, nothing else. */
  function RouteFor(verb: string, path: string): (r: Option<Route>)
    ensures r == Some(UpdateUserRoute) <==> verb == "PUT" && path == "/user"
    ensures r == Some(SearchUserRoute) <==> verb == "GET" && path == "/user/search"
  {
    if verb == "PUT" && path == "/user" then Some(UpdateUserRoute)
    else if verb == "GET" && path == "/user/search" then Some(SearchUserRoute)
    else None
  }

  /** Each method is reachable on exactly one path, and no other verb is
      routed at all. */
  lemma OnlyTwoRoutes(verb: string, path: string)
    ensures RouteFor(verb, path).Some? ==> verb in {"PUT", "GET"}
    ensures RouteFor(verb, path) == Some(UpdateUserRoute) ==> path == "/user"
    ensures RouteFor(verb, path) == Some(SearchUserRoute) ==> path == "/user/search"
    ensures verb == "OPTIONS" ==> RouteFor(verb, path).None?
  {
  }

  // ---------------------------------------------------------------------
  // Decoders

  /** `decodeGETSearchUserRequest`: a query that does not decode is wrapped
      around `ErrInvalidArgument`; a request that fails validation is
      wrapped around `ErrInvalidRequest`. */
  function DecodeSearchUserRequest(query: Result<SearchUserRequest, string>, v: Validator<SearchUserRequest>)
    : (r: Result<Request, Error>)
    ensures query.Failure? ==> r == Failure(Wrapped(Sentinel(InvalidArgument), query.error))
    ensures query.Success? && Validate(v, query.value).Some? ==>
      r == Failure(Wrapped(Sentinel(InvalidRequest), Message(Validate(v, query.value).value)))
    ensures query.Success? && Validate(v, query.value).None? ==> r == Success(SearchUserCall(query.value))
  {
    if query.Failure? then Failure(Wrapped(Sentinel(InvalidArgument), query.error))
    else
      var err := Validate(v, query.value);
      if err.Some? then Failure(Wrapped(Sentinel(InvalidRequest), Message(err.value)))
      else Success(SearchUserCall(query.value))
  }

  /** `decodePUTUpdateUserRequest`: a body that does not decode is wrapped
      with "decode request body"; validation as for the search. */
  function DecodeUpdateUserRequest(body: Result<UpdateUserRequest, string>, v: Validator<UpdateUserRequest>)
    : (r: Result<Request, Error>)
    ensures body.Failure? ==> r == Failure(Wrapped(Other(body.error), "decode request body"))
    ensures body.Success? && Validate(v, body.value).Some? ==>
      r == Failure(Wrapped(Sentinel(InvalidRequest), Message(Validate(v, body.value).value)))
    ensures body.Success? && Validate(v, body.value).None? ==> r == Success(UpdateUserCall(body.value))
  {
    if body.Failure? then Failure(Wrapped(Other(body.error), "decode request body"))
    else
      var err := Validate(v, body.value);
      if err.Some? then Failure(Wrapped(Sentinel(InvalidRequest), Message(err.value)))
      else Success(UpdateUserCall(body.value))
  }

  /** The status a decoding failure is answered with: 400 for a query that
      does not decode, 500 for everything else (a body that does not
      decode, and any validation failure, because `ErrInvalidRequest` is
      not in the classifier's switch). */
  lemma DecodeFailureStatus(query: Result<SearchUserRequest, string>, vs: Validator<SearchUserRequest>,
                            body: Result<UpdateUserRequest, string>, vu: Validator<UpdateUserRequest>)
    ensures DecodeSearchUserRequest(query, vs).Failure? ==>
      StatusCode(Some(DecodeSearchUserRequest(query, vs).error)) ==
        (if query.Failure? then StatusBadRequest else StatusInternalServerError)
    ensures DecodeUpdateUserRequest(body, vu).Failure? ==>
      StatusCode(Some(DecodeUpdateUserRequest(body, vu).error)) == StatusInternalServerError
  {
  }

  /** A request decodes exactly when its query or body decodes and it
      passes validation, and then unchanged. */
  lemma DecodeSucceeds(query: Result<SearchUserRequest, string>, vs: Validator<SearchUserRequest>,
                       body: Result<UpdateUserRequest, string>, vu: Validator<UpdateUserRequest>)
    ensures DecodeSearchUserRequest(query, vs).Success? <==> query.Success? && Validate(vs, query.value).None?
    ensures DecodeUpdateUserRequest(body, vu).Success? <==> body.Success? && Validate(vu, body.value).None?
    ensures DecodeSearchUserRequest(query, vs).Success? ==> DecodeSearchUserRequest(query, vs).value == SearchUserCall(query.value)
    ensures DecodeUpdateUserRequest(body, vu).Success? ==> DecodeUpdateUserRequest(body, vu).value == UpdateUserCall(body.value)
  {
  }

  // ---------------------------------------------------------------------
  // The response writer and the encoders

  const ProblemJSON := "application/problem+json; charset=utf-8"
  const PlainJSON := "application/json; charset=utf-8"

  /** One JSON document written to the body. */
  datatype Payload =
      /** `{"error": text}` */
    | ErrorEnvelope(error: string)
    | ResponseBody(resp: Response)

  /** The status a writer has sent after a write of `code`: the first
      status written wins. */
  function After(status: Option<int>, code: int): (s: Option<int>)
    ensures s.Some?
    ensures status.Some? ==> s == status
  {
    if status.None? then Some(code) else status
  }

  /** An `http.ResponseWriter`: its header map, the status once written,
      and the documents written to the body. */
  class ResponseWriter {
    var header: map<string, string>
    var status: Option<int>
    var body: seq<Payload>

    constructor ()
      ensures header == map[] && status.None? && body == []
    {
      header := map[];
      status := None;
      body := [];
    }

    /** `Header().Set`. */
    method Set(key: string, value: string)
      modifies this
      ensures header == old(header)[key := value]
      ensures status == old(status) && body == old(body)
    {
      header := header[key := value];
    }

    /** `WriteHeader`: a second call is ignored. */
    method WriteHeader(code: int)
      modifies this
      ensures status == After(old(status), code)
      ensures header == old(header) && body == old(body)
    {
      if status.None? {
        status := Some(code);
      }
    }

    /** `json.NewEncoder(w).Encode`: a write sends status 200 first when no
      status was written. */
    method Write(p: Payload)
      modifies this
      ensures status == After(old(status), StatusOK)
      ensures body == old(body) + [p]
      ensures header == old(header)
    {
      WriteHeader(StatusOK);
      body := body + [p];
    }
  }

  /** The headers `encodeError` sets on top of `h`. */
  function ErrorHeaders(h: map<string, string>, err: Error): map<string, string>
  {
    h["X-Esp-Error" := Message(err)]["Content-Type" := ProblemJSON]
  }

  /** The headers a response encoder sets on top of `h`: those of
      `encodeError` for a response that reports an error, otherwise the
      plain JSON content type. */
  function ReplyHeaders(h: map<string, string>, reported: Option<Error>): map<string, string>
  {
    if reported.Some? then ErrorHeaders(h, reported.value) else h["Content-Type" := PlainJSON]
  }

  /** `encodeError`: the error text in `X-Esp-Error`, the problem content
      type, the classified status, and the body `{"error": text}`. */
  method EncodeError(err: Error, w: ResponseWriter)
    modifies w
    ensures w.header == ErrorHeaders(old(w.header), err)
    ensures w.status == After(old(w.status), StatusCode(Some(err)))
    ensures w.body == old(w.body) + [ErrorEnvelope(Message(err))]
  {
    w.Set("X-Esp-Error", Message(err));
    w.Set("Content-Type", ProblemJSON);
    w.WriteHeader(StatusCode(Some(err)));
    w.Write(ErrorEnvelope(Message(err)));
  }

  /** `encodeUpdateUserResponse` and `encodeSearchUserResponse` (the two are
      the same): a response that reports an error through an `error()`
      method is encoded as that error; any other is written as JSON.
      `reported` is what `error()` returns, None when the response type has
      no such method. */
  method EncodeResponse(resp: Response, reported: Option<Error>, w: ResponseWriter)
    modifies w
    ensures w.header == ReplyHeaders(old(w.header), reported)
    ensures reported.Some? ==>
      && w.status == After(old(w.status), StatusCode(reported))
      && w.body == old(w.body) + [ErrorEnvelope(Message(reported.value))]
    ensures reported.None? ==>
      && w.status == After(old(w.status), StatusOK)
      && w.body == old(w.body) + [ResponseBody(resp)]
  {
    if reported.Some? {
      EncodeError(reported.value, w);
      return;
    }
    w.Set("Content-Type", PlainJSON);
    w.Write(ResponseBody(resp));
  }

  // ---------------------------------------------------------------------
  // Serving

  /** An incoming HTTP request; `query` and `body` are the outcomes of
      decoding its query string and its JSON body. */
  datatype HTTPRequest = HTTPRequest(
    verb: string,
    uri: string,
    path: string,
    remoteAddr: string,
    proto: string,
    query: Result<SearchUserRequest, string>,
    body: Result<UpdateUserRequest, string>)

  /** How a request ended: answered by this handler, left to the router
      (no route matched), or aborted by a panic in the service. */
  datatype Served = Answered | NotRouted | Aborted

  /** The context the transport builds for the service: HTTP info, no gRPC
      marker. */
  function ContextOf(r: HTTPRequest): (ctx: Context)
    ensures !ctx.grpc && ctx.http.Some?
    ensures ctx.http.value.verb == r.verb && ctx.http.value.url == r.uri
  {
    Context(false, Some(HTTPInfo(r.verb, r.uri, r.remoteAddr, r.proto)))
  }

  const AllowMethods := "GET, POST, OPTIONS, PUT, DELETE, UPDATE, PATCH"
  const AllowHeaders := "Origin, Content-Type, Authorization"

  /** The header map after the CORS middleware has run. */
  function WithCORS(h: map<string, string>): (h': map<string, string>)
    ensures h'.Keys == h.Keys + {"Access-Control-Allow-Origin", "Access-Control-Allow-Methods", "Access-Control-Allow-Headers"}
    ensures h'["Access-Control-Allow-Origin"] == "*"
    ensures h'["Access-Control-Allow-Methods"] == AllowMethods
    ensures h'["Access-Control-Allow-Headers"] == AllowHeaders
    ensures forall k :: k in h && k !in {"Access-Control-Allow-Origin", "Access-Control-Allow-Methods", "Access-Control-Allow-Headers"}
                        ==> h'[k] == h[k]
  {
    h["Access-Control-Allow-Origin" := "*"]["Access-Control-Allow-Methods" := AllowMethods]
     ["Access-Control-Allow-Headers" := AllowHeaders]
  }

  const CORSKeys := {"Access-Control-Allow-Origin", "Access-Control-Allow-Methods", "Access-Control-Allow-Headers"}

  /** The three CORS headers are present with the middleware's values. */
  predicate HasCORS(h: map<string, string>)
  {
    && "Access-Control-Allow-Origin" in h && h["Access-Control-Allow-Origin"] == "*"
    && "Access-Control-Allow-Methods" in h && h["Access-Control-Allow-Methods"] == AllowMethods
    && "Access-Control-Allow-Headers" in h && h["Access-Control-Allow-Headers"] == AllowHeaders
  }

  /** The encoders set only `X-Esp-Error` and `Content-Type`, so the CORS
      headers the middleware set first reach the client on every answer. */
  lemma EncodersKeepCORS(h: map<string, string>, reported: Option<Error>)
    requires HasCORS(h)
    ensures HasCORS(ReplyHeaders(h, reported))
    ensures reported.Some? ==> HasCORS(ErrorHeaders(h, reported.value))
  {
  }

  /** What the go-kit server does with the endpoint's outcome: an error
      goes to `encodeError`, a response to the response encoder, and a
      panic leaves the writer to the caller. */
  method Reply(o: Outcome, w: ResponseWriter, errorer: Response -> Option<Error>) returns (served: Served)
    modifies w
    ensures o.Panicked? <==> served == Aborted
    ensures o.Panicked? ==> w.header == old(w.header) && w.status == old(w.status) && w.body == old(w.body)
    ensures o.Returned? && o.err.Some? ==>
      && served == Answered
      && w.header == ErrorHeaders(old(w.header), o.err.value)
      && w.status == After(old(w.status), StatusCode(o.err))
      && w.body == old(w.body) + [ErrorEnvelope(Message(o.err.value))]
    ensures o.Returned? && o.err.None? ==>
      && served == Answered
      && w.header == ReplyHeaders(old(w.header), errorer(o.resp))
      && w.status == After(old(w.status), StatusCode(errorer(o.resp)))
      && w.body == old(w.body) + [if errorer(o.resp).Some? then ErrorEnvelope(Message(errorer(o.resp).value))
                                  else ResponseBody(o.resp)]
  {
    if o.Panicked? {
      return Aborted;
    }
    if o.err.Some? {
      EncodeError(o.err.value, w);
      return Answered;
    }
    EncodeResponse(o.resp, errorer(o.resp), w);
    served := Answered;
  }

  /** The request a route's decoder produces. */
  function DecodeFor(route: Route, r: HTTPRequest, vs: Validator<SearchUserRequest>, vu: Validator<UpdateUserRequest>)
    : Result<Request, Error>
  {
    if route == UpdateUserRoute then DecodeUpdateUserRequest(r.body, vu) else DecodeSearchUserRequest(r.query, vs)
  }

  /** A routed request: decode, call the endpoint and encode its result or
      the first error, on a writer that already carries the CORS headers. */
  method ServeRoute(w: ResponseWriter, r: HTTPRequest, route: Route,
                    s: Stack, t: UserTable, traced: bool, sinks: Sinks, db: Faults, caps: Capabilities,
                    vs: Validator<SearchUserRequest>, vu: Validator<UpdateUserRequest>,
                    errorer: Response -> Option<Error>)
    returns (served: Served)
    requires t.Valid() && HasCORS(w.header)
    modifies w, t, sinks
    ensures t.Valid() && HasCORS(w.header)
    ensures served != NotRouted
    ensures var decoded := DecodeFor(route, r, vs, vu);
      && (decoded.Failure? ==>
            && served == Answered
            && w.header == ErrorHeaders(old(w.header), decoded.error)
            && w.status == After(old(w.status), StatusCode(Some(decoded.error)))
            && w.body == old(w.body) + [ErrorEnvelope(Message(decoded.error))]
            && t.rows == old(t.rows) && sinks.events == old(sinks.events))
      && (decoded.Success? ==>
            exists o: Outcome ::
              && CoreAllows(old(t.rows), decoded.value, db, o, t.rows)
              && sinks.events == old(sinks.events) + Events(s, traced, ContextOf(r), decoded.value, o, caps)
              && (o.Panicked? <==> served == Aborted)
              && (o.Panicked? ==> w.header == old(w.header) && w.status == old(w.status) && w.body == old(w.body))
              && (o.Returned? && o.err.Some? ==>
                    && served == Answered
                    && w.header == ErrorHeaders(old(w.header), o.err.value)
                    && w.status == After(old(w.status), StatusCode(o.err))
                    && w.body == old(w.body) + [ErrorEnvelope(Message(o.err.value))])
              && (o.Returned? && o.err.None? ==>
                    && served == Answered
                    && w.header == ReplyHeaders(old(w.header), errorer(o.resp))
                    && w.status == After(old(w.status), StatusCode(errorer(o.resp)))
                    && w.body == old(w.body) + [if errorer(o.resp).Some? then ErrorEnvelope(Message(errorer(o.resp).value))
                                                else ResponseBody(o.resp)]))
  {
    var decoded := DecodeFor(route, r, vs, vu);
    if decoded.Failure? {
      EncodeError(decoded.error, w);
      EncodersKeepCORS(old(w.header), Some(decoded.error));
      return Answered;
    }
    var o;
    if route == UpdateUserRoute {
      o := UserEndpoints.UpdateUserEndpoint(s, t, traced, sinks, ContextOf(r), decoded.value, db, caps);
    } else {
      o := UserEndpoints.SearchUserEndpoint(s, t, traced, sinks, ContextOf(r), decoded.value, db, caps);
    }
    served := Reply(o, w, errorer);
    if o.Returned? {
      EncodersKeepCORS(old(w.header), if o.err.Some? then o.err else errorer(o.resp));
    }
  }

  /** The handler `MakeHTTPHandler` returns: CORS headers on every request,
      nothing more for OPTIONS; otherwise route, decode, call the endpoint
      and encode its result or the first error. */
  method ServeHTTP(w: ResponseWriter, r: HTTPRequest,
                   s: Stack, t: UserTable, traced: bool, sinks: Sinks, db: Faults, caps: Capabilities,
                   vs: Validator<SearchUserRequest>, vu: Validator<UpdateUserRequest>,
                   errorer: Response -> Option<Error>)
    returns (served: Served)
    requires t.Valid()
    modifies w, t, sinks
    ensures t.Valid()
    ensures HasCORS(w.header)
    ensures r.verb == "OPTIONS" ==>
      && served == Answered
      && w.header == WithCORS(old(w.header)) && w.status == old(w.status) && w.body == old(w.body)
      && t.rows == old(t.rows) && sinks.events == old(sinks.events)
    ensures served == NotRouted <==> r.verb != "OPTIONS" && RouteFor(r.verb, r.path).None?
    ensures served == NotRouted ==>
      && w.header == WithCORS(old(w.header)) && w.status == old(w.status) && w.body == old(w.body)
      && t.rows == old(t.rows) && sinks.events == old(sinks.events)
    ensures r.verb != "OPTIONS" && RouteFor(r.verb, r.path).Some? ==>
      var decoded := DecodeFor(RouteFor(r.verb, r.path).value, r, vs, vu);
      && (decoded.Failure? ==>
            && served == Answered
            && w.header == ErrorHeaders(WithCORS(old(w.header)), decoded.error)
            && w.status == After(old(w.status), StatusCode(Some(decoded.error)))
            && w.body == old(w.body) + [ErrorEnvelope(Message(decoded.error))]
            && t.rows == old(t.rows) && sinks.events == old(sinks.events))
      && (decoded.Success? ==>
            exists o: Outcome ::
              && CoreAllows(old(t.rows), decoded.value, db, o, t.rows)
              && sinks.events == old(sinks.events) + Events(s, traced, ContextOf(r), decoded.value, o, caps)
              && (o.Panicked? <==> served == Aborted)
              && (o.Panicked? ==> w.header == WithCORS(old(w.header)) && w.status == old(w.status) && w.body == old(w.body))
              && (o.Returned? && o.err.Some? ==>
                    && served == Answered
                    && w.header == ErrorHeaders(WithCORS(old(w.header)), o.err.value)
                    && w.status == After(old(w.status), StatusCode(o.err))
                    && w.body == old(w.body) + [ErrorEnvelope(Message(o.err.value))])
              && (o.Returned? && o.err.None? ==>
                    && served == Answered
                    && w.header == ReplyHeaders(WithCORS(old(w.header)), errorer(o.resp))
                    && w.status == After(old(w.status), StatusCode(errorer(o.resp)))
                    && w.body == old(w.body) + [if errorer(o.resp).Some? then ErrorEnvelope(Message(errorer(o.resp).value))
                                                else ResponseBody(o.resp)]))
  {
    w.Set("Access-Control-Allow-Origin", "*");
    w.Set("Access-Control-Allow-Methods", AllowMethods);
    w.Set("Access-Control-Allow-Headers", AllowHeaders);
    if r.verb == "OPTIONS" {
      return Answered;
    }
    var route := RouteFor(r.verb, r.path);
    if route.None? {
      return NotRouted;
    }
    served := ServeRoute(w, r, route.value, s, t, traced, sinks, db, caps, vs, vu, errorer);
  }
}
