/** The go-kit endpoint adapters of the user service (pkg/user/endpoint.go).
    A server endpoint forwards its request to the service; a client-side
    `endpoints` value turns an endpoint's result back into a response
    pointer and an error. */
module UserEndpoints {
  import opened Base
  import opened Errors
  import opened UserRepository
  import opened Telemetry
  import opened UserMessages
  import opened UserDecorators

  /** `makeUpdateUserEndpoint`: the request must be an `UpdateUserRequest`
      (the type assertion is unchecked), and goes to the service unchanged. */
  method UpdateUserEndpoint(s: Stack, t: UserTable, traced: bool, sinks: Sinks, ctx: Context,
                            request: Request, db: Faults, caps: Capabilities)
    returns (o: Outcome)
    requires request.UpdateUserCall?
    requires t.Valid()
    modifies t, sinks
    ensures t.Valid()
    ensures CoreAllows(old(t.rows), request, db, o, t.rows)
    ensures o.Returned? ==> o.resp.UpdateUserReply?
    ensures sinks.events == old(sinks.events) + Events(s, traced, ctx, request, o, caps)
  {
    o := Call(s, t, traced, sinks, ctx, request, db, caps);
  }

  /** `makeSearchUserEndpoint`. */
  method SearchUserEndpoint(s: Stack, t: UserTable, traced: bool, sinks: Sinks, ctx: Context,
                            request: Request, db: Faults, caps: Capabilities)
    returns (o: Outcome)
    requires request.SearchUserCall?
    requires t.Valid()
    modifies t, sinks
    ensures t.Valid()
    ensures CoreAllows(old(t.rows), request, db, o, t.rows)
    ensures o.Returned? ==> o.resp.SearchUserReply?
    ensures sinks.events == old(sinks.events) + Events(s, traced, ctx, request, o, caps)
  {
    o := Call(s, t, traced, sinks, ctx, request, db, caps);
  }

  /** What a client endpoint returned: a response value (nil on failure)
      and an error. */
  datatype EndpointResult<T> = EndpointResult(response: Option<T>, err: Option<Error>)

  /** `endpoints.UpdateUser` and `endpoints.SearchUser`: on an error, a nil
      response and that same error; otherwise the endpoint's response and
      no error. A successful endpoint always returns a response value (the
      type assertion on it is unchecked). */
  function ClientResult<T>(r: EndpointResult<T>): (out: (Option<T>, Option<Error>))
    requires r.err.None? ==> r.response.Some?
    ensures r.err.Some? ==> out.0.None? && out.1 == r.err
    ensures r.err.None? ==> out.0 == r.response && out.1.None?
  {
    if r.err.Some? then (None, r.err) else (Some(r.response.value), None)
  }

  /** The client reports an error exactly when the endpoint did, and then
      never also a response. */
  lemma ClientErrorOrResponse<T>(r: EndpointResult<T>)
    requires r.err.None? ==> r.response.Some?
    ensures ClientResult(r).1.Some? <==> r.err.Some?
    ensures ClientResult(r).0.Some? <==> r.err.None?
  {
  }
}
