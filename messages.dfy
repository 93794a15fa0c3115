/** The request and response types of the user service (pkg/user/endpoint.go)
    and the shape of one service call's result. Pointer fields that may be nil
    are `Option`s; a response pointer the service always allocates is a plain
    value. */
module UserMessages {
  import opened Base
  import opened Errors

  datatype Status = Status(status: bool, message: string)

  /** The status every successful call reports. */
  const OK := Status(true, "OK")

  datatype User = User(
    id: uint64,
    status: string,
    company: string,
    surname: string,
    name: string,
    guest: string,
    covidPass: string,
    rank: string,
    contactPhone: string,
    contactMail: string,
    checkin: bool)

  datatype UpdateData = UpdateData(covidPass: string, checkin: bool)

  datatype UpdateUserRequest = UpdateUserRequest(id: uint64, data: Option<UpdateData>)

  datatype UpdateUserResponse = UpdateUserResponse(status: Option<Status>)

  datatype SearchUserRequest = SearchUserRequest(surname: string)

  datatype SearchUserResponse = SearchUserResponse(status: Option<Status>, data: seq<User>)

  /** A call of one of the two service methods. */
  datatype Request =
    | UpdateUserCall(update: UpdateUserRequest)
    | SearchUserCall(search: SearchUserRequest)

  datatype Response =
    | UpdateUserReply(updated: UpdateUserResponse)
    | SearchUserReply(found: SearchUserResponse)

  /** What a service method does: return a response and an error, or panic
      (a nil dereference). A panic unwinds through every decorator. */
  datatype Outcome =
    | Returned(resp: Response, err: Option<Error>)
    | Panicked

  /** The method name the decorators report. */
  function MethodName(req: Request): string
  {
    match req
    case UpdateUserCall(_) => "UpdateUser"
    case SearchUserCall(_) => "SearchUser"
  }

  /** A response belongs to the method that was called. */
  predicate Answers(req: Request, resp: Response)
  {
    req.UpdateUserCall? <==> resp.UpdateUserReply?
  }

  /** The error a call reports to its caller: none when it panicked, because
      the deferred steps of the decorators see the zero results. */
  function ErrorOf(o: Outcome): Option<Error>
  {
    if o.Returned? then o.err else None
  }
}
