/** The error values of the user package and the classifier that turns an
    error into an HTTP status code (pkg/user/error.go). Status codes follow
    section 15 of RFC 9110: 200 OK, 400 Bad Request, 404 Not Found,
    500 Internal Server Error. */
module Errors {
  import opened Base

  const StatusOK := 200
  const StatusBadRequest := 400
  const StatusNotFound := 404
  const StatusInternalServerError := 500

  /** Errors created once with `errors.New` and compared by identity. */
  datatype SentinelKind =
    | InvalidArgument
    | AlreadyExists
    | BadRequest
    | NotFound
    | BadRoute
    | InvalidRequest
      /** `ConnError` of the user repository. */
    | ConnError
      /** The ORM's own "record not found" error, returned by a lookup that finds no row. */
    | RecordNotFound
      /** The ORM's "WHERE conditions required" error: an update of a row whose
          primary key is zero has no condition to select it, and is refused. */
    | MissingWhereClause

  /** An error value as the classifier sees it. */
  datatype Error =
    | Sentinel(kind: SentinelKind)
      /** `errors.Wrap(cause, msg)`: a causer whose message is prefixed. */
    | Wrapped(cause: Error, msg: string)
      /** An error whose type has a `Code() int` method. It is not a causer. */
    | Coded(code: int, text: string)
      /** Any other error (decoder and driver errors, `errors.New` in adapters). */
    | Other(text: string)

  /** The result of a transport step (a decoder or an encoder): a value,
      an error, or a panic on a nil pointer. */
  datatype Conversion<+T> = Converted(value: T) | Rejected(err: Error) | Crashed

  function SentinelText(k: SentinelKind): string
  {
    match k
    case InvalidArgument => "invalid argument"
    case AlreadyExists => "already exists"
    case BadRequest => "bad request"
    case NotFound => "not found"
    case BadRoute => "bad route"
    case InvalidRequest => "invalid params in request"
    case ConnError => "get connection error"
    case RecordNotFound => "record not found"
    case MissingWhereClause => "WHERE conditions required"
  }

  /** `err.Error()`: a wrapped error reads "msg: cause". */
  function Message(e: Error): string
  {
    match e
    case Sentinel(k) => SentinelText(k)
    case Wrapped(c, m) => m + ": " + Message(c)
    case Coded(_, t) => t
    case Other(t) => t
  }

  /** `errors.Cause`: follow wrapping down to the innermost error. */
  function Cause(e: Error): (r: Error)
    ensures !r.Wrapped?
    ensures !e.Wrapped? ==> r == e
  {
    if e.Wrapped? then Cause(e.cause) else e
  }

  /** True when the error's own `Code()` overrides the classification. */
  predicate HasOwnCode(e: Error)
  {
    e.Coded? && e.code != 0
  }

  /** `getHTTPStatusCode`: nil is 200; an error's own non-zero `Code()` wins;
      otherwise the cause decides, and every unlisted cause is 500. */
  function StatusCode(err: Option<Error>): (code: int)
    ensures err.None? <==> code == StatusOK && !(err.Some? && HasOwnCode(err.value))
    ensures err.Some? && HasOwnCode(err.value) ==> code == err.value.code
    ensures err.Some? && !HasOwnCode(err.value) ==>
      code == (match Cause(err.value)
               case Sentinel(InvalidArgument) => StatusBadRequest
               case Sentinel(AlreadyExists) => StatusBadRequest
               case Sentinel(BadRequest) => StatusBadRequest
               case Sentinel(NotFound) => StatusNotFound
               case _ => StatusInternalServerError)
    ensures code in {StatusOK, StatusBadRequest, StatusNotFound, StatusInternalServerError}
            || (err.Some? && HasOwnCode(err.value) && code == err.value.code)
    ensures code != 0
  {
    if err.None? then StatusOK
    else if HasOwnCode(err.value) then err.value.code
    else
      match Cause(err.value)
      case Sentinel(InvalidArgument) => StatusBadRequest
      case Sentinel(AlreadyExists) => StatusBadRequest
      case Sentinel(BadRequest) => StatusBadRequest
      case Sentinel(NotFound) => StatusNotFound
      case _ => StatusInternalServerError
  }

  /** `e` wrapped once per message, innermost message first. */
  function WrapAll(e: Error, msgs: seq<string>): (r: Error)
    ensures |msgs| > 0 ==> r.Wrapped?
  {
    if msgs == [] then e else Wrapped(WrapAll(e, msgs[..|msgs| - 1]), msgs[|msgs| - 1])
  }

  lemma {:induction false} CauseOfWrapAll(e: Error, msgs: seq<string>)
    ensures Cause(WrapAll(e, msgs)) == Cause(e)
  {
    if msgs != [] {
      CauseOfWrapAll(e, msgs[..|msgs| - 1]);
    }
  }

  /** Wrapping an error that has no code of its own, any number of times,
      keeps its status code: the switch is on the cause. */
  lemma WrappingKeepsStatus(e: Error, msgs: seq<string>)
    requires !HasOwnCode(e)
    ensures StatusCode(Some(WrapAll(e, msgs))) == StatusCode(Some(e))
  {
    CauseOfWrapAll(e, msgs);
    assert msgs != [] ==> !HasOwnCode(WrapAll(e, msgs));
  }

  /** Wrapping a coded error hides its code: only the outer error is asked
      for `Code()`, and the cause is not a sentinel. */
  lemma {:induction false} WrappingHidesCode(e: Error, msgs: seq<string>)
    requires e.Coded? && |msgs| > 0
    ensures StatusCode(Some(WrapAll(e, msgs))) == StatusInternalServerError
  {
    CauseOfWrapAll(e, msgs);
  }

  /** The classification of each sentinel, including the ones the switch
      does not list (`ErrInvalidRequest`, `errBadRoute`, the repository's
      errors), which fall through to 500. */
  lemma SentinelStatus(k: SentinelKind)
    ensures StatusCode(Some(Sentinel(k))) ==
      if k in {InvalidArgument, AlreadyExists, BadRequest} then StatusBadRequest
      else if k == NotFound then StatusNotFound
      else StatusInternalServerError
  {
  }
}
