# guestcovider — a Dafny model of its core

guestcovider is a small Go service that stores conference guests. It
exposes two user operations, over gRPC and over HTTP:

- `SearchUser` finds guests by surname.
- `UpdateUser` sets a guest's `covidPass` text and `checkin` flag.

A Vue front end calls these operations. This project models the parts of
the service that decide something, and proves what they promise:

- **Error classification** (`Errors`). The error values of the service are
  a closed datatype: sentinel, wrapped, coded or other. `StatusCode` is
  `getHTTPStatusCode`: it unwraps with `errors.Cause` and honours a custom
  `Code()`.
- **Repository** (`UserRepository`).
  - A class owns the `users` table as a `map` from id to row.
  - `FindBySurname` matches with PostgreSQL `ILIKE` under the pattern
    `"%" + surname + "%"`. This follows section 9.7.1 of the PostgreSQL
    manual: `%`, `_` and the `\` escape, with ASCII case folding.
  - `UpdateUser` reads the row, overwrites two columns and writes it back.
  - Database faults are a parameter.
- **Service** (`UserService`). Covers `SearchUser`, `UpdateUser` and
  `FromRepo`. Dereferencing a nil `Data` panics, and the model says so
  explicitly.
- **Decorators** (`UserDecorators`, `Telemetry`, `RepositoryTracing`).
  - The logging, Sentry and tracing layers pass results through unchanged.
  - Their side effects go to one ghost event stream: log lines, Sentry
    captures and spans.
  - `Events` is the specification of the stream that a stack of layers
    emits.
- **Endpoints, HTTP transport and validation** (`UserEndpoints`,
  `UserHTTP`, `Validation`).
  - The route table, the two request decoders and the error boundary.
  - The response writer is a class.
  - The CORS middleware and the full handler.
- **Wire conversions** (`UserGRPC`, `HealthGRPC`). The protobuf
  converters, with nil mapped to nil, and the gRPC decoders and encoders.
- **Start-up** (`App`, `Configs`, `FloatText`, `Servers`).
  - Which decorators wrap the services, and in which order.
  - The option table and the environment names derived from it.
  - The three documentation generators, with `%v` for defaults.
  - Flag registration and the masked printout of the configuration.
  - `NewServer` and its options, including the sorted, descending
    registration of HTTP handler prefixes.
- **Front-end store** (`WebStore`). The Vuex mutations and the commit
  sequences of the two actions.

Modelling conventions:

- A Go pointer or interface that may be nil is `Option`.
- A Go panic is an explicit outcome: `Panicked` for service calls,
  `Crashed` for conversions, and `panicked` results in the server and
  configuration code.
- A dynamic type assertion becomes a datatype tag.
- Things the model cannot see become parameters:
  - capability methods (`Log()`, `SentryLog()`, `Validate()`, `error()`);
  - the outcomes of foreign decoders (JSON, query strings);
  - database faults;
  - the outcome of the front end's network requests.

## Model

| member | source | states |
|---|---|---|
| Errors.Cause | pkg/user/error.go:42 | unwrapping ends at an error that is not a wrapper; an error that is not a wrapper is its own cause |
| Errors.StatusCode | pkg/user/error.go:33-53 | nil gives 200. An error with its own non-zero `Code()` gives that code, before any sentinel test. Otherwise the cause decides: 400 for InvalidArgument, AlreadyExists or BadRequest, 404 for NotFound, 500 for everything else (including InvalidRequest and the bad-route error). The result is always 200, 400, 404, 500 or a non-zero custom code |
| Errors.CauseOfWrapAll | pkg/user/error.go:42 | any number of `errors.Wrap` layers leave the cause unchanged |
| Errors.WrappingKeepsStatus | pkg/user/error.go:38-53 | wrapping an error that has no code of its own, any number of times, keeps its status |
| Errors.WrappingHidesCode | pkg/user/error.go:38-40 | a wrapped coded error classifies as 500, because the wrapper has no `Code()` and the cause is no sentinel |
| Errors.SentinelStatus | pkg/user/error.go:42-53 | the status of each sentinel, the repository's and the ORM's included: 400, 404 or 500 |
| Text.IntToString | configs/config.go:154 | decimal text of an integer: not empty, starting with '-' exactly for negatives, and made of '-' and digits only |
| FloatText.FormatFloatMagnitude | configs/config.go:154 | `%v` of a whole non-negative float64: the plain decimal digits below one million, and from one million on an exponent form that starts with the number's first digit |
| FloatText.FormatWholeFloat | configs/config.go:154 | `%v` of a whole float64: the same text as an integer while the magnitude is below one million, an exponent exactly from one million in magnitude, and a leading '-' exactly for negatives |
| FloatText.NatToStringMagnitude | configs/config.go:154 | the decimal digits of a positive number have no leading zero, and their count d places the number between 10^(d-1) and 10^d |
| FloatText.ExponentFormDenotes | configs/config.go:154 | from one million on, the text is the significant digits (first digit, then '.' and the rest when there are more) followed by the exponent e, where the significant digits are the number's digits without their trailing zeros, start and end with a non-zero digit, and 10^e <= n < 10^(e+1) |
| FloatText.MillionFormat | configs/config.go:154 | one million prints as `1e+06`: trailing zeros dropped, no '.', a two-digit exponent |
| FloatText.FractionFormat | configs/config.go:154 | 1500000 prints as `1.5e+06`: the digits after the first follow a '.' |
| Configs.LimitFormat | configs/config.go:49 | the `limiter.limit` default 10000 prints as `10000` |
| Text.ParseNatToString | pkg/user/sentry.go:39 | the decimal text of a code reads back as that code |
| Text.IntToStringInjective | pkg/user/sentry.go:39 | different codes give different `code` tags |
| UserRepository.CompileUnescaped | internal/userRepository/db.go:35 | a pattern without a backslash compiles one token per character: `%` to any-run, `_` to any-character, anything else to itself |
| UserRepository.CompilePlain | internal/userRepository/db.go:35 | a pattern prefix without `%`, `_` or `\` compiles to literal characters |
| UserRepository.CompileSurnamePattern | internal/userRepository/db.go:35 | `"%" + surname + "%"` compiles to any-run, the surname's literals, any-run |
| UserRepository.PrefixMatch | internal/userRepository/db.go:35 | literals followed by `%` match exactly the texts that start with those literals, ignoring case |
| UserRepository.LeadingAnySeq | internal/userRepository/db.go:35 | a leading `%` matches exactly when the rest of the pattern matches some suffix |
| UserRepository.SurnameSearchIsContainment | internal/userRepository/db.go:35 | for a surname without wildcards, a row matches exactly when its surname contains the argument, ignoring case |
| UserRepository.UnderscoreIsWildcard | internal/userRepository/db.go:35 | an `_` in the argument is not escaped: it compiles to a one-character wildcard |
| UserRepository.UnderscoreFindsSmith | internal/userRepository/db.go:35 | so searching "sm_th" finds "Smith", which does not contain "sm_th" |
| UserRepository.PercentMatchesEverything | internal/userRepository/db.go:35 | a `%` in the argument is not escaped: searching "%" matches every surname |
| UserRepository.TrailingBackslashEscapesPercent | internal/userRepository/db.go:35 | an argument ending in `\` escapes the closing `%`: for "a\" the pattern matches exactly the surnames that end in the literal text "a%" |
| UserRepository.PatternEndingInPercentCompiles | internal/userRepository/db.go:35 | a pattern that ends in `%` always compiles |
| UserRepository.SurnamePatternCompiles | internal/userRepository/db.go:35 | the search pattern always compiles, whatever the argument |
| UserRepository.Merge | internal/userRepository/db.go:57-58 | the row written back has the request's `covidPass` and `checkin`, and every other column of the stored row |
| UserRepository.UpdateChangesOnlyTwoColumns | internal/userRepository/db.go:50-62 | on error the table is unchanged. On success the id is stored and non-zero, and only the row with that id changes, and only in `covidPass` and `checkin` |
| UserRepository.MissingIdIsInternalError | internal/userRepository/db.go:52-54 | a missing id returns the ORM's record-not-found error, not `ErrNotFound`: it classifies as 500 and the table is unchanged |
| UserRepository.UserTable.FindBySurname | internal/userRepository/db.go:26-41 | either the rows matching the pattern (each exactly once, in an order the database picks) or the wrapped database error with no rows, never both |
| UserRepository.ZeroIdIsRefused | internal/userRepository/db.go:60-62 | a stored row with id 0 is found but not written back: the ORM refuses an update without a WHERE condition, which classifies as 500, and the table is unchanged |
| UserRepository.UserTable.UpdateUser | internal/userRepository/db.go:43-65 | the new table and the error are those of the fetch/merge/write-back specification, including the refusal of a zero key, and the key/id invariant is kept |
| RepositoryTracing.FindBySurname | internal/userRepository/tracing.go:19-23 | the repository's result unchanged, inside one span named "FindBySurname" when tracing is on |
| RepositoryTracing.UpdateUser | internal/userRepository/tracing.go:25-29 | the repository's result unchanged, inside one span named "UpdateUser" when tracing is on |
| Telemetry.Sinks.Emit | pkg/user/logging.go:53-58 | an event is appended to the stream |
| UserService.Users | pkg/user/service.go:65-79 | one user per repository record, in the same order |
| UserService.ToUserInjective | pkg/user/service.go:66-78 | all eleven record fields are copied verbatim: different records give different users |
| UserService.FromRepo | pkg/user/service.go:60-82 | the users are appended after the existing data, and a nil receiver starts from a fresh response |
| UserService.UpdateOutcome | pkg/user/service.go:16-39 | a nil `Data` panics. Otherwise the repository's error is returned unchanged with a response without Status, and success gives Status {true, "OK"} |
| UserService.UpdateUser | pkg/user/service.go:16-39 | the outcome and the new table are those of the specification; a traced repository adds its span only when the repository is called |
| UserService.EveryIdIsAccepted | pkg/user/service.go:19-21 | the `Id < 0` guard never fires on a `uint64`: every stored non-zero id is updated |
| UserService.ZeroIdIsServerError | pkg/user/service.go:29-31 | id 0 passes the guard, but the repository's write-back is refused: the caller gets a bare response and a 500 error, and the table is unchanged |
| UserService.UpdateTouchesOneRow | pkg/user/service.go:23-31 | the repository receives only the id, the pass text and the check-in flag: only that row's two columns change, and nothing changes on error |
| UserService.MissingIdIsServerError | pkg/user/service.go:29-31 | an unknown id surfaces as a 500, with the table unchanged |
| UserService.SearchUser | pkg/user/service.go:41-58 | the outcome satisfies the search specification; the repository, and its span, are reached only for a non-empty surname |
| UserService.SearchStatus | pkg/user/service.go:42-57 | an empty surname gives no error, no Status and no data. Otherwise Status is {true, "OK"} exactly when there is no error, and an error comes with no Status and no data |
| UserService.SearchIsContainment | pkg/user/service.go:47-57 | without faults and wildcards, the data holds exactly the users whose surname contains the argument, ignoring case, each once |
| Validation.Validate | pkg/health/validate.go:7-14 | no `Validate` method gives nil; otherwise the method's result, nil or exactly its error |
| Validation.ValidatePasses | pkg/health/validate.go:7-14 | validation passes exactly when the type has no `Validate` method or the method returns nil |
| UserEndpoints.UpdateUserEndpoint | pkg/user/endpoint.go:84-89 | the request goes to the service stack unchanged, and the stack's result and events come back unchanged |
| UserEndpoints.SearchUserEndpoint | pkg/user/endpoint.go:91-96 | the request goes to the service stack unchanged, and the stack's result and events come back unchanged |
| UserEndpoints.ClientResult | pkg/user/endpoint.go:66-82 | a failing endpoint gives a nil response and the same error; otherwise the endpoint's response and nil |
| UserEndpoints.ClientErrorOrResponse | pkg/user/endpoint.go:66-82 | exactly one of response and error is present |
| UserDecorators.Layers | cmd/app/main.go:136-150 | a stack of decorators lists one layer per wrapping, outermost first |
| UserDecorators.ContextFields | pkg/user/logging.go:88-110 | `"protocol","GRPC"` when the gRPC marker is present, then `"url",URL` when HTTP info is present, else nothing |
| UserDecorators.GetLog | pkg/user/logging.go:28-38 | the request's `Log()` pairs, then the response's, each only when its type has that method |
| UserDecorators.LogLineFor | pkg/user/logging.go:40-60 | Warn exactly for a 404, Error for any other error, Info exactly when there is no error. The fields are context, code, method, took, then the `Log()` pairs, with the error last under "msg" (404) or "err" |
| UserDecorators.LogLineLayout | pkg/user/logging.go:42-49 | the field list starts with the context fields, then "code", the status, "method", the method's name and "took", then the `Log()` pairs |
| UserDecorators.PanicIsLoggedAsSuccess | pkg/user/logging.go:41-61 | a panic in the inner service still runs the deferred step, with a nil error: one Info line with code 200 |
| UserDecorators.GetSentryLog | pkg/user/sentry.go:22-32 | the map holds "request" and "response" only for types with `SentryLog()`, with those fields |
| UserDecorators.CaptureFor | pkg/user/sentry.go:36-44 | the capture carries the error, the decimal status as the code tag, the method name, and each `SentryLog()` extra exactly when that slice is present and not empty, equal to it |
| UserDecorators.CodeTagsDistinguishCodes | pkg/user/sentry.go:39 | different statuses give different code tags |
| UserDecorators.CoreCall | pkg/user/service.go:16-58 | the core service call satisfies its specification and emits the repository's span only |
| UserDecorators.Call | cmd/app/main.go:136-150 | a call through a stack of layers satisfies the core's specification, and the stream grows by exactly `Events` of that stack |
| UserDecorators.LoggingCall | pkg/user/logging.go:40-62 | the inner result is returned unchanged, and exactly one log line follows the inner events |
| UserDecorators.TracingCall | pkg/user/tracing.go:21-25 | the inner result is returned unchanged, inside one span named "Version" |
| UserDecorators.SentryCall | pkg/user/sentry.go:34-48 | the inner result is returned unchanged, and a capture follows only when there is an error |
| UserDecorators.TallyConcat | pkg/user/logging.go:40-62 | event counts add up over concatenated streams |
| UserDecorators.TallyEvents | cmd/app/main.go:136-150 | the number of events of each kind is fixed by the layers and by whether the call failed |
| UserDecorators.OneLinePerLoggingLayer | pkg/user/logging.go:40-62 | one log line per logging layer and call, on success and on error alike |
| UserDecorators.ReportsOnlyOnError | pkg/user/sentry.go:35-46 | Sentry captures happen only for failed calls, one per Sentry layer |
| UserDecorators.SpansArePaired | pkg/user/tracing.go:21-31 | every span that starts also finishes |
| UserDecorators.EventsDescribeTheCall | pkg/user/logging.go:40-62 | every log line and capture in the stream describes this call and its outcome |
| UserGRPC.UsersToPB | pkg/user/grpc.go:160-174 | one non-nil wire user per user, in order |
| UserGRPC.UsersFromPB | pkg/user/grpc.go:176-190 | one user per non-nil wire user, in order |
| UserGRPC.SearchUserResponseToPB | pkg/user/grpc.go:160-174 | the loop builds exactly the wire response of the conversion specification, which `SearchUserResponseRoundTrip` proves inverse to the reverse conversion |
| UserGRPC.PBToSearchUserResponse | pkg/user/grpc.go:176-190 | the loop builds exactly the response of the reverse conversion specification, for wire data without nil users |
| UserGRPC.StatusRoundTrip | pkg/user/grpc.go:192-216 | Status round-trips in both directions, and nil stays nil |
| UserGRPC.UserRoundTrip | pkg/user/grpc.go:294-336 | User round-trips field for field in both directions, and nil stays nil |
| UserGRPC.SearchUserRequestRoundTrip | pkg/user/grpc.go:136-158 | the search request round-trips in both directions |
| UserGRPC.UpdateUserRequestRoundTrip | pkg/user/grpc.go:218-268 | the update request round-trips in both directions, and a nil `Data` stays nil |
| UserGRPC.UpdateUserResponseRoundTrip | pkg/user/grpc.go:270-292 | the update response round-trips in both directions |
| UserGRPC.UsersRoundTrip | pkg/user/grpc.go:160-190 | converting the users to the wire and back gives them back |
| UserGRPC.UsersRoundTripFromWire | pkg/user/grpc.go:160-190 | converting non-nil wire users and back gives them back |
| UserGRPC.SearchUserResponseRoundTrip | pkg/user/grpc.go:160-190 | the search response round-trips in both directions, with length and order of Data kept |
| UserGRPC.DecodeUpdateUserRequest | pkg/user/grpc.go:92-103 | a wrong message type gives the "wrong request" error. A typed-nil message panics, a failed validation returns its error, and otherwise the converted request is returned |
| UserGRPC.DecodeSearchUserRequest | pkg/user/grpc.go:105-116 | the same three cases for the search request |
| UserGRPC.DecodeAfterConvert | pkg/user/grpc.go:92-116 | a request converted to the wire and validated decodes back to itself |
| UserGRPC.EncodeUpdateUserResponse | pkg/user/grpc.go:118-125 | a wrong response type is rejected; otherwise the wire form, which converts back to the response |
| UserGRPC.EncodeSearchUserResponse | pkg/user/grpc.go:127-134 | a wrong response type is rejected; otherwise the converted wire response |
| UserGRPC.EncodedSearchResponseDecodes | pkg/user/grpc.go:127-190 | the encoded search response converts back to the response |
| HealthGRPC.ConvertersKeepNil | pkg/health/grpc.go:173-307 | each of the twelve converters gives nil exactly for nil |
| HealthGRPC.EmptyRequestsConvert | pkg/health/grpc.go:173-279 | a non-nil empty request becomes a non-nil empty message, in both directions |
| HealthGRPC.StatusResponsesRoundTrip | pkg/health/grpc.go:193-259 | Liveness and Readiness responses round-trip their Status in both directions |
| HealthGRPC.VersionResponseRoundTrip | pkg/health/grpc.go:281-307 | the Version response round-trips BuildTime, Version and Commit in both directions |
| HealthGRPC.DecodeLivenessRequest | pkg/health/grpc.go:107-118 | wrong type gives the "wrong request" error, a typed nil panics, a validation error is returned, otherwise the converted request |
| HealthGRPC.DecodeReadinessRequest | pkg/health/grpc.go:120-131 | the same cases for Readiness |
| HealthGRPC.DecodeVersionRequest | pkg/health/grpc.go:133-144 | the same cases for Version |
| HealthGRPC.DecodersAcceptTheirOwnType | pkg/health/grpc.go:107-144 | without validation, a decoder succeeds exactly on a non-nil message of its own type |
| HealthGRPC.EncodeLivenessResponse | pkg/health/grpc.go:146-153 | wrong type rejected; otherwise the wire form, which converts back |
| HealthGRPC.EncodeReadinessResponse | pkg/health/grpc.go:155-162 | wrong type rejected; otherwise the wire form, which converts back |
| HealthGRPC.EncodeVersionResponse | pkg/health/grpc.go:164-171 | wrong type rejected; otherwise the wire form, which converts back |
| UserHTTP.RouteFor | pkg/user/http.go:34-46 | `PUT /user` routes to UpdateUser and `GET /user/search` to SearchUser, each in both directions |
| UserHTTP.OnlyTwoRoutes | pkg/user/http.go:34-46 | nothing else is routed |
| UserHTTP.DecodeSearchUserRequest | pkg/user/http.go:68-84 | a query decode failure is wrapped around InvalidArgument, a validation failure around InvalidRequest; otherwise the request |
| UserHTTP.DecodeUpdateUserRequest | pkg/user/http.go:86-99 | a body decode failure wraps a non-sentinel error, a validation failure wraps InvalidRequest; otherwise the request |
| UserHTTP.DecodeFailureStatus | pkg/user/http.go:72-96 | a query failure classifies as 400; a body failure or a validation failure classifies as 500 |
| UserHTTP.DecodeSucceeds | pkg/user/http.go:68-99 | decoding succeeds exactly when the input decodes and validates, and then yields that request |
| UserHTTP.After | pkg/user/http.go:128 | the first status written stays; a later `WriteHeader` is ignored |
| UserHTTP.ResponseWriter.Set | pkg/user/http.go:125-126 | one header is set; status and body are untouched |
| UserHTTP.ResponseWriter.WriteHeader | pkg/user/http.go:128 | the status is set unless one was already written |
| UserHTTP.ResponseWriter.Write | pkg/user/http.go:129-131 | the body grows by the payload, and a missing status becomes 200 |
| UserHTTP.EncodeError | pkg/user/http.go:124-132 | `X-Esp-Error` holds the error text, the content type is problem+json, the status is the classified code, and the body is `{"error": text}` |
| UserHTTP.EncodeResponse | pkg/user/http.go:101-117 | a response that reports an error is encoded as that error; any other is JSON with the JSON content type and status 200 |
| UserHTTP.ContextOf | pkg/user/http.go:51-60 | the service sees HTTP info with the request's method and URL, and no gRPC marker |
| UserHTTP.WithCORS | pkg/user/http.go:137-139 | the three CORS headers are set to their fixed values, and no other header changes |
| UserHTTP.Reply | pkg/user/http.go:26-46 | a panicking endpoint writes nothing. An error goes to the error encoder: its headers, classified status and envelope. A response goes to the response encoder: its headers, status and body |
| UserHTTP.EncodersKeepCORS | pkg/user/http.go:124-147 | the encoders set only `X-Esp-Error` and `Content-Type`, so the three CORS headers survive them |
| UserHTTP.ServeRoute | pkg/user/http.go:34-46 | on a routed request whose writer carries the CORS headers: a decode failure is encoded as an error without calling the service; otherwise the service runs once and its error or response is encoded, while a panicking service writes no status and no body; the CORS headers survive either way |
| UserHTTP.ServeHTTP | pkg/user/http.go:135-147 | every request ends with the three CORS headers. OPTIONS gets those headers and nothing else. An unrouted request is left to the router. A decode failure is encoded as an error, with the error headers, without calling the service. Otherwise the service runs once, and its error or response is encoded with the encoder's headers; a panicking service leaves only the CORS headers, with no status and no body written |
| App.InitService | cmd/app/main.go:121-150 | the health service and the user service are each wrapped in Sentry, Tracing, Logging and Metrics, outermost first, each present as its switch says and Logging always |
| App.CountConcat | cmd/app/main.go:121-150 | layer counts add up over concatenated layer lists |
| App.LayerCounts | cmd/app/main.go:121-150 | Logging appears once. Metrics, Tracing and Sentry each appear once exactly when enabled, and otherwise not at all |
| App.LayerPositions | cmd/app/main.go:121-150 | Sentry is outermost when enabled and Tracing sits directly around Logging. The innermost layer is Metrics when enabled, else Logging |
| App.NoSpansWithoutTracing | cmd/app/main.go:75-78 | with tracing off, neither the service nor the repository opens a span |
| App.TallyMember | cmd/app/main.go:121-150 | an event of a kind in the stream makes that kind's count positive |
| Configs.EnvName | configs/config.go:152 | `GUESTCOVIDER_` followed by the option name with '.' and '-' turned into '_', upper-cased; the same length, and never a '.' or '-' |
| Configs.EnvNameCollisions | configs/config.go:152 | two names of equal length share an environment name exactly when they agree character by character after the rewriting |
| Configs.GenerateMdTable | configs/config.go:141-161 | the title and rule lines, then one row per option in table order, then one more line break |
| Configs.GenerateEnvironment | configs/config.go:163-174 | one "NAME: default" line per option in table order, then one more line break |
| Configs.GenerateFromTask | configs/config.go:176-192 | one title line, then one "\| NAME \| default \|" row per option in table order, then one more line break |
| Configs.RowsBreaks | configs/config.go:148-158 | rows that are one line each give exactly one line break per option |
| Configs.OneLinePerOption | configs/config.go:141-192 | the Markdown printout has 2 + n + 1 line breaks, the environment list n + 1, the `GenerateFromTask` table 1 + n + 1, for n options without line breaks in their texts |
| Configs.HeaderBreaks | configs/config.go:144-147 | the Markdown header is two lines and the `GenerateFromTask` header one |
| Configs.Register | configs/config.go:108-119 | a known tag with a default of that type gives a flag carrying the name, default and description. A known tag with a default of another type panics, and an unknown tag becomes a plain default |
| Configs.RegisterFlags | configs/config.go:107-120 | options are registered in table order until the first one that panics, and the loop panics exactly when some option would |
| Configs.OptionsRegisterAsFlags | configs/config.go:18-50 | every entry of the shipped table has a tag among string, int, bool and float64 with a default of that type, so none panics or falls back to a plain default |
| Configs.Print | configs/config.go:194-197 | the printed copy has the password masked as "******" and every other field as given; the caller's configuration is a value and stays as it was |
| Configs.PrintHidesPassword | configs/config.go:194-197 | two configurations that differ only in the password print alike |
| Servers.LessIrreflexive | internal/server/server.go:44 | no name sorts before itself |
| Servers.LessAsymmetric | internal/server/server.go:44 | two names never sort before each other |
| Servers.LessTotal | internal/server/server.go:44 | of two different names, one sorts first |
| Servers.LessTransitive | internal/server/server.go:44 | the order is transitive |
| Servers.PrefixIsLess | internal/server/server.go:44 | a proper prefix sorts first |
| Servers.SlashKeepsOrder | internal/server/server.go:53 | prefixing both names with "/" keeps their order |
| Servers.SortedDistinctAscending | internal/server/server.go:40-44 | sorted map keys, which are distinct, are strictly ascending |
| Servers.SortStrings | internal/server/server.go:44 | the slice is sorted in place and is a permutation of what it held |
| Servers.SortedNames | internal/server/server.go:40-44 | the names are exactly the keys of the handler map, once each, strictly ascending |
| Servers.MakeSetHandler | internal/server/server.go:38-59 | the option captures the handler map and its names, sorted |
| Servers.MountHandlers | internal/server/server.go:49-55 | the routes are mounted from the last name to the first, each under "/" + name |
| Servers.MountsReversed | internal/server/server.go:49-55 | when every name is a key, there is one route per name, the last name first |
| Servers.MountsDescending | internal/server/server.go:44-55 | the route prefixes are strictly descending, and every key, and nothing else, has its route |
| Servers.LongerNameFirst | internal/server/server.go:44-55 | when one name is a proper prefix of another, the longer one is mounted first |
| Servers.NewGRPCServer | internal/server/server.go:61-71 | the server has the configured timeout, and every join function is called once, in order |
| Servers.Server.Apply | internal/server/server.go:26-71 | an option sets its own field. `SetGRPC` panics on a nil configuration and then leaves the server as it was |
| Servers.NewServer | internal/server/server.go:16-24 | a new server with every option applied once, in the order given. The error is always nil, and a panicking option ends the construction |
| Servers.AppliedAllConcat | internal/server/server.go:19-21 | applying a list of options is applying its first part, then the rest, and nothing after a panic |
| Servers.MorePanics | internal/server/server.go:19-21 | once an option has panicked, no later option changes the outcome |
| Servers.NoConfigStaysNil | internal/server/server.go:32-36 | without `SetConfig` the server's configuration stays nil, whatever other options run |
| Servers.MainOptions | cmd/app/main.go:83-95 | the options `main` passes never panic, and the server ends up with the configuration, logger, routes and gRPC server |
| Servers.GRPCNeedsConfig | internal/server/server.go:61-66 | `SetGRPC` panics unless a configuration was set before it |
| WebStore.ReplaceById | web/src/store/index.js:28-32 | the length is kept, every element with the user's id becomes the user and every other element is unchanged; with no match the list is unchanged |
| WebStore.ReplaceByIdIdempotent | web/src/store/index.js:28-32 | replacing twice by the same user is replacing once |
| WebStore.ReplaceByIdMatches | web/src/store/index.js:28-32 | afterwards an element has the user's id exactly when it is the user |
| WebStore.MutationsKeepTheRest | web/src/store/index.js:19-32 | each flag mutation changes only its own flag, and the list mutations change only the list |
| WebStore.MutateAllSnoc | web/src/store/index.js:37-68 | one more commit is one more mutation |
| WebStore.SearchOutcome | web/src/store/index.js:35-52 | after a response the list is replaced (a missing `data` empties it) and the searching flag is cleared. After a rejection the flag stays up and the list is unchanged. The updating flag is never touched |
| WebStore.UpdateOutcome | web/src/store/index.js:53-70 | the updating flag always ends down. The list changes, by id, only when the PUT succeeded |
| WebStore.Store.SetUsersMutation | web/src/store/index.js:19-21 | the list becomes a copy of the payload, or empty for a falsy payload |
| WebStore.Store.SetIsSearchingMutation | web/src/store/index.js:22-24 | only the searching flag changes |
| WebStore.Store.SetIsUpdatingMutation | web/src/store/index.js:25-27 | only the updating flag changes |
| WebStore.Store.UpdateUserMutation | web/src/store/index.js:28-32 | the list is replaced by id |
| WebStore.Store.SearchUsers | web/src/store/index.js:35-52 | the commits made are those of the search specification, and the state is what they produce |
| WebStore.Store.UpdateUserById | web/src/store/index.js:53-70 | the PUT body holds the id, the pass text and the check-in flag, the result is true exactly on success, and the commits and state are those of the update specification |

## Left out

- I/O and the foreign libraries behind it are left out:
  - go-kit server and client construction, gorilla/mux routing, query-string and JSON decoding, JSON encoding, gRPC registration;
  - the network clients;
  - the ORM connection and DSN building;
  - viper/pflag loading of the configuration (`Read` beyond the flag registration switch), and the JSON marshalling in `Print`;
  - listeners, serving and signal handling;
  - the Sentry SDK and opentracing.
- Decoders' outcomes and capability methods are parameters: `Log()`, `SentryLog()`, `Validate()`, `error()`.
- Metrics layers are modelled as plain pass-through. Their recording runs in a goroutine under `sync.Once`, and latencies are float seconds.
- The "took" field of log lines is wall-clock time. It is a placeholder value in the model.
- The HTTP transport's own span (opened by the request function and finished by the finalizer) is left out of the event stream. So are the gRPC transport's context and finalizer functions.
- The health service's logging, Sentry and HTTP files depend on a status classifier that is not part of this model. The health service itself returns random data. Only the health gRPC converters, decoders and encoders are modelled.
- The token-bucket limiter works with a float rate, and it is left out.
- UserRepository.UserTable.FindBySurname: the database picks the order of the rows. The model fixes none, so the records are specified by a relation (each matching row exactly once) and not by a function.
- UserRepository: `ILIKE` case folding is ASCII only. PostgreSQL folds according to the database locale.
- Configs.EnvName: upper-casing is ASCII only, where `strings.ToUpper` maps all of Unicode. Every option name in the table is ASCII, so the table's environment names are unaffected.
- UserRepository: the `ConnError` branches are not modelled. `GetMasterConn` always returns a nil error, so they cannot be reached.
- Configs.OneLinePerOption: it assumes the options' texts hold no line break. That the shipped table meets this assumption is not proved.
- Configs: float defaults are kept as whole numbers and printed as `%v` prints a whole float64: plain digits below one million in magnitude, the shortest exponent form from there on. Magnitudes beyond 2^53 are printed from their exact digits, where a float64 would already have rounded them. Floats with a fractional part are not modelled; the table's one float (10000.0) is whole.
- UserGRPC.PBToSearchUserResponse: requires `NoNilUsers`. A nil element in `Data` makes the source panic when it dereferences `PBToUser(nil)` (pkg/user/grpc.go:186). Unmarshalled protobuf repeated message fields never hold nil, and the only caller converts a decoded gRPC reply (pkg/user/grpc-client.go:75).
- Configs: the generators take the option table as an argument. The source reads the global table.
- Configs: that the environment names of the shipped table are all different is not proved.
- Servers: sorting is `sort.Strings` from the standard library. The model sorts with an insertion sort and only states the result: sorted, and a permutation of its input.
- Servers: `*configs.Config` is a pointer in the source. The model holds the configuration as a value, so aliasing with the caller is not captured.
- Servers.Server.Apply: only the gRPC server's timeout and joined services are kept. Interceptors are not modelled.
- WebStore: the request URLs, the console output and the awaited network calls are left out. Other actions interleaving at an `await` is concurrency and is not modelled. A request's outcome is a parameter.
- WebStore.WebUser: a user's fields other than the id, the pass text and the check-in flag are kept as opaque text.

## Notes

- A missing id in `UpdateUser` gives the ORM's not-found error, which is not `ErrNotFound`. It therefore classifies as 500, not 404. A failed validation is wrapped around `ErrInvalidRequest`, which also classifies as 500. The model keeps both as written.
- Both user tracing spans are named "Version", as in the source.
- `GenerateFromTask` titles its first column "Command line", but its rows hold the environment name and the default. The model keeps this as written.
