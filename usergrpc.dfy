/** The gRPC transport of the user service (pkg/user/grpc.go): the wire
    messages, the field-copying converters between service and wire types
    (a nil message converts to nil), and the decoders and encoders that the
    gRPC server runs around the endpoints. */
module UserGRPC {
  import opened Base
  import opened Errors
  import opened UserMessages
  import opened Validation

  datatype PBStatus = PBStatus(status: bool, message: string)

  datatype PBUser = PBUser(
    id: uint64,
    status: string,
    company: string,
    surname: string,
    name: string,
    guest: string,
    covidPass: string,
    rank: string,
    contactPhone: string,
    contactMail: string,
    checkin: bool)

  datatype PBUpdateData = PBUpdateData(covidPass: string, checkin: bool)

  datatype PBUpdateUserRequest = PBUpdateUserRequest(id: uint64, data: Option<PBUpdateData>)

  datatype PBUpdateUserResponse = PBUpdateUserResponse(status: Option<PBStatus>)

  datatype PBSearchUserRequest = PBSearchUserRequest(surname: string)

  /** A repeated message field: its elements are pointers. */
  datatype PBSearchUserResponse = PBSearchUserResponse(status: Option<PBStatus>, data: seq<Option<PBUser>>)

  // ---------------------------------------------------------------------
  // Converters

  function SearchUserRequestToPB(d: Option<SearchUserRequest>): Option<PBSearchUserRequest>
  {
    if d.None? then None else Some(PBSearchUserRequest(d.value.surname))
  }

  function PBToSearchUserRequest(d: Option<PBSearchUserRequest>): Option<SearchUserRequest>
  {
    if d.None? then None else Some(SearchUserRequest(d.value.surname))
  }

  function StatusToPB(d: Option<Status>): Option<PBStatus>
  {
    if d.None? then None else Some(PBStatus(d.value.status, d.value.message))
  }

  function PBToStatus(d: Option<PBStatus>): Option<Status>
  {
    if d.None? then None else Some(Status(d.value.status, d.value.message))
  }

  function UpdateDataToPB(d: Option<UpdateData>): Option<PBUpdateData>
  {
    if d.None? then None else Some(PBUpdateData(d.value.covidPass, d.value.checkin))
  }

  function PBToUpdateData(d: Option<PBUpdateData>): Option<UpdateData>
  {
    if d.None? then None else Some(UpdateData(d.value.covidPass, d.value.checkin))
  }

  function UpdateUserRequestToPB(d: Option<UpdateUserRequest>): Option<PBUpdateUserRequest>
  {
    if d.None? then None else Some(PBUpdateUserRequest(d.value.id, UpdateDataToPB(d.value.data)))
  }

  function PBToUpdateUserRequest(d: Option<PBUpdateUserRequest>): Option<UpdateUserRequest>
  {
    if d.None? then None else Some(UpdateUserRequest(d.value.id, PBToUpdateData(d.value.data)))
  }

  function UpdateUserResponseToPB(d: Option<UpdateUserResponse>): Option<PBUpdateUserResponse>
  {
    if d.None? then None else Some(PBUpdateUserResponse(StatusToPB(d.value.status)))
  }

  function PBToUpdateUserResponse(d: Option<PBUpdateUserResponse>): Option<UpdateUserResponse>
  {
    if d.None? then None else Some(UpdateUserResponse(PBToStatus(d.value.status)))
  }

  function UserToPB(d: Option<User>): Option<PBUser>
  {
    if d.None? then None
    else
      var u := d.value;
      Some(PBUser(u.id, u.status, u.company, u.surname, u.name, u.guest, u.covidPass,
                  u.rank, u.contactPhone, u.contactMail, u.checkin))
  }

  function PBToUser(d: Option<PBUser>): Option<User>
  {
    if d.None? then None
    else
      var u := d.value;
      Some(User(u.id, u.status, u.company, u.surname, u.name, u.guest, u.covidPass,
                u.rank, u.contactPhone, u.contactMail, u.checkin))
  }

  /** The data of a response on the wire: one non-nil message per user. */
  function UsersToPB(us: seq<User>): (ps: seq<Option<PBUser>>)
    ensures |ps| == |us|
    ensures forall k :: 0 <= k < |us| ==> ps[k] == UserToPB(Some(us[k])) && ps[k].Some?
  {
    seq(|us|, k requires 0 <= k < |us| => UserToPB(Some(us[k])))
  }

  /** No element of the wire data is nil. */
  predicate NoNilUsers(ps: seq<Option<PBUser>>)
  {
    forall k :: 0 <= k < |ps| ==> ps[k].Some?
  }

  function UsersFromPB(ps: seq<Option<PBUser>>): (us: seq<User>)
    requires NoNilUsers(ps)
    ensures |us| == |ps|
    ensures forall k :: 0 <= k < |ps| ==> Some(us[k]) == PBToUser(ps[k])
  {
    seq(|ps|, k requires 0 <= k < |ps| => PBToUser(ps[k]).value)
  }

  /** The converted response `SearchUserResponseToPB` builds. */
  function SearchUserResponseAsPB(d: Option<SearchUserResponse>): Option<PBSearchUserResponse>
  {
    if d.None? then None else Some(PBSearchUserResponse(StatusToPB(d.value.status), UsersToPB(d.value.data)))
  }

  /** The converted response `PBToSearchUserResponse` builds; a nil element
      of the wire data would be dereferenced. */
  function SearchUserResponseFromPB(d: Option<PBSearchUserResponse>): Option<SearchUserResponse>
    requires d.Some? ==> NoNilUsers(d.value.data)
  {
    if d.None? then None else Some(SearchUserResponse(PBToStatus(d.value.status), UsersFromPB(d.value.data)))
  }

  /** `SearchUserResponseToPB`: copies the status and appends one wire user
      per user, in order. */
  method SearchUserResponseToPB(d: Option<SearchUserResponse>) returns (r: Option<PBSearchUserResponse>)
    ensures r == SearchUserResponseAsPB(d)
  {
    if d.None? {
      return None;
    }
    var resp := PBSearchUserResponse(StatusToPB(d.value.status), []);
    var data := d.value.data;
    var i := 0;
    while i < |data|
      invariant 0 <= i <= |data|
      invariant resp.status == StatusToPB(d.value.status)
      invariant resp.data == UsersToPB(data[..i])
    {
      resp := resp.(data := resp.data + [UserToPB(Some(data[i]))]);
      i := i + 1;
    }
    assert data[..i] == data;
    r := Some(resp);
  }

  /** `PBToSearchUserResponse`: copies the status and appends one user per
      wire user, in order. */
  method PBToSearchUserResponse(d: Option<PBSearchUserResponse>) returns (r: Option<SearchUserResponse>)
    requires d.Some? ==> NoNilUsers(d.value.data)
    ensures r == SearchUserResponseFromPB(d)
  {
    if d.None? {
      return None;
    }
    var resp := SearchUserResponse(PBToStatus(d.value.status), []);
    var data := d.value.data;
    var i := 0;
    while i < |data|
      invariant 0 <= i <= |data|
      invariant resp.status == PBToStatus(d.value.status)
      invariant resp.data == UsersFromPB(data[..i])
    {
      resp := resp.(data := resp.data + [PBToUser(data[i]).value]);
      i := i + 1;
    }
    assert data[..i] == data;
    r := Some(resp);
  }

  // ---------------------------------------------------------------------
  // Round trips

  lemma StatusRoundTrip(d: Option<Status>, p: Option<PBStatus>)
    ensures PBToStatus(StatusToPB(d)) == d
    ensures StatusToPB(PBToStatus(p)) == p
    ensures StatusToPB(d).None? <==> d.None?
  {
  }

  lemma UserRoundTrip(d: Option<User>, p: Option<PBUser>)
    ensures PBToUser(UserToPB(d)) == d
    ensures UserToPB(PBToUser(p)) == p
    ensures UserToPB(d).None? <==> d.None?
  {
  }

  lemma SearchUserRequestRoundTrip(d: Option<SearchUserRequest>, p: Option<PBSearchUserRequest>)
    ensures PBToSearchUserRequest(SearchUserRequestToPB(d)) == d
    ensures SearchUserRequestToPB(PBToSearchUserRequest(p)) == p
  {
  }

  /** A nil `Data` stays nil both ways. */
  lemma UpdateUserRequestRoundTrip(d: Option<UpdateUserRequest>, p: Option<PBUpdateUserRequest>)
    ensures PBToUpdateUserRequest(UpdateUserRequestToPB(d)) == d
    ensures UpdateUserRequestToPB(PBToUpdateUserRequest(p)) == p
    ensures d.Some? ==> (UpdateUserRequestToPB(d).value.data.None? <==> d.value.data.None?)
  {
  }

  lemma UpdateUserResponseRoundTrip(d: Option<UpdateUserResponse>, p: Option<PBUpdateUserResponse>)
    ensures PBToUpdateUserResponse(UpdateUserResponseToPB(d)) == d
    ensures UpdateUserResponseToPB(PBToUpdateUserResponse(p)) == p
  {
  }

  lemma {:induction false} UsersRoundTrip(us: seq<User>)
    ensures UsersFromPB(UsersToPB(us)) == us
  {
    var back := UsersFromPB(UsersToPB(us));
    forall k | 0 <= k < |us| ensures back[k] == us[k] {
      UserRoundTrip(Some(us[k]), None);
    }
  }

  lemma {:induction false} UsersRoundTripFromWire(ps: seq<Option<PBUser>>)
    requires NoNilUsers(ps)
    ensures UsersToPB(UsersFromPB(ps)) == ps
  {
    var back := UsersToPB(UsersFromPB(ps));
    forall k | 0 <= k < |ps| ensures back[k] == ps[k] {
      UserRoundTrip(None, ps[k]);
    }
  }

  /** A search response survives the trip to the wire and back, with its
      users in the same order; and a wire response without nil users
      survives the opposite trip. */
  lemma SearchUserResponseRoundTrip(d: Option<SearchUserResponse>, p: Option<PBSearchUserResponse>)
    requires p.Some? ==> NoNilUsers(p.value.data)
    ensures SearchUserResponseFromPB(SearchUserResponseAsPB(d)) == d
    ensures SearchUserResponseAsPB(SearchUserResponseFromPB(p)) == p
  {
    if d.Some? {
      UsersRoundTrip(d.value.data);
    }
    if p.Some? {
      UsersRoundTripFromWire(p.value.data);
    }
  }

  // ---------------------------------------------------------------------
  // Server decoders and encoders

  /** A request message as the gRPC server hands it over: one of the two
      request types (possibly a nil pointer), or a message of another type. */
  datatype InboundMessage =
    | UpdateUserMessage(update: Option<PBUpdateUserRequest>)
    | SearchUserMessage(search: Option<PBSearchUserRequest>)
    | OtherMessage

  /** `decodeGRPCUpdateUserRequest`: reject another type, convert, validate,
      and return the request value; a nil message is dereferenced. */
  function DecodeUpdateUserRequest(request: InboundMessage, v: Validator<Option<UpdateUserRequest>>): (r: Conversion<Request>)
    ensures !request.UpdateUserMessage? ==> r == Rejected(Other("decodeGRPCUpdateUserRequest wrong request"))
    ensures request.UpdateUserMessage? ==>
      var req := PBToUpdateUserRequest(request.update);
      && (Validate(v, req).Some? ==> r == Rejected(Validate(v, req).value))
      && (Validate(v, req).None? && req.None? ==> r.Crashed?)
      && (Validate(v, req).None? && req.Some? ==> r == Converted(UpdateUserCall(req.value)))
  {
    if !request.UpdateUserMessage? then Rejected(Other("decodeGRPCUpdateUserRequest wrong request"))
    else
      var req := PBToUpdateUserRequest(request.update);
      var err := Validate(v, req);
      if err.Some? then Rejected(err.value)
      else if req.None? then Crashed
      else Converted(UpdateUserCall(req.value))
  }

  /** `decodeGRPCSearchUserRequest`. */
  function DecodeSearchUserRequest(request: InboundMessage, v: Validator<Option<SearchUserRequest>>): (r: Conversion<Request>)
    ensures !request.SearchUserMessage? ==> r == Rejected(Other("decodeGRPCSearchUserRequest wrong request"))
    ensures request.SearchUserMessage? ==>
      var req := PBToSearchUserRequest(request.search);
      && (Validate(v, req).Some? ==> r == Rejected(Validate(v, req).value))
      && (Validate(v, req).None? && req.None? ==> r.Crashed?)
      && (Validate(v, req).None? && req.Some? ==> r == Converted(SearchUserCall(req.value)))
  {
    if !request.SearchUserMessage? then Rejected(Other("decodeGRPCSearchUserRequest wrong request"))
    else
      var req := PBToSearchUserRequest(request.search);
      var err := Validate(v, req);
      if err.Some? then Rejected(err.value)
      else if req.None? then Crashed
      else Converted(SearchUserCall(req.value))
  }

  /** A request a client converts to the wire is decoded back to the same
      request when validation passes. */
  lemma DecodeAfterConvert(u: UpdateUserRequest, q: SearchUserRequest,
                           vu: Validator<Option<UpdateUserRequest>>, vq: Validator<Option<SearchUserRequest>>)
    requires Validate(vu, Some(u)).None? && Validate(vq, Some(q)).None?
    ensures DecodeUpdateUserRequest(UpdateUserMessage(UpdateUserRequestToPB(Some(u))), vu) == Converted(UpdateUserCall(u))
    ensures DecodeSearchUserRequest(SearchUserMessage(SearchUserRequestToPB(Some(q))), vq) == Converted(SearchUserCall(q))
  {
    UpdateUserRequestRoundTrip(Some(u), None);
    SearchUserRequestRoundTrip(Some(q), None);
  }

  /** A response value as the endpoint hands it to the encoder. */
  datatype OutboundValue =
    | UpdateUserValue(updated: Option<UpdateUserResponse>)
    | SearchUserValue(found: Option<SearchUserResponse>)
    | OtherValue

  datatype OutboundMessage =
    | UpdateUserReplyMessage(updated: Option<PBUpdateUserResponse>)
    | SearchUserReplyMessage(found: Option<PBSearchUserResponse>)

  /** `encodeGRPCUpdateUserResponse`. */
  function EncodeUpdateUserResponse(response: OutboundValue): (r: Conversion<OutboundMessage>)
    ensures !response.UpdateUserValue? ==> r == Rejected(Other("encodeGRPCUpdateUserResponse wrong response"))
    ensures response.UpdateUserValue? ==> r.Converted? && r.value.UpdateUserReplyMessage?
    ensures response.UpdateUserValue? ==> PBToUpdateUserResponse(r.value.updated) == response.updated
  {
    if !response.UpdateUserValue? then Rejected(Other("encodeGRPCUpdateUserResponse wrong response"))
    else Converted(UpdateUserReplyMessage(UpdateUserResponseToPB(response.updated)))
  }

  /** `encodeGRPCSearchUserResponse`. */
  method EncodeSearchUserResponse(response: OutboundValue) returns (r: Conversion<OutboundMessage>)
    ensures !response.SearchUserValue? ==> r == Rejected(Other("encodeGRPCSearchUserResponse wrong response"))
    ensures response.SearchUserValue? ==> r == Converted(SearchUserReplyMessage(SearchUserResponseAsPB(response.found)))
  {
    if !response.SearchUserValue? {
      return Rejected(Other("encodeGRPCSearchUserResponse wrong response"));
    }
    var pb := SearchUserResponseToPB(response.found);
    r := Converted(SearchUserReplyMessage(pb));
  }

  /** What the encoder sends decodes back to the service's response. */
  lemma EncodedSearchResponseDecodes(d: Option<SearchUserResponse>)
    ensures var p := SearchUserResponseAsPB(d);
      (p.Some? ==> NoNilUsers(p.value.data)) && SearchUserResponseFromPB(p) == d
  {
    SearchUserResponseRoundTrip(d, None);
  }
}
