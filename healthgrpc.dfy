/** The gRPC transport of the health service (pkg/health/grpc.go): the
    health messages, their wire forms, the converters between them (a nil
    message converts to nil) and the server's decoders and encoders. */
module HealthGRPC {
  import opened Base
  import opened Errors
  import opened Validation

  datatype LivenessRequest = LivenessRequest
  datatype LivenessResponse = LivenessResponse(status: string)
  datatype ReadinessRequest = ReadinessRequest
  datatype ReadinessResponse = ReadinessResponse(status: string)
  datatype VersionRequest = VersionRequest
  datatype VersionResponse = VersionResponse(buildTime: string, version: string, commit: string)

  datatype PBLivenessRequest = PBLivenessRequest
  datatype PBLivenessResponse = PBLivenessResponse(status: string)
  datatype PBReadinessRequest = PBReadinessRequest
  datatype PBReadinessResponse = PBReadinessResponse(status: string)
  datatype PBVersionRequest = PBVersionRequest
  datatype PBVersionResponse = PBVersionResponse(buildTime: string, version: string, commit: string)

  // ---------------------------------------------------------------------
  // Converters

  function LivenessRequestToPB(d: Option<LivenessRequest>): Option<PBLivenessRequest>
  {
    if d.None? then None else Some(PBLivenessRequest)
  }

  function PBToLivenessRequest(d: Option<PBLivenessRequest>): Option<LivenessRequest>
  {
    if d.None? then None else Some(LivenessRequest)
  }

  function LivenessResponseToPB(d: Option<LivenessResponse>): Option<PBLivenessResponse>
  {
    if d.None? then None else Some(PBLivenessResponse(d.value.status))
  }

  function PBToLivenessResponse(d: Option<PBLivenessResponse>): Option<LivenessResponse>
  {
    if d.None? then None else Some(LivenessResponse(d.value.status))
  }

  function ReadinessRequestToPB(d: Option<ReadinessRequest>): Option<PBReadinessRequest>
  {
    if d.None? then None else Some(PBReadinessRequest)
  }

  function PBToReadinessRequest(d: Option<PBReadinessRequest>): Option<ReadinessRequest>
  {
    if d.None? then None else Some(ReadinessRequest)
  }

  function ReadinessResponseToPB(d: Option<ReadinessResponse>): Option<PBReadinessResponse>
  {
    if d.None? then None else Some(PBReadinessResponse(d.value.status))
  }

  function PBToReadinessResponse(d: Option<PBReadinessResponse>): Option<ReadinessResponse>
  {
    if d.None? then None else Some(ReadinessResponse(d.value.status))
  }

  function VersionRequestToPB(d: Option<VersionRequest>): Option<PBVersionRequest>
  {
    if d.None? then None else Some(PBVersionRequest)
  }

  function PBToVersionRequest(d: Option<PBVersionRequest>): Option<VersionRequest>
  {
    if d.None? then None else Some(VersionRequest)
  }

  function VersionResponseToPB(d: Option<VersionResponse>): Option<PBVersionResponse>
  {
    if d.None? then None else Some(PBVersionResponse(d.value.buildTime, d.value.version, d.value.commit))
  }

  function PBToVersionResponse(d: Option<PBVersionResponse>): Option<VersionResponse>
  {
    if d.None? then None else Some(VersionResponse(d.value.buildTime, d.value.version, d.value.commit))
  }

  /** Every converter maps nil to nil and only nil to nil. */
  lemma ConvertersKeepNil(
    a: Option<LivenessRequest>, b: Option<PBLivenessRequest>, c: Option<LivenessResponse>, d: Option<PBLivenessResponse>,
    e: Option<ReadinessRequest>, f: Option<PBReadinessRequest>, g: Option<ReadinessResponse>, h: Option<PBReadinessResponse>,
    i: Option<VersionRequest>, j: Option<PBVersionRequest>, k: Option<VersionResponse>, l: Option<PBVersionResponse>)
    ensures LivenessRequestToPB(a).None? <==> a.None?
    ensures PBToLivenessRequest(b).None? <==> b.None?
    ensures LivenessResponseToPB(c).None? <==> c.None?
    ensures PBToLivenessResponse(d).None? <==> d.None?
    ensures ReadinessRequestToPB(e).None? <==> e.None?
    ensures PBToReadinessRequest(f).None? <==> f.None?
    ensures ReadinessResponseToPB(g).None? <==> g.None?
    ensures PBToReadinessResponse(h).None? <==> h.None?
    ensures VersionRequestToPB(i).None? <==> i.None?
    ensures PBToVersionRequest(j).None? <==> j.None?
    ensures VersionResponseToPB(k).None? <==> k.None?
    ensures PBToVersionResponse(l).None? <==> l.None?
  {
  }

  /** Any non-nil request converts to the empty message, both ways. */
  lemma EmptyRequestsConvert(a: Option<LivenessRequest>, b: Option<ReadinessRequest>, c: Option<VersionRequest>,
                             p: Option<PBLivenessRequest>, q: Option<PBReadinessRequest>, r: Option<PBVersionRequest>)
    ensures a.Some? ==> LivenessRequestToPB(a) == Some(PBLivenessRequest)
    ensures b.Some? ==> ReadinessRequestToPB(b) == Some(PBReadinessRequest)
    ensures c.Some? ==> VersionRequestToPB(c) == Some(PBVersionRequest)
    ensures p.Some? ==> PBToLivenessRequest(p) == Some(LivenessRequest)
    ensures q.Some? ==> PBToReadinessRequest(q) == Some(ReadinessRequest)
    ensures r.Some? ==> PBToVersionRequest(r) == Some(VersionRequest)
  {
  }

  /** The liveness and readiness responses carry their status across, both
      ways. */
  lemma StatusResponsesRoundTrip(a: Option<LivenessResponse>, p: Option<PBLivenessResponse>,
                                 b: Option<ReadinessResponse>, q: Option<PBReadinessResponse>)
    ensures PBToLivenessResponse(LivenessResponseToPB(a)) == a
    ensures LivenessResponseToPB(PBToLivenessResponse(p)) == p
    ensures PBToReadinessResponse(ReadinessResponseToPB(b)) == b
    ensures ReadinessResponseToPB(PBToReadinessResponse(q)) == q
  {
  }

  /** The version response carries its build time, version and commit
      across, both ways. */
  lemma VersionResponseRoundTrip(a: Option<VersionResponse>, p: Option<PBVersionResponse>)
    ensures PBToVersionResponse(VersionResponseToPB(a)) == a
    ensures VersionResponseToPB(PBToVersionResponse(p)) == p
  {
  }

  // ---------------------------------------------------------------------
  // Server decoders and encoders

  /** A request message as the gRPC server hands it over. */
  datatype InboundMessage =
    | LivenessMessage(liveness: Option<PBLivenessRequest>)
    | ReadinessMessage(readiness: Option<PBReadinessRequest>)
    | VersionMessage(version: Option<PBVersionRequest>)
    | OtherMessage

  datatype HealthRequest =
    | LivenessCall
    | ReadinessCall
    | VersionCall

  /** The common shape of the three decoders: reject another type with the
      decoder's message, validate the converted request, and dereference
      it (a nil message panics). */
  function DecodeAs(matches: bool, wrong: string, converted: Option<HealthRequest>,
                    err: Option<Error>): Conversion<HealthRequest>
  {
    if !matches then Rejected(Other(wrong))
    else if err.Some? then Rejected(err.value)
    else if converted.None? then Crashed
    else Converted(converted.value)
  }

  /** `decodeGRPCLivenessRequest`. */
  function DecodeLivenessRequest(request: InboundMessage, v: Validator<Option<LivenessRequest>>): (r: Conversion<HealthRequest>)
    ensures !request.LivenessMessage? ==> r == Rejected(Other("decodeGRPCLivenessRequest wrong request"))
    ensures request.LivenessMessage? ==>
      var req := PBToLivenessRequest(request.liveness);
      && (Validate(v, req).Some? ==> r == Rejected(Validate(v, req).value))
      && (Validate(v, req).None? ==> (r.Crashed? <==> request.liveness.None?))
      && (Validate(v, req).None? && request.liveness.Some? ==> r == Converted(LivenessCall))
  {
    if !request.LivenessMessage? then DecodeAs(false, "decodeGRPCLivenessRequest wrong request", None, None)
    else
      var req := PBToLivenessRequest(request.liveness);
      DecodeAs(true, "decodeGRPCLivenessRequest wrong request",
               if req.Some? then Some(LivenessCall) else None, Validate(v, req))
  }

  /** `decodeGRPCReadinessRequest`. */
  function DecodeReadinessRequest(request: InboundMessage, v: Validator<Option<ReadinessRequest>>): (r: Conversion<HealthRequest>)
    ensures !request.ReadinessMessage? ==> r == Rejected(Other("decodeGRPCReadinessRequest wrong request"))
    ensures request.ReadinessMessage? ==>
      var req := PBToReadinessRequest(request.readiness);
      && (Validate(v, req).Some? ==> r == Rejected(Validate(v, req).value))
      && (Validate(v, req).None? ==> (r.Crashed? <==> request.readiness.None?))
      && (Validate(v, req).None? && request.readiness.Some? ==> r == Converted(ReadinessCall))
  {
    if !request.ReadinessMessage? then DecodeAs(false, "decodeGRPCReadinessRequest wrong request", None, None)
    else
      var req := PBToReadinessRequest(request.readiness);
      DecodeAs(true, "decodeGRPCReadinessRequest wrong request",
               if req.Some? then Some(ReadinessCall) else None, Validate(v, req))
  }

  /** `decodeGRPCVersionRequest`. */
  function DecodeVersionRequest(request: InboundMessage, v: Validator<Option<VersionRequest>>): (r: Conversion<HealthRequest>)
    ensures !request.VersionMessage? ==> r == Rejected(Other("decodeGRPCVersionRequest wrong request"))
    ensures request.VersionMessage? ==>
      var req := PBToVersionRequest(request.version);
      && (Validate(v, req).Some? ==> r == Rejected(Validate(v, req).value))
      && (Validate(v, req).None? ==> (r.Crashed? <==> request.version.None?))
      && (Validate(v, req).None? && request.version.Some? ==> r == Converted(VersionCall))
  {
    if !request.VersionMessage? then DecodeAs(false, "decodeGRPCVersionRequest wrong request", None, None)
    else
      var req := PBToVersionRequest(request.version);
      DecodeAs(true, "decodeGRPCVersionRequest wrong request",
               if req.Some? then Some(VersionCall) else None, Validate(v, req))
  }

  /** Without a `Validate` method (none of the health requests has one) a
      decoder accepts every non-nil message of its own type and only those. */
  lemma DecodersAcceptTheirOwnType(m: InboundMessage)
    ensures DecodeLivenessRequest(m, NoValidate).Converted? <==> m.LivenessMessage? && m.liveness.Some?
    ensures DecodeReadinessRequest(m, NoValidate).Converted? <==> m.ReadinessMessage? && m.readiness.Some?
    ensures DecodeVersionRequest(m, NoValidate).Converted? <==> m.VersionMessage? && m.version.Some?
  {
  }

  /** A response value as the endpoint hands it to the encoder. */
  datatype OutboundValue =
    | LivenessValue(liveness: Option<LivenessResponse>)
    | ReadinessValue(readiness: Option<ReadinessResponse>)
    | VersionValue(version: Option<VersionResponse>)
    | OtherValue

  datatype OutboundMessage =
    | LivenessReply(liveness: Option<PBLivenessResponse>)
    | ReadinessReply(readiness: Option<PBReadinessResponse>)
    | VersionReply(version: Option<PBVersionResponse>)

  /** `encodeGRPCLivenessResponse`. */
  function EncodeLivenessResponse(response: OutboundValue): (r: Conversion<OutboundMessage>)
    ensures !response.LivenessValue? ==> r == Rejected(Other("encodeGRPCLivenessResponse wrong response"))
    ensures response.LivenessValue? ==>
      r.Converted? && r.value.LivenessReply? && PBToLivenessResponse(r.value.liveness) == response.liveness
  {
    if !response.LivenessValue? then Rejected(Other("encodeGRPCLivenessResponse wrong response"))
    else Converted(LivenessReply(LivenessResponseToPB(response.liveness)))
  }

  /** `encodeGRPCReadinessResponse`. */
  function EncodeReadinessResponse(response: OutboundValue): (r: Conversion<OutboundMessage>)
    ensures !response.ReadinessValue? ==> r == Rejected(Other("encodeGRPCReadinessResponse wrong response"))
    ensures response.ReadinessValue? ==>
      r.Converted? && r.value.ReadinessReply? && PBToReadinessResponse(r.value.readiness) == response.readiness
  {
    if !response.ReadinessValue? then Rejected(Other("encodeGRPCReadinessResponse wrong response"))
    else Converted(ReadinessReply(ReadinessResponseToPB(response.readiness)))
  }

  /** `encodeGRPCVersionResponse`. */
  function EncodeVersionResponse(response: OutboundValue): (r: Conversion<OutboundMessage>)
    ensures !response.VersionValue? ==> r == Rejected(Other("encodeGRPCVersionResponse wrong response"))
    ensures response.VersionValue? ==>
      r.Converted? && r.value.VersionReply? && PBToVersionResponse(r.value.version) == response.version
  {
    if !response.VersionValue? then Rejected(Other("encodeGRPCVersionResponse wrong response"))
    else Converted(VersionReply(VersionResponseToPB(response.version)))
  }
}
