/**
 * lib/fluent/plugin/opentelemetry/grpc_output_handler.rb: OTLP/gRPC egress.
 * The handler picks the service stub of the record's kind, the stub decodes
 * the JSON message with google-protobuf's default (unknown fields rejected)
 * and makes the unary `export` call. Only a ParseError is translated; the
 * RPC's own failure passes through unchanged, and no status code is
 * classified as retryable.
 */
module GrpcOutputHandler {
  import opened Support
  import opened Constant
  import opened Errors
  import opened Codec
  import opened Egress

  /** The `<grpc>` section of out_opentelemetry.rb. */
  datatype GrpcConfig = GrpcConfig(
    endpoint: string,
    compress: Compress,
    timeout: int,
    keepaliveTime: int,
    keepaliveTimeout: int)

  /** `@channel_args`: `{}`, or the channel arguments of gzip as default compression. */
  datatype ChannelArgs = NoChannelArgs | GzipCompressionArgs

  /** The only credential the handler uses: `:this_channel_is_insecure`. */
  datatype Credential = ThisChannelIsInsecure

  /** `ServiceStub::<Kind>.new(host, creds, channel_args:)`. */
  datatype ServiceStub = ServiceStub(kind: SignalKind, host: string, credential: Credential, channelArgs: ChannelArgs)

  /** What the collector answers to the unary call: a response, or a GRPC::BadStatus. */
  datatype RpcReply = RpcOk | RpcFailure(message: string)

  /** One `export`: the stub called and the message it sent (if any), the exception raised. */
  datatype GrpcExport = GrpcExport(sent: Option<(ServiceStub, Message)>, raised: Option<ExportError>)

  /** `service.export` on nil: no `case` branch matched the record type. */
  const NilServiceMessage := "undefined method 'export' for nil"
  /** `decode_json(nil)`: the record has no message. */
  const NilMessageMessage := "no implicit conversion of nil into String"

  /** What leaves `ServiceStub::<Kind>#export`: a ParseError of the decoder, or any other exception. */
  datatype StubRaise = Parse(parseError: ParseError) | Raised(error: ExportError)

  /** One stub `export`: the message sent (if any), the exception it lets out. */
  datatype StubResult = StubResult(sent: Option<(ServiceStub, Message)>, raised: Option<StubRaise>)

  /**
   * `ServiceStub::<Kind>#export(json)`: `decode_json(json)` with the library's
   * default flag, then the call. A nil message is refused by the decoder with
   * a TypeError, not a ParseError.
   */
  function StubExport(pb: Protobuf, stub: ServiceStub, json: Option<string>, reply: RpcReply): (r: StubResult)
    ensures r.sent.Some? <==> json.Some? && pb.decodeJson(stub.kind, json.value, false).Ok?
    ensures r.sent.Some? ==> r.sent.value == (stub, pb.decodeJson(stub.kind, json.value, false).value)
    ensures r.sent.Some? ==> (r.raised.None? <==> reply.RpcOk?)
    ensures r.raised.Some? && r.raised.value.Parse? <==> json.Some? && pb.decodeJson(stub.kind, json.value, false).Err?
    ensures json.None? ==> r.sent.None? && r.raised == Some(Raised(OtherError(NilMessageMessage)))
  {
    match json
    case None => StubResult(None, Some(Raised(OtherError(NilMessageMessage))))
    case Some(text) =>
      match pb.decodeJson(stub.kind, text, LibraryDefaultIgnoreUnknownFields)
      case Err(e) => StubResult(None, Some(Parse(e)))
      case Ok(m) =>
        match reply
        case RpcOk => StubResult(Some((stub, m)), None)
        case RpcFailure(msg) => StubResult(Some((stub, m)), Some(Raised(RpcError(msg))))
  }

  /** The handler's `rescue Google::Protobuf::ParseError => e; raise UnrecoverableError, e.message`. */
  function Rescue(raised: Option<StubRaise>): (r: Option<ExportError>)
    ensures r.None? <==> raised.None?
    ensures raised.Some? && raised.value.Parse? ==> r == Some(UnrecoverableError(raised.value.parseError.message))
    ensures raised.Some? && raised.value.Raised? ==> r == Some(raised.value.error)
  {
    match raised
    case None => None
    case Some(Parse(e)) => Some(UnrecoverableError(e.message))
    case Some(Raised(x)) => Some(x)
  }

  class GrpcOutputHandler {
    const grpcConfig: GrpcConfig
    const channelArgs: ChannelArgs

    /** `initialize`: `@channel_args` is `{}` unless the section asks for gzip. */
    constructor (grpcConfig: GrpcConfig)
      ensures this.grpcConfig == grpcConfig
      ensures channelArgs == (if grpcConfig.compress == Gzip then GzipCompressionArgs else NoChannelArgs)
    {
      this.grpcConfig := grpcConfig;
      var args := NoChannelArgs;
      if grpcConfig.compress == Gzip {
        args := GzipCompressionArgs;
      }
      channelArgs := args;
    }

    /** The stub `export` builds for a kind: the configured endpoint, insecure, the channel arguments. */
    function Stub(kind: SignalKind): (s: ServiceStub)
      ensures s.kind == kind && s.host == grpcConfig.endpoint
      ensures s.credential == ThisChannelIsInsecure && s.channelArgs == channelArgs
    {
      ServiceStub(kind, grpcConfig.endpoint, ThisChannelIsInsecure, channelArgs)
    }

    /**
     * The outcome of `export(record)`: the stub's outcome with a ParseError
     * rethrown as UnrecoverableError carrying the parser's message.
     */
    function ExportOutcome(pb: Protobuf, record: OutRecord, reply: RpcReply): (r: GrpcExport)
      ensures KindOfRecordType(record.recordType).None? ==> r == GrpcExport(None, Some(OtherError(NilServiceMessage)))
      ensures KindOfRecordType(record.recordType).Some? && record.message.Some? ==>
        var kind := KindOfRecordType(record.recordType).value;
        match pb.decodeJson(kind, record.message.value, false)
        case Err(e) => r == GrpcExport(None, Some(UnrecoverableError(e.message)))
        case Ok(m) => r.sent == Some((Stub(kind), m))
                      && r.raised == (if reply.RpcOk? then None else Some(RpcError(reply.message)))
      ensures KindOfRecordType(record.recordType).Some? && record.message.None? ==>
        r == GrpcExport(None, Some(OtherError(NilMessageMessage)))
      ensures r.raised.Some? ==> !r.raised.value.RetryableResponse?
    {
      match KindOfRecordType(record.recordType)
      case None => GrpcExport(None, Some(OtherError(NilServiceMessage)))
      case Some(kind) =>
        var out := StubExport(pb, Stub(kind), record.message, reply);
        GrpcExport(out.sent, Rescue(out.raised))
    }

    /**
     * `export(record)`, step by step: the `case` chooses the stub, then
     * `service.export(msg)` runs inside the `rescue` of ParseError.
     */
    method Export(pb: Protobuf, record: OutRecord, reply: RpcReply) returns (r: GrpcExport)
      ensures r == ExportOutcome(pb, record, reply)
    {
      var msg := record.message;
      var credential := ThisChannelIsInsecure;
      var service: Option<ServiceStub> := None;
      var kind := KindOfRecordType(record.recordType);
      if kind == Some(Logs) {
        service := Some(ServiceStub(Logs, grpcConfig.endpoint, credential, channelArgs));
      } else if kind == Some(Metrics) {
        service := Some(ServiceStub(Metrics, grpcConfig.endpoint, credential, channelArgs));
      } else if kind == Some(Traces) {
        service := Some(ServiceStub(Traces, grpcConfig.endpoint, credential, channelArgs));
      }

      if service.None? {
        return GrpcExport(None, Some(OtherError(NilServiceMessage)));
      }
      var out := StubExport(pb, service.value, msg, reply);
      r := GrpcExport(out.sent, None);
      if out.raised.Some? {
        match out.raised.value
        case Parse(e) => r := r.(raised := Some(UnrecoverableError(e.message)));
        case Raised(x) => r := r.(raised := Some(x));
      }
    }

    /** A message the gRPC path sends is exactly what the strict decoder accepts. */
    lemma SendsOnlyStrictlyDecodable(pb: Protobuf, record: OutRecord, reply: RpcReply)
      ensures ExportOutcome(pb, record, reply).sent.Some? <==>
        && KindOfRecordType(record.recordType).Some? && record.message.Some?
        && pb.decodeJson(KindOfRecordType(record.recordType).value, record.message.value, false).Ok?
    {
    }
  }
}
