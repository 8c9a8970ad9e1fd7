/**
 * lib/fluent/plugin/in_otlp.rb: the older `otlp` input plugin. Its
 * HttpHandler is a copy of HttpInputHandler's `common` with three
 * differences: the body is read only after both header checks, it decodes
 * through Otlp::Request (strict JSON), and it never closes the request. Its
 * predicates and response helpers are the same as HttpInputHandler's, which
 * this module reuses, and so are its routes (`InOpentelemetry.RouteKind`).
 * Records are emitted with symbol keys.
 */
module OtlpInput {
  import opened Support
  import opened Constant
  import opened Errors
  import opened Codec
  import Request
  import OtlpRequest
  import Response
  import opened Pipeline
  import opened HttpInputHandler
  import InOpentelemetry

  const SectionMessage := "Please configure either <http> or <grpc> section, or both."

  /** `configure`: at least one of `<http>` and `<grpc>`; there is no gem check here. */
  function Configure(httpSection: bool, grpcSection: bool): (r: Option<ConfigError>)
    ensures r.None? <==> httpSection || grpcSection
    ensures r.Some? ==> r.value.message == SectionMessage
  {
    if httpSection || grpcSection then None else Some(ConfigError(SectionMessage))
  }

  /**
   * `HttpHandler#common`: the same decision as the current handler with
   * unknown JSON fields rejected; the request is left open.
   */
  method Common(pb: Protobuf, z: Zlib, kind: SignalKind, req: HttpRequest, block: EmitBlock)
    returns (exit: Exit)
    modifies block.router
    ensures exit == Handle(pb, z, kind, req.contentType, req.contentEncoding, req.body, LibraryDefaultIgnoreUnknownFields).exit
    ensures block.router.events
         == old(block.router.events)
          + block.EventsFor(Handle(pb, z, kind, req.contentType, req.contentEncoding, req.body, LibraryDefaultIgnoreUnknownFields).yielded)
  {
    var contentType := req.contentType;
    var contentEncoding := FirstValue(req.contentEncoding);
    if !ValidContentType(contentType) {
      return Responded(UnsupportedMediaType());
    }
    if !ValidContentEncoding(contentEncoding) {
      return Responded(BadRequest(contentType.value));
    }

    var body := req.body;
    if contentEncoding == Some(ContentEncodingGzip) {
      var inflated := z.gunzip(body);
      if inflated.Err? {
        return Raised(inflated.error);
      }
      body := inflated.value;
    }

    var decoded := OtlpRequest.New(pb, kind, body);
    OtlpRequest.SameAsStrictRequest(pb, kind, body);
    if decoded.Err? {
      return Responded(BadRequest(contentType.value));
    }

    var record := Request.Record(pb, decoded.value);
    block.Call(record);

    var res := Response.New(kind);
    exit := Responded(Respond(200, contentType.value, Response.Body(pb, res, Response.Type(contentType).value)));
  }

  /** The event `{ type: RECORD_TYPE_<kind>, message: record }`. */
  function EmittedEvent(tag: string, kind: SignalKind, record: string): Event {
    Event(tag, EventRecord(SymbolKeys, RecordType(kind), record))
  }

  /** A POST to one of the registered routes. */
  method Post(pb: Protobuf, z: Zlib, tag: string, router: Router, path: string, req: HttpRequest)
    returns (exit: Option<Exit>)
    modifies router
    ensures InOpentelemetry.RouteKind(path).None? ==> exit.None? && router.events == old(router.events)
    ensures InOpentelemetry.RouteKind(path).Some? ==>
      var h := Handle(pb, z, InOpentelemetry.RouteKind(path).value, req.contentType, req.contentEncoding, req.body, false);
      && exit == Some(h.exit)
      && router.events == old(router.events)
           + (if h.yielded.Some? then [EmittedEvent(tag, InOpentelemetry.RouteKind(path).value, h.yielded.value)] else [])
  {
    var kind := InOpentelemetry.RouteKind(path);
    if kind.None? {
      exit := None;
      return;
    }
    var block := new EmitBlock(router, tag, SymbolKeys, RecordType(kind.value));
    var e := Common(pb, z, kind.value, req, block);
    exit := Some(e);
  }

  /** One call of the callbacks `start` gives to the gRPC server. */
  method GrpcEmit(tag: string, router: Router, kind: SignalKind, record: string)
    modifies router
    ensures router.events == old(router.events) + [EmittedEvent(tag, kind, record)]
  {
    router.Emit(Event(tag, EventRecord(SymbolKeys, RecordType(kind), record)));
  }

  /**
   * The legacy handler accepts no JSON body the current one rejects: if the
   * strict decoder accepts, the permissive one does too, and then both
   * handlers yield the same record.
   */
  lemma StrictAcceptImpliesPermissive(pb: Protobuf, z: Zlib, kind: SignalKind, contentType: Option<string>,
                                      contentEncoding: Option<seq<string>>, body: string)
    requires forall text :: pb.decodeJson(kind, text, false).Ok? ==> pb.decodeJson(kind, text, true) == pb.decodeJson(kind, text, false)
    requires Handle(pb, z, kind, contentType, contentEncoding, body, false).yielded.Some?
    ensures Handle(pb, z, kind, contentType, contentEncoding, body, true) == Handle(pb, z, kind, contentType, contentEncoding, body, false)
  {
  }
}
