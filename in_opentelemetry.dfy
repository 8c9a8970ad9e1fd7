/**
 * lib/fluent/plugin/in_opentelemetry.rb: the `opentelemetry` input plugin.
 * `Configure` is the section check of `configure`; `Post` is one request to
 * a route that `start` registers on the HTTP server, and `GrpcEmit` is one
 * call of the callbacks it hands to the gRPC server. Both emit the record
 * `{ "type" => RECORD_TYPE_<kind>, "message" => record }`.
 */
module InOpentelemetry {
  import opened Support
  import opened Constant
  import opened Errors
  import opened Codec
  import opened Pipeline
  import opened HttpInputHandler

  const GrpcGemMessage := "To use gRPC feature, please install grpc gem such as 'fluent-gem install grpc'."
  const SectionMessage := "Please configure either <http> or <grpc> section, or both."

  /**
   * `configure`: a `<grpc>` section needs the grpc gem (checked first), and
   * at least one of `<http>` and `<grpc>` must be present.
   */
  function Configure(httpSection: bool, grpcSection: bool, grpcDefined: bool): (r: Option<ConfigError>)
    ensures r.None? <==> (httpSection || grpcSection) && (grpcSection ==> grpcDefined)
    ensures grpcSection && !grpcDefined ==> r == Some(ConfigError(GrpcGemMessage))
    ensures !httpSection && !grpcSection ==> r == Some(ConfigError(SectionMessage))
  {
    if grpcSection && !grpcDefined then Some(ConfigError(GrpcGemMessage))
    else if !(httpSection || grpcSection) then Some(ConfigError(SectionMessage))
    else None
  }

  /** The routes `start` registers with `serv.post`, and the handler each one uses. */
  function RouteKind(path: string): (r: Option<SignalKind>)
    ensures r == Some(Logs) <==> path == "/v1/logs"
    ensures r == Some(Metrics) <==> path == "/v1/metrics"
    ensures r == Some(Traces) <==> path == "/v1/traces"
  {
    if path == "/v1/logs" then Some(Logs)
    else if path == "/v1/metrics" then Some(Metrics)
    else if path == "/v1/traces" then Some(Traces)
    else None
  }

  /** The event the block of the route for `kind` emits for `record`. */
  function EmittedEvent(tag: string, kind: SignalKind, record: string): Event {
    Event(tag, EventRecord(StringKeys, RecordType(kind), record))
  }

  /**
   * A POST to `path`: an unregistered path reaches no handler (None);
   * otherwise the handler of its kind runs with a block that emits the
   * yielded record, unmodified, under that kind's record type.
   */
  method Post(pb: Protobuf, z: Zlib, tag: string, router: Router, path: string, req: HttpRequest)
    returns (exit: Option<Exit>)
    modifies req, router
    ensures RouteKind(path).None? ==> exit.None? && router.events == old(router.events)
    ensures RouteKind(path).Some? ==>
      var h := Handle(pb, z, RouteKind(path).value, req.contentType, req.contentEncoding, req.body, true);
      && exit == Some(h.exit)
      && req.closed
      && router.events == old(router.events)
           + (if h.yielded.Some? then [EmittedEvent(tag, RouteKind(path).value, h.yielded.value)] else [])
  {
    var kind := RouteKind(path);
    if kind.None? {
      exit := None;
      return;
    }
    var block := new EmitBlock(router, tag, StringKeys, RecordType(kind.value));
    var e := Common(pb, z, kind.value, req, block);
    exit := Some(e);
  }

  /** One call of the `logs:`, `metrics:` or `traces:` callback given to the gRPC server. */
  method GrpcEmit(tag: string, router: Router, kind: SignalKind, record: string)
    modifies router
    ensures router.events == old(router.events) + [EmittedEvent(tag, kind, record)]
  {
    router.Emit(Event(tag, EventRecord(StringKeys, RecordType(kind), record)));
  }

  /** Each route tags its records with its own record type. */
  lemma RoutesTagByKind(tag: string, record: string)
    ensures EmittedEvent(tag, RouteKind("/v1/logs").value, record).record == EventRecord(StringKeys, RecordTypeLogs, record)
    ensures EmittedEvent(tag, RouteKind("/v1/metrics").value, record).record == EventRecord(StringKeys, RecordTypeMetrics, record)
    ensures EmittedEvent(tag, RouteKind("/v1/traces").value, record).record == EventRecord(StringKeys, RecordTypeTraces, record)
  {
  }
}
