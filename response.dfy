/**
 * lib/fluent/plugin/otlp/response.rb: the partial-success acknowledgement of
 * the OTLP/HTTP and OTLP/gRPC export calls, and the content-type to encoding
 * map. Fluent::Plugin::Opentelemetry::Response, used by the current ingress
 * handler, has the same interface.
 */
module Response {
  import opened Support
  import opened Constant
  import opened Codec

  /** The symbols `:protobuf` and `:json` that `body(type:)` is given. */
  datatype BodyType = ProtobufBody | JsonBody

  /** The RuntimeError of `raise "unknown content-type: ..."`. */
  datatype RuntimeError = RuntimeError(message: string)

  /** `Response.type(content_type)`; nil interpolates as the empty string. */
  function Type(contentType: Option<string>): (r: Result<BodyType, RuntimeError>)
    ensures r == Ok(ProtobufBody) <==> contentType == Some(ContentTypeProtobuf)
    ensures r == Ok(JsonBody) <==> contentType == Some(ContentTypeJson)
    ensures r.Err? <==> contentType != Some(ContentTypeProtobuf) && contentType != Some(ContentTypeJson)
    ensures r.Err? ==> StartsWith(r.error.message, "unknown content-type: ")
  {
    if contentType == Some(ContentTypeProtobuf) then Ok(ProtobufBody)
    else if contentType == Some(ContentTypeJson) then Ok(JsonBody)
    else
      var shown := match contentType case Some(s) => s case None => "";
      Err(RuntimeError("unknown content-type: " + shown))
  }

  /**
   * `Response::<Kind>.build(rejected: 0, error: "")`: the count goes into
   * rejected_log_records, rejected_data_points or rejected_spans.
   */
  function Build(kind: SignalKind, rejected: int := 0, error: string := ""): (r: ExportResponse)
    ensures r.partialSuccess.Kind() == kind
    ensures r.partialSuccess.Rejected() == rejected
    ensures r.partialSuccess.errorMessage == error
  {
    match kind
    case Logs => ExportResponse(ExportLogsPartialSuccess(rejectedLogRecords := rejected, errorMessage := error))
    case Metrics => ExportResponse(ExportMetricsPartialSuccess(rejectedDataPoints := rejected, errorMessage := error))
    case Traces => ExportResponse(ExportTracePartialSuccess(rejectedSpans := rejected, errorMessage := error))
  }

  /** An instance of `Response::<Kind>`: its write-once `@response`. */
  datatype Response = Response(response: ExportResponse)

  /** `Response::<Kind>.new(rejected:, error:)`. */
  function New(kind: SignalKind, rejected: int := 0, error: string := ""): (r: Response)
    ensures r.response.partialSuccess.Kind() == kind
    ensures r.response.partialSuccess.Rejected() == rejected
    ensures r.response.partialSuccess.errorMessage == error
  {
    Response(Build(kind, rejected, error))
  }

  /** `#body(type:)`: protobuf for `:protobuf`, JSON otherwise. */
  function Body(pb: Protobuf, r: Response, t: BodyType): string {
    if t == ProtobufBody then pb.responseToProto(r.response) else pb.responseToJson(r.response)
  }

  /** The default acknowledgement is full success, for every signal. */
  lemma DefaultIsFullSuccess(kind: SignalKind)
    ensures New(kind).response == Build(kind)
    ensures Build(kind).partialSuccess.Rejected() == 0 && Build(kind).partialSuccess.errorMessage == ""
  {
  }

  /** The built message is determined by, and determines, its three inputs. */
  lemma BuildInjective(k1: SignalKind, n1: int, e1: string, k2: SignalKind, n2: int, e2: string)
    ensures Build(k1, n1, e1) == Build(k2, n2, e2) <==> k1 == k2 && n1 == n2 && e1 == e2
  {
  }
}
