/**
 * The constants of lib/fluent/plugin/opentelemetry/constant.rb (the legacy
 * Fluent::Plugin::Otlp namespace uses the same values), the three signal kinds
 * and the record-type tags that name them in pipeline records.
 */
module Constant {
  import opened Support

  const ContentType := "Content-Type"
  /** Spelled CONTENT_TYPE_PAIN in the source. */
  const ContentTypePlain := "text/plain"
  const ContentTypeProtobuf := "application/x-protobuf"
  const ContentTypeJson := "application/json"

  const ContentEncoding := "Content-Encoding"
  const ContentEncodingGzip := "gzip"

  const RecordTypeLogs := "opentelemetry_logs"
  const RecordTypeMetrics := "opentelemetry_metrics"
  const RecordTypeTraces := "opentelemetry_traces"

  /** Which of the three generated message families (logs, metrics, trace) applies. */
  datatype SignalKind = Logs | Metrics | Traces

  /** The `type` tag a record of this kind carries in the pipeline. */
  function RecordType(kind: SignalKind): string {
    match kind
    case Logs => RecordTypeLogs
    case Metrics => RecordTypeMetrics
    case Traces => RecordTypeTraces
  }

  /**
   * The `case record["type"]` of both egress handlers: which kind a tag
   * selects, if any. A missing tag (nil) selects nothing.
   */
  function KindOfRecordType(recordType: Option<string>): (r: Option<SignalKind>)
    ensures r.Some? ==> recordType == Some(RecordType(r.value))
    ensures (exists k :: recordType == Some(RecordType(k))) ==> r.Some?
  {
    if recordType == Some(RecordTypeLogs) then Some(Logs)
    else if recordType == Some(RecordTypeMetrics) then Some(Metrics)
    else if recordType == Some(RecordTypeTraces) then Some(Traces)
    else None
  }

  /** Tagging a record and looking the tag up again gives back its kind. */
  lemma RecordTypeRoundTrip(kind: SignalKind)
    ensures KindOfRecordType(Some(RecordType(kind))) == Some(kind)
  {
  }
}

/** The exceptions of the plugin host that the core raises. */
module Errors {

  /** Fluent::ConfigError. */
  datatype ConfigError = ConfigError(message: string)

  /**
   * What an egress export can raise: Fluent::UnrecoverableError,
   * OpentelemetryOutput::RetryableResponse, an error of the gRPC library passed
   * through unchanged, or any other Ruby exception (NoMethodError on nil, ...).
   */
  datatype ExportError =
    | UnrecoverableError(message: string)
    | RetryableResponse(message: string)
    | RpcError(message: string)
    | OtherError(message: string)
}
