/**
 * The libraries the plugin calls but does not implement, as uninterpreted
 * functions: the classes generated by google-protobuf for the OTLP collector
 * services (ExportLogsServiceRequest and its siblings) and Zlib's gzip reader
 * and writer. A value of `Protobuf` or `Zlib` is one particular behaviour of
 * those libraries; nothing below assumes more about them than the predicates
 * at the end of this module, and the lemmas that need them say so in their
 * `requires`.
 */
module Codec {
  import opened Support
  import opened Constant

  /** A decoded Export{Logs,Metrics,Trace}ServiceRequest. */
  type Message(==)

  /** Google::Protobuf::ParseError and its message text. */
  datatype ParseError = ParseError(message: string)

  /** The partial_success field of an Export*ServiceResponse, one shape per signal. */
  datatype PartialSuccess =
    | ExportLogsPartialSuccess(rejectedLogRecords: int, errorMessage: string)
    | ExportMetricsPartialSuccess(rejectedDataPoints: int, errorMessage: string)
    | ExportTracePartialSuccess(rejectedSpans: int, errorMessage: string)
  {
    function Kind(): SignalKind {
      match this
      case ExportLogsPartialSuccess(_, _) => Logs
      case ExportMetricsPartialSuccess(_, _) => Metrics
      case ExportTracePartialSuccess(_, _) => Traces
    }

    /** The rejected count, whatever the field is called for this signal. */
    function Rejected(): int {
      match this
      case ExportLogsPartialSuccess(n, _) => n
      case ExportMetricsPartialSuccess(n, _) => n
      case ExportTracePartialSuccess(n, _) => n
    }
  }

  /** An Export*ServiceResponse. */
  datatype ExportResponse = ExportResponse(partialSuccess: PartialSuccess)

  /**
   * The generated classes. `decode` is `.decode(bytes)`, `decodeJson` is
   * `.decode_json(text, ignore_unknown_fields: flag)`; both are partial.
   */
  datatype Protobuf = Protobuf(
    decode: (SignalKind, string) -> Result<Message, ParseError>,
    decodeJson: (SignalKind, string, bool) -> Result<Message, ParseError>,
    toProto: Message -> string,
    toJson: Message -> string,
    responseToProto: ExportResponse -> string,
    responseToJson: ExportResponse -> string)

  /** The `ignore_unknown_fields` google-protobuf uses when a caller does not pass one. */
  const LibraryDefaultIgnoreUnknownFields := false

  /** Zlib::GzipReader raises Zlib::GzipFile::Error on input that is not gzip. */
  datatype GzipError = GzipError(message: string)

  datatype Zlib = Zlib(
    gzip: string -> string,
    gunzip: string -> Result<string, GzipError>)

  /**
   * The round trip the fixture tests rely on, stated for one message of one
   * kind: its protobuf encoding decodes back to it, and that encoding does not
   * start with `{` (an OTLP export request begins with the tag byte of field 1,
   * 0x0A, or is empty).
   */
  ghost predicate ProtoRoundTrip(pb: Protobuf, kind: SignalKind, m: Message) {
    && pb.decode(kind, pb.toProto(m)) == Ok(m)
    && !StartsWith(pb.toProto(m), "{")
  }

  /**
   * `json` is a canonical JSON text of a message of this kind: it decodes
   * (with unknown fields ignored) and `to_json` gives the same text back, as
   * the whitespace-trimmed fixtures of the tests do.
   */
  ghost predicate CanonicalJson(pb: Protobuf, kind: SignalKind, json: string) {
    && pb.decodeJson(kind, json, true).Ok?
    && pb.toJson(pb.decodeJson(kind, json, true).value) == json
  }

  /** Inflating what Zlib deflated gives back the original bytes. */
  ghost predicate GzipRoundTrip(z: Zlib, body: string) {
    z.gunzip(z.gzip(body)) == Ok(body)
  }
}
