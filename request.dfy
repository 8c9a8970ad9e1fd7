/**
 * lib/fluent/plugin/opentelemetry/request.rb: Request::Logs, ::Metrics and
 * ::Traces. The three classes differ only in the generated message class they
 * decode into, so one definition parameterised by the signal kind stands for
 * all three. The constructor decodes once (`@request` is written once); a
 * failed decode raises out of the constructor, so no request exists.
 */
module Request {
  import opened Support
  import opened Constant
  import opened Codec

  /** A body is taken for JSON exactly when its first character is `{`. */
  predicate IsJsonText(body: string) {
    StartsWith(body, "{")
  }

  /** The object built by `Request::<Kind>.new(body)`: its decoded `@request`. */
  datatype Request = Request(kind: SignalKind, message: Message)

  /**
   * `Request::<Kind>.new(body, ignore_unknown_fields:)`. A leading `{` selects
   * `decode_json` with the flag, anything else (the empty body included)
   * selects binary `decode`, which never sees the flag.
   */
  function New(pb: Protobuf, kind: SignalKind, body: string, ignoreUnknownFields: bool := true)
    : (r: Result<Request, ParseError>)
    ensures r.Ok? ==> r.value.kind == kind
    ensures IsJsonText(body) ==>
      match pb.decodeJson(kind, body, ignoreUnknownFields)
      case Ok(m) => r == Ok(Request(kind, m))
      case Err(e) => r == Err(e)
    ensures !IsJsonText(body) ==>
      match pb.decode(kind, body)
      case Ok(m) => r == Ok(Request(kind, m))
      case Err(e) => r == Err(e)
  {
    var decoded :=
      if StartsWith(body, "{") then pb.decodeJson(kind, body, ignoreUnknownFields)
      else pb.decode(kind, body);
    match decoded
    case Ok(m) => Ok(Request(kind, m))
    case Err(e) => Err(e)
  }

  /** `#body`: the protobuf encoding of the decoded message. */
  function Body(pb: Protobuf, r: Request): string {
    pb.toProto(r.message)
  }

  /** `#record`: the JSON encoding of the same decoded message. */
  function Record(pb: Protobuf, r: Request): string {
    pb.toJson(r.message)
  }

  /** The flag reaches only the JSON decoder: for a binary body it changes nothing. */
  lemma IgnoreUnknownFieldsOnlyForJson(pb: Protobuf, kind: SignalKind, body: string, a: bool, b: bool)
    requires !IsJsonText(body)
    ensures New(pb, kind, body, a) == New(pb, kind, body, b)
  {
  }

  /** The empty body goes to the binary decoder. */
  lemma EmptyBodyIsBinary(pb: Protobuf, kind: SignalKind, flag: bool)
    ensures New(pb, kind, "", flag).Ok? <==> pb.decode(kind, "").Ok?
  {
  }

  /**
   * `body` and `record` are two encodings of one message: re-decoding the
   * protobuf `body` gives a request whose `record` is the original `record`,
   * provided the message survives the protobuf round trip.
   */
  lemma BodyThenRecord(pb: Protobuf, kind: SignalKind, text: string, flag: bool)
    requires New(pb, kind, text, flag).Ok?
    requires ProtoRoundTrip(pb, kind, New(pb, kind, text, flag).value.message)
    ensures
      var first := New(pb, kind, text, flag).value;
      && New(pb, kind, Body(pb, first)).Ok?
      && New(pb, kind, Body(pb, first)).value == first
      && Record(pb, New(pb, kind, Body(pb, first)).value) == Record(pb, first)
  {
  }

  /**
   * The round trip the test helper relies on: for a canonical JSON fixture,
   * `Request.new(Request.new(json).body).record == json`.
   */
  lemma FixtureRoundTrip(pb: Protobuf, kind: SignalKind, json: string)
    requires IsJsonText(json)
    requires CanonicalJson(pb, kind, json)
    requires ProtoRoundTrip(pb, kind, pb.decodeJson(kind, json, true).value)
    ensures New(pb, kind, json).Ok?
    ensures New(pb, kind, Body(pb, New(pb, kind, json).value)).Ok?
    ensures Record(pb, New(pb, kind, Body(pb, New(pb, kind, json).value)).value) == json
  {
    BodyThenRecord(pb, kind, json, true);
  }
}

/**
 * lib/fluent/plugin/otlp/request.rb: the older Otlp::Request classes. Same
 * shape as Request, but `decode_json` is called without `ignore_unknown_fields`,
 * so the library default (unknown fields are an error) applies. `body` and
 * `record` are the same accessors as Request.Body and Request.Record.
 */
module OtlpRequest {
  import opened Support
  import opened Constant
  import opened Codec
  import Request

  /** `Otlp::Request::<Kind>.new(body)`. */
  function New(pb: Protobuf, kind: SignalKind, body: string): (r: Result<Request.Request, ParseError>)
    ensures r.Ok? ==> r.value.kind == kind
    ensures Request.IsJsonText(body) ==>
      match pb.decodeJson(kind, body, false)
      case Ok(m) => r == Ok(Request.Request(kind, m))
      case Err(e) => r == Err(e)
    ensures !Request.IsJsonText(body) ==>
      match pb.decode(kind, body)
      case Ok(m) => r == Ok(Request.Request(kind, m))
      case Err(e) => r == Err(e)
  {
    var decoded :=
      if StartsWith(body, "{") then pb.decodeJson(kind, body, LibraryDefaultIgnoreUnknownFields)
      else pb.decode(kind, body);
    match decoded
    case Ok(m) => Ok(Request.Request(kind, m))
    case Err(e) => Err(e)
  }

  /** The legacy request is the current one with strict JSON decoding. */
  lemma SameAsStrictRequest(pb: Protobuf, kind: SignalKind, body: string)
    ensures New(pb, kind, body) == Request.New(pb, kind, body, LibraryDefaultIgnoreUnknownFields)
  {
  }

  /** The two versions differ only on JSON bodies. */
  lemma AgreesOnBinary(pb: Protobuf, kind: SignalKind, body: string)
    requires !Request.IsJsonText(body)
    ensures New(pb, kind, body) == Request.New(pb, kind, body)
  {
  }
}
