/**
 * lib/fluent/plugin/opentelemetry/http_output_handler.rb: OTLP/HTTP egress.
 * `CreateHttpConnection` builds the POST for a record (endpoint, protobuf
 * body, headers, optional gzip); `Classify` maps the collector's status code
 * to the outcome `export` produces; `Export` is the two in sequence.
 */
module HttpOutputHandler {
  import opened Support
  import opened Constant
  import opened Errors
  import opened Codec
  import opened Egress
  import Request

  /** The `<http>` section of out_opentelemetry.rb. */
  datatype HttpConfig = HttpConfig(
    endpoint: string,
    proxy: Option<string>,
    errorResponseAsUnrecoverable: bool,
    retryableResponseCodes: Option<seq<int>>,
    compress: Compress,
    readTimeout: int,
    writeTimeout: int,
    connectTimeout: int)

  /** `@timeout_settings` as `initialize` builds it. */
  datatype TimeoutSettings = TimeoutSettings(readTimeout: int, writeTimeout: int, connectTimeout: int)

  /** The handler: its configuration and the settings `initialize` derives from it. */
  datatype HttpOutputHandler = HttpOutputHandler(httpConfig: HttpConfig)
  {
    function TimeoutSettingsOf(): (t: TimeoutSettings)
      ensures t.readTimeout == httpConfig.readTimeout && t.writeTimeout == httpConfig.writeTimeout
      ensures t.connectTimeout == httpConfig.connectTimeout
    {
      TimeoutSettings(httpConfig.readTimeout, httpConfig.writeTimeout, httpConfig.connectTimeout)
    }

    /** `http_logs_endpoint`. */
    function LogsEndpoint(): (uri: string)
      ensures StartsWith(uri, httpConfig.endpoint) && uri[|httpConfig.endpoint|..] == "/v1/logs"
    {
      httpConfig.endpoint + "/v1/logs"
    }

    /** `http_metrics_endpoint`. */
    function MetricsEndpoint(): (uri: string)
      ensures StartsWith(uri, httpConfig.endpoint) && uri[|httpConfig.endpoint|..] == "/v1/metrics"
    {
      httpConfig.endpoint + "/v1/metrics"
    }

    /** `http_traces_endpoint`. */
    function TracesEndpoint(): (uri: string)
      ensures StartsWith(uri, httpConfig.endpoint) && uri[|httpConfig.endpoint|..] == "/v1/traces"
    {
      httpConfig.endpoint + "/v1/traces"
    }

    /** The endpoint the `case record["type"]` picks for a kind. */
    function Endpoint(kind: SignalKind): string {
      match kind
      case Logs => LogsEndpoint()
      case Metrics => MetricsEndpoint()
      case Traces => TracesEndpoint()
    }

    /**
     * `create_http_connection(record)`: the URI and protobuf body of the
     * record's kind, then the headers and, under gzip, the compressed body.
     * A ParseError becomes UnrecoverableError with the parser's message before
     * any connection exists.
     */
    function CreateHttpConnection(pb: Protobuf, z: Zlib, record: OutRecord): (r: Result<Connection, ExportError>)
      ensures r.Ok? <==>
        && KindOfRecordType(record.recordType).Some? && record.message.Some?
        && Request.New(pb, KindOfRecordType(record.recordType).value, record.message.value).Ok?
      ensures r.Ok? ==>
        && var kind := KindOfRecordType(record.recordType).value;
           var decoded := Request.New(pb, kind, record.message.value);
           && r.value.uri == Endpoint(kind)
           && r.value.headers == (if httpConfig.compress == Gzip
                                  then map[ContentType := ContentTypeProtobuf, ContentEncoding := ContentEncodingGzip]
                                  else map[ContentType := ContentTypeProtobuf])
           && r.value.proxy == httpConfig.proxy
           && r.value.body == (if httpConfig.compress == Gzip then z.gzip(Request.Body(pb, decoded.value))
                               else Request.Body(pb, decoded.value))
           && r.value.timeouts == TimeoutSettingsOf()
      ensures KindOfRecordType(record.recordType).None? ==> r == Err(OtherError(InvalidUriMessage))
      ensures KindOfRecordType(record.recordType).Some? && record.message.None? ==> r == Err(OtherError(NilMessageMessage))
      ensures r.Err? && r.error.UnrecoverableError? <==>
        && KindOfRecordType(record.recordType).Some? && record.message.Some?
        && Request.New(pb, KindOfRecordType(record.recordType).value, record.message.value).Err?
      ensures r.Err? && r.error.UnrecoverableError? ==>
        r.error.message == Request.New(pb, KindOfRecordType(record.recordType).value, record.message.value).error.message
    {
      match KindOfRecordType(record.recordType)
      case None => Err(OtherError(InvalidUriMessage))
      case Some(kind) =>
        match record.message
        case None => Err(OtherError(NilMessageMessage))
        case Some(msg) =>
          match Request.New(pb, kind, msg)
          case Err(e) => Err(UnrecoverableError(e.message))
          case Ok(req) =>
            var body := Request.Body(pb, req);
            var headers := map[ContentType := ContentTypeProtobuf];
            if httpConfig.compress == Gzip then
              Ok(Connection(Endpoint(kind), z.gzip(body), headers[ContentEncoding := ContentEncodingGzip],
                            httpConfig.proxy, TimeoutSettingsOf()))
            else
              Ok(Connection(Endpoint(kind), body, headers, httpConfig.proxy, TimeoutSettingsOf()))
    }

    /** The status is in `retryable_response_codes`; a nil list makes nothing retryable. */
    predicate Retryable(status: int) {
      httpConfig.retryableResponseCodes.Some? && status in httpConfig.retryableResponseCodes.value
    }

    /** The branch cascade of `export` on `response.status`. */
    function Classify(uri: string, status: int): (r: StatusOutcome)
      ensures r == Delivered <==> status == 200
      ensures status == 400 ==> r == Raise(UnrecoverableError(ResponseMessage("got unrecoverable", uri, status)))
      ensures status != 200 && status != 400 && Retryable(status) ==>
        r == Raise(RetryableResponse(ResponseMessage("got retryable", uri, status)))
      ensures status != 200 && status != 400 && !Retryable(status) && httpConfig.errorResponseAsUnrecoverable ==>
        r == Raise(UnrecoverableError(ResponseMessage("got unrecoverable", uri, status)))
      ensures status != 200 && status != 400 && !Retryable(status) && !httpConfig.errorResponseAsUnrecoverable ==>
        r == Logged(ResponseMessage("got", uri, status))
    {
      if status != 200 then
        if status == 400 then Raise(UnrecoverableError(ResponseMessage("got unrecoverable", uri, status)))
        else if Retryable(status) then Raise(RetryableResponse(ResponseMessage("got retryable", uri, status)))
        else if httpConfig.errorResponseAsUnrecoverable then
          Raise(UnrecoverableError(ResponseMessage("got unrecoverable", uri, status)))
        else Logged(ResponseMessage("got", uri, status))
      else Delivered
    }

    /**
     * `export(record)`: build the POST, send it, classify the reply `status`
     * the collector gives. When the POST cannot be built nothing is sent.
     */
    function Export(pb: Protobuf, z: Zlib, record: OutRecord, status: int): (r: ExportResult)
      ensures r.posted.None? <==> CreateHttpConnection(pb, z, record).Err?
      ensures r.posted.None? ==> r.logged == [] && r.raised == Some(CreateHttpConnection(pb, z, record).error)
      ensures r.posted.Some? ==>
        && r.posted.value == CreateHttpConnection(pb, z, record).value
        && var outcome := Classify(r.posted.value.uri, status);
           && (r.raised.None? <==> !outcome.Raise?)
           && (outcome.Raise? ==> r.raised == Some(outcome.error))
           && r.logged == (if outcome.Logged? then [outcome.line] else [])
    {
      match CreateHttpConnection(pb, z, record)
      case Err(e) => ExportResult(None, [], Some(e))
      case Ok(connection) =>
        match Classify(connection.uri, status)
        case Delivered => ExportResult(Some(connection), [], None)
        case Logged(line) => ExportResult(Some(connection), [line], None)
        case Raise(e) => ExportResult(Some(connection), [], Some(e))
    }

    /**
     * What the collector receives is the record's message: undoing the gzip
     * the Content-Encoding header announces and decoding the protobuf body
     * gives the message back, when the libraries' round trips hold for it.
     */
    lemma CollectorDecodesPayload(pb: Protobuf, z: Zlib, record: OutRecord)
      requires KindOfRecordType(record.recordType).Some? && record.message.Some?
      requires Request.New(pb, KindOfRecordType(record.recordType).value, record.message.value).Ok?
      requires
        var kind := KindOfRecordType(record.recordType).value;
        var m := Request.New(pb, kind, record.message.value).value.message;
        && ProtoRoundTrip(pb, kind, m)
        && (httpConfig.compress == Gzip ==> GzipRoundTrip(z, pb.toProto(m)))
      ensures
        var kind := KindOfRecordType(record.recordType).value;
        var c := CreateHttpConnection(pb, z, record).value;
        var payload := if ContentEncoding in c.headers then z.gunzip(c.body) else Ok(c.body);
        && payload.Ok?
        && pb.decode(kind, payload.value) == Ok(Request.New(pb, kind, record.message.value).value.message)
    {
    }

    /** 400 is never retried, whatever the retryable list and the unrecoverable flag say. */
    lemma BadRequestNeverRetried(uri: string)
      ensures Classify(uri, 400).Raise? && Classify(uri, 400).error.UnrecoverableError?
    {
    }

    /** The outcome raises exactly for the statuses other than 200 that are not merely logged. */
    lemma RaisesUnlessDeliveredOrLogged(uri: string, status: int)
      ensures Classify(uri, status).Raise? <==>
        status != 200 && (status == 400 || Retryable(status) || httpConfig.errorResponseAsUnrecoverable)
    {
    }

    /** Every raised or logged message names the full endpoint URI and the status code. */
    lemma MessageNamesUriAndStatus(uri: string, status: int)
      requires Classify(uri, status) != Delivered
      ensures Contains(Classify(uri, status).Text(), "'" + uri + "'")
      ensures Contains(Classify(uri, status).Text(), IntToString(status))
      ensures ParseInt(Suffix(Classify(uri, status).Text(), |IntToString(status)|)) == status
    {
      var verb := if status == 400 then "got unrecoverable"
                  else if Retryable(status) then "got retryable"
                  else if httpConfig.errorResponseAsUnrecoverable then "got unrecoverable"
                  else "got";
      assert Classify(uri, status).Text() == ResponseMessage(verb, uri, status);
      ResponseMessageParts(verb, uri, status);
    }
  }

  /** `Excon.new(nil, ...)` when no `case` branch matched the record type. */
  const InvalidUriMessage := "no endpoint for record type"
  /** `nil.start_with?` when the record has no message. */
  const NilMessageMessage := "undefined method 'start_with?' for nil"

  /** The request `Excon.new(uri, body:, headers:, proxy:, persistent: true, ...)` sends. */
  datatype Connection = Connection(uri: string, body: string, headers: map<string, string>,
                                   proxy: Option<string>, timeouts: TimeoutSettings)

  /** `"#{verb} error response from '#{uri}', response code is #{status}"`. */
  function ResponseMessage(verb: string, uri: string, status: int): string {
    verb + " error response from '" + uri + "', response code is " + IntToString(status)
  }

  /** The last `n` characters of `s` (all of it when it is shorter). */
  function Suffix(s: string, n: nat): (t: string)
    ensures |t| == if n <= |s| then n else |s|
  {
    if n <= |s| then s[|s| - n..] else s
  }

  /** A response message contains the quoted URI, and ends with the status code, which reads back. */
  lemma ResponseMessageParts(verb: string, uri: string, status: int)
    ensures Contains(ResponseMessage(verb, uri, status), "'" + uri + "'")
    ensures Contains(ResponseMessage(verb, uri, status), IntToString(status))
    ensures ParseInt(Suffix(ResponseMessage(verb, uri, status), |IntToString(status)|)) == status
  {
    var text := ResponseMessage(verb, uri, status);
    var code := IntToString(status);
    var head := verb + " error response from ";
    var tail := ", response code is " + code;
    assert text == head + ("'" + uri + "'") + tail;
    ContainsInfix(head, "'" + uri + "'", tail);
    var front := verb + " error response from '" + uri + "', response code is ";
    assert text == front + code + "";
    ContainsInfix(front, code, "");
    assert Suffix(text, |code|) == code;
    IntToStringRoundTrip(status);
  }

  /** How `export` ends after the POST: normally, after one log line, or by raising. */
  datatype StatusOutcome = Delivered | Logged(line: string) | Raise(error: ExportError)
  {
    function Text(): string {
      match this
      case Delivered => ""
      case Logged(line) => line
      case Raise(e) => e.message
    }
  }

  /** One `export`: the POST sent (if any), the error lines logged, the exception raised. */
  datatype ExportResult = ExportResult(posted: Option<Connection>, logged: seq<string>, raised: Option<ExportError>)
}
