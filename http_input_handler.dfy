/**
 * lib/fluent/plugin/opentelemetry/http_input_handler.rb: the OTLP/HTTP
 * ingress endpoint. `Handle` is the decision the handler takes for one
 * request (what it yields to the block, and how it exits); `Common` is the
 * handler itself, which does it step by step, fires the block and closes the
 * request on every exit path.
 */
module HttpInputHandler {
  import opened Support
  import opened Constant
  import opened Codec
  import Request
  import Response
  import opened Pipeline

  /** The triple `[code, { "Content-Type" => content_type }, body]`. */
  datatype HttpResponse = HttpResponse(code: int, headers: map<string, string>, body: string)

  /**
   * The request object of the host's HTTP server. `headers["content-type"]`
   * is a single value or nil; `headers["content-encoding"]` is the list of
   * values of that header, or nil when it is absent.
   */
  class HttpRequest {
    const contentType: Option<string>
    const contentEncoding: Option<seq<string>>
    const body: string
    var closed: bool

    constructor(contentType: Option<string>, contentEncoding: Option<seq<string>>, body: string)
      ensures this.contentType == contentType && this.contentEncoding == contentEncoding
      ensures this.body == body && !closed
    {
      this.contentType := contentType;
      this.contentEncoding := contentEncoding;
      this.body := body;
      closed := false;
    }

    /** `req.close`: releases the request body. */
    method Close()
      modifies this
      ensures closed
    {
      closed := true;
    }
  }

  /** `valid_content_type?`: exactly the two OTLP media types. */
  predicate ValidContentType(contentType: Option<string>) {
    contentType == Some(ContentTypeProtobuf) || contentType == Some(ContentTypeJson)
  }

  /** `valid_content_encoding?`: absent, or exactly `gzip`. */
  predicate ValidContentEncoding(contentEncoding: Option<string>) {
    contentEncoding.None? || contentEncoding == Some(ContentEncodingGzip)
  }

  /** `headers["content-encoding"]&.first`. */
  function FirstValue(values: Option<seq<string>>): (r: Option<string>)
    ensures r.Some? <==> values.Some? && |values.value| > 0
    ensures r.Some? ==> r.value == values.value[0]
  {
    match values
    case None => None
    case Some(vs) => if |vs| == 0 then None else Some(vs[0])
  }

  /** `response(code, content_type, body)`. */
  function Respond(code: int, contentType: string, body: string): (r: HttpResponse)
    ensures r.code == code && r.body == body
    ensures r.headers == map[ContentType := contentType]
  {
    HttpResponse(code, map[ContentType := contentType], body)
  }

  const UnsupportedMediaTypeMessage := "415 unsupported media type, supported: [application/json, application/x-protobuf]"

  /** `response_unsupported_media_type`. */
  function UnsupportedMediaType(): (r: HttpResponse)
    ensures r.code == 415 && r.headers == map[ContentType := ContentTypePlain]
    ensures r.body == UnsupportedMediaTypeMessage
  {
    Respond(415, ContentTypePlain, UnsupportedMediaTypeMessage)
  }

  /** `response_bad_request(content_type)`: the request's type is echoed, the body is empty. */
  function BadRequest(contentType: string): (r: HttpResponse)
    ensures r.code == 400 && r.headers == map[ContentType := contentType] && r.body == ""
  {
    Respond(400, contentType, "")
  }

  /** How `common` ends: it returns a response, or an exception escapes it. */
  datatype Exit = Responded(response: HttpResponse) | Raised(error: GzipError)

  /** What `common` does with one request: the record it yields, if any, and its exit. */
  datatype Handling = Handling(yielded: Option<string>, exit: Exit)

  predicate IsSuccess(e: Exit) {
    e.Responded? && e.response.code == 200
  }

  /** The 200 response of a successful call: the default acknowledgement in the request's encoding. */
  function Acknowledge(pb: Protobuf, kind: SignalKind, contentType: Option<string>): (r: HttpResponse)
    requires ValidContentType(contentType)
    ensures r.code == 200 && r.headers == map[ContentType := contentType.value]
    ensures contentType == Some(ContentTypeProtobuf) ==> r.body == pb.responseToProto(Response.Build(kind))
    ensures contentType == Some(ContentTypeJson) ==> r.body == pb.responseToJson(Response.Build(kind))
  {
    Respond(200, contentType.value, Response.Body(pb, Response.New(kind), Response.Type(contentType).value))
  }

  /**
   * The decision `common` takes for a request with these headers and this
   * body, decoding through `Request.New` with the given `ignore_unknown_fields`.
   */
  function Handle(pb: Protobuf, z: Zlib, kind: SignalKind, contentType: Option<string>,
                  contentEncoding: Option<seq<string>>, body: string, ignoreUnknownFields: bool)
    : (h: Handling)
    ensures h.yielded.Some? <==> IsSuccess(h.exit)
    ensures h.exit.Responded? ==> h.exit.response.code in {200, 400, 415}
    ensures (h.exit.Responded? && h.exit.response.code == 415) <==> !ValidContentType(contentType)
    ensures h.exit.Raised? ==> FirstValue(contentEncoding) == Some(ContentEncodingGzip) && z.gunzip(body).Err?
  {
    var encoding := FirstValue(contentEncoding);
    if !ValidContentType(contentType) then
      Handling(None, Responded(UnsupportedMediaType()))
    else if !ValidContentEncoding(encoding) then
      Handling(None, Responded(BadRequest(contentType.value)))
    else
      var inflated := if encoding == Some(ContentEncodingGzip) then z.gunzip(body) else Ok(body);
      match inflated
      case Err(e) => Handling(None, Raised(e))
      case Ok(plain) =>
        match Request.New(pb, kind, plain, ignoreUnknownFields)
        case Err(_) => Handling(None, Responded(BadRequest(contentType.value)))
        case Ok(req) => Handling(Some(Request.Record(pb, req)), Responded(Acknowledge(pb, kind, contentType)))
  }

  /**
   * The shared handler of the `logs`, `metrics` and `traces` endpoints: it
   * validates the headers, inflates and decodes the body, hands the record
   * to the emit block, answers, and closes the request on every path.
   */
  method Common(pb: Protobuf, z: Zlib, kind: SignalKind, req: HttpRequest, block: EmitBlock)
    returns (exit: Exit)
    modifies req, block.router
    ensures req.closed
    ensures exit == Handle(pb, z, kind, req.contentType, req.contentEncoding, req.body, true).exit
    ensures block.router.events
         == old(block.router.events)
          + block.EventsFor(Handle(pb, z, kind, req.contentType, req.contentEncoding, req.body, true).yielded)
  {
    var contentType := req.contentType;
    var contentEncoding := FirstValue(req.contentEncoding);
    var body := req.body;
    if !ValidContentType(contentType) {
      exit := Responded(UnsupportedMediaType());
    } else if !ValidContentEncoding(contentEncoding) {
      exit := Responded(BadRequest(contentType.value));
    } else {
      var inflated := Ok(body);
      if contentEncoding == Some(ContentEncodingGzip) {
        inflated := z.gunzip(body);
      }
      if inflated.Err? {
        exit := Raised(inflated.error);
      } else {
        body := inflated.value;
        var decoded := Request.New(pb, kind, body);
        if decoded.Err? {
          exit := Responded(BadRequest(contentType.value));
        } else {
          var record := Request.Record(pb, decoded.value);
          block.Call(record);
          var res := Response.New(kind);
          exit := Responded(Respond(200, contentType.value, Response.Body(pb, res, Response.Type(contentType).value)));
        }
      }
    }
    req.Close();
  }

  // Properties of the decision, for every request.

  /** A bad content type gives 415, whatever the encoding and body, and nothing is yielded. */
  lemma UnsupportedTypeFirst(pb: Protobuf, z: Zlib, kind: SignalKind, contentType: Option<string>,
                             contentEncoding: Option<seq<string>>, body: string, flag: bool)
    requires !ValidContentType(contentType)
    ensures Handle(pb, z, kind, contentType, contentEncoding, body, flag)
         == Handling(None, Responded(HttpResponse(415, map[ContentType := ContentTypePlain], UnsupportedMediaTypeMessage)))
  {
  }

  /** With a valid type, a present first encoding other than gzip gives 400 echoing the type. */
  lemma BadEncodingRejected(pb: Protobuf, z: Zlib, kind: SignalKind, contentType: Option<string>,
                            contentEncoding: Option<seq<string>>, body: string, flag: bool)
    requires ValidContentType(contentType)
    requires FirstValue(contentEncoding).Some? && FirstValue(contentEncoding) != Some(ContentEncodingGzip)
    ensures Handle(pb, z, kind, contentType, contentEncoding, body, flag)
         == Handling(None, Responded(HttpResponse(400, map[ContentType := contentType.value], "")))
  {
  }

  /** Only the first content-encoding value is looked at. */
  lemma OnlyFirstEncodingCounts(pb: Protobuf, z: Zlib, kind: SignalKind, contentType: Option<string>,
                                e: string, rest1: seq<string>, rest2: seq<string>, body: string, flag: bool)
    ensures Handle(pb, z, kind, contentType, Some([e] + rest1), body, flag)
         == Handle(pb, z, kind, contentType, Some([e] + rest2), body, flag)
  {
  }

  /** An absent encoding (no header, or an empty list) is accepted and the body decoded as it is. */
  lemma AbsentEncodingAccepted(pb: Protobuf, z: Zlib, kind: SignalKind, contentType: Option<string>,
                               body: string, flag: bool)
    requires ValidContentType(contentType)
    ensures Handle(pb, z, kind, contentType, None, body, flag) == Handle(pb, z, kind, contentType, Some([]), body, flag)
    ensures Handle(pb, z, kind, contentType, None, body, flag).yielded
         == (match Request.New(pb, kind, body, flag)
             case Ok(r) => Some(Request.Record(pb, r))
             case Err(_) => None)
  {
  }

  /** A gzip body is handled exactly as the body it inflates to, sent without an encoding. */
  lemma GzipTransparent(pb: Protobuf, z: Zlib, kind: SignalKind, contentType: Option<string>,
                        rest: seq<string>, plain: string, flag: bool)
    requires GzipRoundTrip(z, plain)
    ensures Handle(pb, z, kind, contentType, Some([ContentEncodingGzip] + rest), z.gzip(plain), flag)
         == Handle(pb, z, kind, contentType, None, plain, flag)
  {
  }

  /** A corrupt gzip body is not a 400: the inflater's exception escapes and nothing is yielded. */
  lemma CorruptGzipRaises(pb: Protobuf, z: Zlib, kind: SignalKind, contentType: Option<string>,
                          contentEncoding: Option<seq<string>>, body: string, flag: bool)
    requires ValidContentType(contentType)
    requires FirstValue(contentEncoding) == Some(ContentEncodingGzip) && z.gunzip(body).Err?
    ensures Handle(pb, z, kind, contentType, contentEncoding, body, flag) == Handling(None, Raised(z.gunzip(body).error))
  {
  }

  /** A body the decoder rejects gives 400 with the request's type, and nothing is yielded. */
  lemma ParseErrorIsBadRequest(pb: Protobuf, z: Zlib, kind: SignalKind, contentType: Option<string>,
                               body: string, flag: bool)
    requires ValidContentType(contentType)
    requires Request.New(pb, kind, body, flag).Err?
    ensures Handle(pb, z, kind, contentType, None, body, flag)
         == Handling(None, Responded(HttpResponse(400, map[ContentType := contentType.value], "")))
  {
  }

  /**
   * A body that decodes yields its record once; the answer is 200, echoes the
   * type and carries the default acknowledgement in the request's encoding.
   */
  lemma SuccessYieldsRecord(pb: Protobuf, z: Zlib, kind: SignalKind, contentType: Option<string>,
                            body: string, flag: bool)
    requires ValidContentType(contentType)
    requires Request.New(pb, kind, body, flag).Ok?
    ensures var h := Handle(pb, z, kind, contentType, None, body, flag);
      && h.yielded == Some(Request.Record(pb, Request.New(pb, kind, body, flag).value))
      && h.exit.Responded? && h.exit.response.code == 200
      && h.exit.response.headers == map[ContentType := contentType.value]
      && h.exit.response.body
         == (if contentType == Some(ContentTypeProtobuf) then pb.responseToProto(Response.Build(kind))
             else pb.responseToJson(Response.Build(kind)))
  {
  }

  /** Once the type is validated, `Response.type` cannot raise. */
  lemma ValidTypeHasBodyType(contentType: Option<string>)
    requires ValidContentType(contentType)
    ensures Response.Type(contentType).Ok?
  {
  }
}
