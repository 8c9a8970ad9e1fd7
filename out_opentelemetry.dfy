/**
 * lib/fluent/plugin/out_opentelemetry.rb: the `opentelemetry` output plugin.
 * `configure` checks the sections and builds exactly one handler; `write`
 * exports the records of a chunk one by one, in order, through the gRPC
 * handler when there is one and the HTTP handler otherwise. An exception
 * from one export ends the chunk: the records after it are not attempted,
 * and the buffer decides on a retry from the exception.
 */
module OutOpentelemetry {
  import opened Support
  import opened Constant
  import opened Errors
  import opened Codec
  import opened Egress
  import opened HttpOutputHandler
  import opened GrpcOutputHandler
  import Request

  const GrpcGemMessage := "To use gRPC feature, please install grpc gem such as 'fluent-gem install grpc'."
  const SectionMessage := "Please configure either <http> or <grpc> section."
  /** `@http_handler.export` when `configure` built no handler at all. */
  const NoHandlerMessage := "undefined method 'export' for nil"

  /**
   * The `<http>` section with every parameter left at its default; the proxy
   * defaults to HTTP_PROXY, else http_proxy, of the environment.
   */
  function DefaultHttpConfig(httpProxyEnv: Option<string>, httpProxyLowerEnv: Option<string>): (c: HttpConfig)
    ensures c.endpoint == "http://127.0.0.1:4318"
    ensures c.proxy == (if httpProxyEnv.Some? then httpProxyEnv else httpProxyLowerEnv)
    ensures c.errorResponseAsUnrecoverable
    ensures c.retryableResponseCodes == Some([429, 502, 503, 504])
    ensures c.compress == Text
    ensures c.readTimeout == 60 && c.writeTimeout == 60 && c.connectTimeout == 60
  {
    HttpConfig("http://127.0.0.1:4318", if httpProxyEnv.Some? then httpProxyEnv else httpProxyLowerEnv,
               true, Some([429, 502, 503, 504]), Text, 60, 60, 60)
  }

  /** The `<grpc>` section with every parameter left at its default. */
  function DefaultGrpcConfig(): (c: GrpcConfig)
    ensures c.endpoint == "127.0.0.1:4317" && c.compress == Text
    ensures c.timeout == 60 && c.keepaliveTime == 30 && c.keepaliveTimeout == 10
  {
    GrpcConfig("127.0.0.1:4317", Text, 60, 30, 10)
  }

  /**
   * The checks of `configure`: a `<grpc>` section needs the grpc gem (checked
   * first), then exactly one of `<http>` and `<grpc>` must be present.
   */
  function ConfigureCheck(httpSection: bool, grpcSection: bool, grpcDefined: bool): (r: Option<ConfigError>)
    ensures r.None? <==> (httpSection != grpcSection) && (grpcSection ==> grpcDefined)
    ensures grpcSection && !grpcDefined ==> r == Some(ConfigError(GrpcGemMessage))
    ensures httpSection == grpcSection && !(grpcSection && !grpcDefined) ==> r == Some(ConfigError(SectionMessage))
  {
    if grpcSection && !grpcDefined then Some(ConfigError(GrpcGemMessage))
    else if httpSection == grpcSection then Some(ConfigError(SectionMessage))
    else None
  }

  /** What the collector answers to the `k`-th export of a chunk, over HTTP and over gRPC. */
  datatype Reply = Reply(status: int, rpc: RpcReply)

  /** One `export` call of `write`, through the handler that made it. */
  datatype Attempt = HttpAttempt(http: ExportResult) | GrpcAttempt(grpc: GrpcExport) | NoHandler
  {
    /** The exception the call raised, if any. */
    function Raised(): Option<ExportError> {
      match this
      case HttpAttempt(h) => h.raised
      case GrpcAttempt(g) => g.raised
      case NoHandler => Some(OtherError(NoHandlerMessage))
    }
  }

  /** The calls `write` made, in order, and the exception that ended it. */
  datatype WriteResult = WriteResult(attempts: seq<Attempt>, raised: Option<ExportError>)

  /** The export of one record: the gRPC handler when configured, else the HTTP handler. */
  function ExportOne(pb: Protobuf, z: Zlib, grpc: GrpcOutputHandler?, http: Option<HttpOutputHandler>,
                     record: OutRecord, reply: Reply): (a: Attempt)
    ensures grpc != null ==> a == GrpcAttempt(grpc.ExportOutcome(pb, record, reply.rpc))
    ensures grpc == null && http.Some? ==> a == HttpAttempt(http.value.Export(pb, z, record, reply.status))
    ensures grpc == null && http.None? ==> a == NoHandler
  {
    if grpc != null then GrpcAttempt(grpc.ExportOutcome(pb, record, reply.rpc))
    else if http.Some? then HttpAttempt(http.value.Export(pb, z, record, reply.status))
    else NoHandler
  }

  /** What exporting each record of the chunk gives, were it attempted. */
  function Outcomes(pb: Protobuf, z: Zlib, grpc: GrpcOutputHandler?, http: Option<HttpOutputHandler>,
                    chunk: seq<OutRecord>, reply: nat -> Reply): (s: seq<Attempt>)
    ensures |s| == |chunk|
  {
    seq(|chunk|, k requires 0 <= k < |chunk| => ExportOne(pb, z, grpc, http, chunk[k], reply(k)))
  }

  /** `write` over the first `n` records: their exports in turn, up to the first that raises. */
  function RunUntilRaise(outcomes: seq<Attempt>, n: nat): WriteResult
    requires n <= |outcomes|
  {
    if n == 0 then WriteResult([], None)
    else
      var prev := RunUntilRaise(outcomes, n - 1);
      if prev.raised.Some? then prev
      else WriteResult(prev.attempts + [outcomes[n - 1]], outcomes[n - 1].Raised())
  }

  /** One more record after a run without exception: its export is appended and decides the outcome. */
  lemma RunStep(outcomes: seq<Attempt>, i: nat)
    requires i < |outcomes|
    requires RunUntilRaise(outcomes, i).raised.None?
    ensures RunUntilRaise(outcomes, i + 1)
      == WriteResult(RunUntilRaise(outcomes, i).attempts + [outcomes[i]], outcomes[i].Raised())
  {
  }

  /** Once an export has raised, later records change nothing. */
  lemma {:induction false} AbortIsFinal(outcomes: seq<Attempt>, i: nat, j: nat)
    requires i <= j <= |outcomes|
    requires RunUntilRaise(outcomes, i).raised.Some?
    ensures RunUntilRaise(outcomes, j) == RunUntilRaise(outcomes, i)
    decreases j
  {
    if j > i {
      AbortIsFinal(outcomes, i, j - 1);
    }
  }

  /**
   * The records are exported one by one in chunk order; every attempt before
   * the last one succeeded; the chunk ends with the first exception, and
   * without one every record was exported.
   */
  lemma {:induction false} WriteInOrder(outcomes: seq<Attempt>, n: nat)
    requires n <= |outcomes|
    ensures
      var w := RunUntilRaise(outcomes, n);
      && |w.attempts| <= n
      && w.attempts == outcomes[..|w.attempts|]
      && (forall k :: 0 <= k < |w.attempts| - 1 ==> w.attempts[k].Raised().None?)
      && (w.raised.None? ==> |w.attempts| == n && forall k :: 0 <= k < n ==> outcomes[k].Raised().None?)
      && (w.raised.Some? ==> |w.attempts| > 0 && w.raised == w.attempts[|w.attempts| - 1].Raised())
    decreases n
  {
    if n > 0 {
      WriteInOrder(outcomes, n - 1);
      var prev := RunUntilRaise(outcomes, n - 1);
      if prev.raised.None? {
        assert prev.attempts + [outcomes[n - 1]] == outcomes[..n];
      }
    }
  }

  /** With a gRPC handler every export goes over gRPC; without one, over HTTP. */
  lemma ChannelChoice(pb: Protobuf, z: Zlib, grpc: GrpcOutputHandler?, http: Option<HttpOutputHandler>,
                      chunk: seq<OutRecord>, reply: nat -> Reply)
    ensures
      var w := RunUntilRaise(Outcomes(pb, z, grpc, http, chunk, reply), |chunk|);
      && (grpc != null ==> forall k :: 0 <= k < |w.attempts| ==> w.attempts[k].GrpcAttempt?)
      && (grpc == null && http.Some? ==> forall k :: 0 <= k < |w.attempts| ==> w.attempts[k].HttpAttempt?)
  {
    var outcomes := Outcomes(pb, z, grpc, http, chunk, reply);
    WriteInOrder(outcomes, |chunk|);
    forall k | 0 <= k < |outcomes|
      ensures outcomes[k] == ExportOne(pb, z, grpc, http, chunk[k], reply(k))
    {
    }
    if grpc != null {
      assert forall k :: 0 <= k < |outcomes| ==> outcomes[k].GrpcAttempt?;
    } else if http.Some? {
      assert forall k :: 0 <= k < |outcomes| ==> outcomes[k].HttpAttempt?;
    }
  }

  /**
   * The two channels decode the same record with different flags: a JSON
   * message with a field the schema does not know goes out over HTTP, while
   * the gRPC stub rejects it as unrecoverable.
   */
  lemma UnknownFieldsOnlyOverHttp(pb: Protobuf, z: Zlib, h: HttpOutputHandler, g: GrpcOutputHandler,
                                  record: OutRecord, status: int, reply: RpcReply)
    requires KindOfRecordType(record.recordType).Some? && record.message.Some?
    requires Request.IsJsonText(record.message.value)
    requires pb.decodeJson(KindOfRecordType(record.recordType).value, record.message.value, true).Ok?
    requires pb.decodeJson(KindOfRecordType(record.recordType).value, record.message.value, false).Err?
    ensures h.Export(pb, z, record, status).posted.Some?
    ensures g.ExportOutcome(pb, record, reply).sent.None?
    ensures g.ExportOutcome(pb, record, reply).raised.Some?
    ensures g.ExportOutcome(pb, record, reply).raised.value.UnrecoverableError?
  {
  }

  class OpentelemetryOutput {
    var httpHandler: Option<HttpOutputHandler>
    var grpcHandler: GrpcOutputHandler?

    constructor ()
      ensures httpHandler.None? && grpcHandler == null
    {
      httpHandler := None;
      grpcHandler := null;
    }

    /** Exactly one handler is configured. */
    predicate Configured()
      reads this
    {
      httpHandler.Some? != (grpcHandler != null)
    }

    /**
     * `configure`: the checks, then a handler for each section present. On a
     * ConfigError nothing is built; from the unconfigured state a successful
     * `configure` leaves exactly one handler.
     */
    method Configure(http: Option<HttpConfig>, grpc: Option<GrpcConfig>, grpcDefined: bool)
      returns (err: Option<ConfigError>)
      modifies this
      ensures err == ConfigureCheck(http.Some?, grpc.Some?, grpcDefined)
      ensures err.Some? ==> httpHandler == old(httpHandler) && grpcHandler == old(grpcHandler)
      ensures err.None? ==> httpHandler == (if http.Some? then Some(HttpOutputHandler(http.value)) else old(httpHandler))
      ensures err.None? && grpc.Some? ==>
        && grpcHandler != null && fresh(grpcHandler)
        && grpcHandler.grpcConfig == grpc.value
        && grpcHandler.channelArgs == (if grpc.value.compress == Gzip then GzipCompressionArgs else NoChannelArgs)
      ensures err.None? && grpc.None? ==> grpcHandler == old(grpcHandler)
      ensures err.None? && old(httpHandler).None? && old(grpcHandler) == null ==> Configured()
    {
      err := ConfigureCheck(http.Some?, grpc.Some?, grpcDefined);
      if err.Some? {
        return;
      }
      if http.Some? {
        httpHandler := Some(HttpOutputHandler(http.value));
      }
      if grpc.Some? {
        grpcHandler := new GrpcOutputHandler(grpc.value);
      }
    }

    /** `export` of one record through the handler `configure` built. */
    method ExportRecord(pb: Protobuf, z: Zlib, record: OutRecord, reply: Reply) returns (a: Attempt)
      ensures a == ExportOne(pb, z, grpcHandler, httpHandler, record, reply)
    {
      if grpcHandler != null {
        var g := grpcHandler.Export(pb, record, reply.rpc);
        a := GrpcAttempt(g);
      } else if httpHandler.Some? {
        a := HttpAttempt(httpHandler.value.Export(pb, z, record, reply.status));
      } else {
        a := NoHandler;
      }
    }

    /** One turn of `write`'s loop: the `i`-th record is exported and its attempt recorded. */
    method ExportNext(pb: Protobuf, z: Zlib, chunk: seq<OutRecord>, reply: nat -> Reply, i: nat, r: WriteResult)
      returns (next: WriteResult)
      requires i < |chunk|
      requires r == RunUntilRaise(Outcomes(pb, z, grpcHandler, httpHandler, chunk, reply), i) && r.raised.None?
      ensures next == RunUntilRaise(Outcomes(pb, z, grpcHandler, httpHandler, chunk, reply), i + 1)
    {
      ghost var outcomes := Outcomes(pb, z, grpcHandler, httpHandler, chunk, reply);
      var a := ExportRecord(pb, z, chunk[i], reply(i));
      assert a == outcomes[i];
      RunStep(outcomes, i);
      next := WriteResult(r.attempts + [a], a.Raised());
    }

    /**
     * `write(chunk)`: each record in turn, the `k`-th meeting the collector's
     * `k`-th reply; the first exception ends the loop.
     */
    method Write(pb: Protobuf, z: Zlib, chunk: seq<OutRecord>, reply: nat -> Reply) returns (r: WriteResult)
      ensures r == RunUntilRaise(Outcomes(pb, z, grpcHandler, httpHandler, chunk, reply), |chunk|)
    {
      ghost var outcomes := Outcomes(pb, z, grpcHandler, httpHandler, chunk, reply);
      r := WriteResult([], None);
      var i := 0;
      while i < |chunk|
        invariant 0 <= i <= |chunk|
        invariant r == RunUntilRaise(outcomes, i)
        invariant r.raised.None?
      {
        r := ExportNext(pb, z, chunk, reply, i, r);
        i := i + 1;
        if r.raised.Some? {
          AbortIsFinal(outcomes, i, |chunk|);
          return;
        }
      }
    }
  }
}
