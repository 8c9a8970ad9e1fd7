# fluent-plugin-opentelemetry, modelled in Dafny

This project models the core of fluent-plugin-opentelemetry. The plugin lets Fluentd speak OTLP, the
OpenTelemetry export protocol, for its three signal kinds: logs, metrics and traces.

- **Ingress.** The `opentelemetry` input (and the older `otlp` input) accepts export requests over
  OTLP/HTTP. The HTTP handler checks the content type and encoding and inflates a gzip body. It
  decodes the body as JSON when it starts with `{`, and as protobuf otherwise. It yields the
  message's JSON text to a block, which emits it as a record. It then answers with a full-success
  acknowledgement in the request's encoding.
- **Egress.** The `opentelemetry` output exports each record of a chunk, in order, through either
  an HTTP handler or a gRPC handler.
  - The HTTP handler re-encodes the record as protobuf, optionally gzips it, and POSTs it to
    `endpoint/v1/<kind>`. It turns the collector's status code into success, an unrecoverable
    error, a retryable error, or a logged error.
  - The gRPC handler decodes the JSON strictly and makes the unary call.
- **Self-metrics.** The `opentelemetry_metrics` input turns Fluentd's plugin-info maps and the
  process's memory and CPU readings into one OTLP metrics request.

The libraries the plugin calls are passed in as values: google-protobuf's generated message classes
(`Codec.Protobuf`) and Zlib (`Codec.Zlib`). Their decode results are uninterpreted. Where a property
depends on a library round trip, such as "the protobuf encoding decodes back" or "inflating what
was deflated", the lemma takes that round trip as a `requires` on the specific value, never as an
axiom.

Imperative code is modelled in imperative form:

- `HttpInputHandler.Common` and `OtlpInput.Common` are methods over a request object and an emit
  block. Each is proved equal to the pure decision `HttpInputHandler.Handle`, whose lemmas state
  the handler's behaviour.
- `OpentelemetryOutput.Write` is a loop proved equal to `RunUntilRaise`, the "export in turn until
  the first exception" fold.
- `Metrics.MetricList` is the nested loop of `metrics`, proved equal to the left fold `AllMetrics`.

Behaviour of the code worth knowing:

- A gzip body that does not inflate raises. `Zlib::GzipReader`'s error is not rescued (only
  `Google::Protobuf::ParseError` is), so it escapes the handler instead of producing a response
  (`HttpInputHandler.CorruptGzipRaises`).
- JSON and protobuf are told apart by the body's first character, `{`; the content type only
  selects the encoding of the acknowledgement (`Request.New`, `HttpInputHandler.Acknowledge`).
- The gRPC output never uses its `timeout`, `keepalive_time` and `keepalive_timeout` parameters.
  Only the compression channel argument reaches the stub (`GrpcOutputHandler.GrpcOutputHandler.Stub`).
- A failed RPC propagates as the gRPC library's own error. It is not classified as unrecoverable or
  retryable (`GrpcOutputHandler.GrpcOutputHandler.ExportOutcome`).
- Decoding JSON is strict on every path that calls `decode_json` without the flag: the legacy
  `Otlp::Request` and the gRPC stub reject unknown fields. The current `Request` ignores them by
  default (`OtlpRequest.SameAsStrictRequest`, `OutOpentelemetry.UnknownFieldsOnlyOverHttp`).
- The legacy `otlp` handler reads the body only after both header checks and never closes the
  request. The current handler closes it on every exit path (`HttpInputHandler.Common`).

## Model

| member | source | states |
|---|---|---|
| Constant.KindOfRecordType | lib/fluent/plugin/opentelemetry/http_output_handler.rb:72-82 | A record-type tag selects a signal kind exactly when it is that kind's tag. A nil or unknown tag selects none. |
| Constant.RecordTypeRoundTrip | lib/fluent/plugin/opentelemetry/constant.rb:15-17 | Tagging a record with its kind's record type and looking the tag up gives the kind back. |
| Request.New | lib/fluent/plugin/opentelemetry/request.rb:12-19 | The request keeps its kind. A body starting with `{` gets `decode_json`'s outcome with the flag; any other body (the empty one too) gets binary `decode`'s outcome, errors included. |
| Request.Body | lib/fluent/plugin/opentelemetry/request.rb:21-23 | The protobuf encoding of the decoded message. `BodyThenRecord` proves that decoding it gives the same request back, given the round trip. |
| Request.Record | lib/fluent/plugin/opentelemetry/request.rb:25-27 | The JSON encoding of the decoded message. `FixtureRoundTrip` proves that the record of a re-read canonical JSON body is that body. |
| Request.IgnoreUnknownFieldsOnlyForJson | lib/fluent/plugin/opentelemetry/request.rb:12-19 | For a body that is not JSON text, `ignore_unknown_fields` makes no difference. |
| Request.EmptyBodyIsBinary | lib/fluent/plugin/opentelemetry/request.rb:14-17 | The empty body goes to the binary decoder. |
| Request.BodyThenRecord | lib/fluent/plugin/opentelemetry/request.rb:21-27 | If the message survives the protobuf round trip, re-decoding `body` gives the same request and the same `record`. |
| Request.FixtureRoundTrip | lib/fluent/plugin/opentelemetry/request.rb:12-27 | For a canonical JSON text, `new(new(json).body).record` is the original text. |
| OtlpRequest.New | lib/fluent/plugin/otlp/request.rb:12-19 | Same dispatch on `{`, with JSON decoded under the library's default, which rejects unknown fields. |
| OtlpRequest.SameAsStrictRequest | lib/fluent/plugin/otlp/request.rb:12-19 | The legacy request equals the current one with `ignore_unknown_fields: false`. |
| OtlpRequest.AgreesOnBinary | lib/fluent/plugin/otlp/request.rb:14-17 | On binary bodies the legacy and current requests agree. |
| Response.Type | lib/fluent/plugin/otlp/response.rb:11-20 | Protobuf and JSON content types map to `:protobuf` and `:json`, both ways. Every other value, nil included, raises "unknown content-type: ...". |
| Response.Build | lib/fluent/plugin/otlp/response.rb:23-30 | The partial success is of the kind asked for and carries the given rejected count and error message. |
| Response.New | lib/fluent/plugin/otlp/response.rb:32-34 | The instance holds the message `build` makes from the same arguments. |
| Response.Body | lib/fluent/plugin/otlp/response.rb:36-42 | Protobuf for `:protobuf`, JSON otherwise. `HttpInputHandler.Acknowledge` shows the acknowledgement's body in the request's encoding. |
| Response.DefaultIsFullSuccess | lib/fluent/plugin/otlp/response.rb:23-34 | The default acknowledgement rejects nothing and has an empty error message, for every kind. |
| Response.BuildInjective | lib/fluent/plugin/otlp/response.rb:23-76 | Two built responses are equal exactly when kind, count and message are. |
| Pipeline.Router.Emit | lib/fluent/plugin/in_opentelemetry.rb:62 | `router.emit` appends exactly one event and changes nothing else. |
| Pipeline.EmitBlock.EventsFor | lib/fluent/plugin/in_opentelemetry.rb:61-69 | A block fired once emits one event carrying the yielded record unchanged; a block not fired emits none. |
| Pipeline.EmitBlock.Call | lib/fluent/plugin/in_opentelemetry.rb:62 | One call appends the event with the block's tag, key style and record type to the router. |
| HttpInputHandler.HttpRequest.Close | lib/fluent/plugin/opentelemetry/http_input_handler.rb:21-27 | After `close` the request is closed. |
| HttpInputHandler.ValidContentType | lib/fluent/plugin/opentelemetry/http_input_handler.rb:73-80 | Exactly the protobuf and JSON content types are valid. `UnsupportedTypeFirst` shows every other type, nil included, gets 415. `ValidTypeHasBodyType` shows a valid type always has a response encoding. |
| HttpInputHandler.ValidContentEncoding | lib/fluent/plugin/opentelemetry/http_input_handler.rb:82-86 | An absent encoding or exactly gzip is valid. `BadEncodingRejected` and `AbsentEncodingAccepted` state both sides. |
| HttpInputHandler.FirstValue | lib/fluent/plugin/opentelemetry/http_input_handler.rb:51 | `&.first`: nil for a missing header or an empty list, else the first value. |
| HttpInputHandler.Respond | lib/fluent/plugin/opentelemetry/http_input_handler.rb:88-90 | The response carries the code, the body, and exactly one header, Content-Type. |
| HttpInputHandler.UnsupportedMediaType | lib/fluent/plugin/opentelemetry/http_input_handler.rb:92-94 | 415, text/plain, and the fixed message naming both supported types. |
| HttpInputHandler.BadRequest | lib/fluent/plugin/opentelemetry/http_input_handler.rb:96-98 | 400 with the request's content type echoed and an empty body. |
| HttpInputHandler.Acknowledge | lib/fluent/plugin/opentelemetry/http_input_handler.rb:67-68 | 200 echoing the type. The body is the default response in protobuf for a protobuf request and in JSON for a JSON request. |
| HttpInputHandler.Handle | lib/fluent/plugin/opentelemetry/http_input_handler.rb:49-68 | A record is yielded exactly when the answer is 200. The code is 200, 400 or 415, and 415 exactly when the content type is invalid. Only a gzip body that fails to inflate raises. |
| HttpInputHandler.Common | lib/fluent/plugin/opentelemetry/http_input_handler.rb:49-71 | The handler's exit is `Handle`'s. The router gains exactly the events of the yielded record. The request is closed on every path. |
| HttpInputHandler.UnsupportedTypeFirst | lib/fluent/plugin/opentelemetry/http_input_handler.rb:53 | A bad content type gives the 415 response, whatever the encoding and body, and yields nothing. |
| HttpInputHandler.BadEncodingRejected | lib/fluent/plugin/opentelemetry/http_input_handler.rb:54 | With a valid type, a first encoding other than gzip gives 400 echoing the type, before any inflation. |
| HttpInputHandler.OnlyFirstEncodingCounts | lib/fluent/plugin/opentelemetry/http_input_handler.rb:51 | Content-encoding values after the first never change the outcome. |
| HttpInputHandler.AbsentEncodingAccepted | lib/fluent/plugin/opentelemetry/http_input_handler.rb:82-86 | A missing header and an empty list behave alike: the body is decoded as it is. |
| HttpInputHandler.GzipTransparent | lib/fluent/plugin/opentelemetry/http_input_handler.rb:56 | A gzip body is handled exactly like the plain body it inflates to. |
| HttpInputHandler.CorruptGzipRaises | lib/fluent/plugin/opentelemetry/http_input_handler.rb:56 | A gzip body that does not inflate raises the inflater's error and yields nothing. |
| HttpInputHandler.ParseErrorIsBadRequest | lib/fluent/plugin/opentelemetry/http_input_handler.rb:58-63 | A body the decoder rejects gives 400 with the type echoed and yields nothing. |
| HttpInputHandler.SuccessYieldsRecord | lib/fluent/plugin/opentelemetry/http_input_handler.rb:65-68 | A decodable body yields its JSON record and is answered 200 with the acknowledgement in the request's encoding. |
| HttpInputHandler.ValidTypeHasBodyType | lib/fluent/plugin/opentelemetry/http_input_handler.rb:68 | Once the type is validated, `Response.type` cannot raise. |
| InOpentelemetry.Configure | lib/fluent/plugin/in_opentelemetry.rb:43-53 | Configuration succeeds exactly when some section is given and a `<grpc>` section has the gem. The gem check comes first. |
| InOpentelemetry.RouteKind | lib/fluent/plugin/in_opentelemetry.rb:61-69 | The three routes map to exactly their own kinds. The legacy plugin registers the same paths (in_otlp.rb:71-79) and uses this function too. |
| InOpentelemetry.Post | lib/fluent/plugin/in_opentelemetry.rb:58-71 | An unrouted path changes nothing. A routed POST exits as `Handle` with unknown JSON fields ignored, closes the request, and emits one string-keyed event per yielded record. |
| InOpentelemetry.GrpcEmit | lib/fluent/plugin/in_opentelemetry.rb:76-86 | A gRPC callback emits exactly one event of its kind's record type. |
| InOpentelemetry.RoutesTagByKind | lib/fluent/plugin/in_opentelemetry.rb:61-69 | Each route tags its records with its own record type. |
| OtlpInput.Configure | lib/fluent/plugin/in_otlp.rb:57-63 | Configuration succeeds exactly when some section is given. There is no gem check. |
| OtlpInput.Common | lib/fluent/plugin/in_otlp.rb:116-136 | The exit and the emitted events are `Handle`'s with strict JSON decoding. Only the router changes: the request stays open. |
| OtlpInput.Post | lib/fluent/plugin/in_otlp.rb:68-80 | A routed POST exits as the strict `Handle` and emits one symbol-keyed event per yielded record. An unrouted one changes nothing. |
| OtlpInput.GrpcEmit | lib/fluent/plugin/in_otlp.rb:86-96 | A gRPC callback emits exactly one event of its kind's record type. |
| OtlpInput.StrictAcceptImpliesPermissive | lib/fluent/plugin/in_otlp.rb:125-130 | If the permissive decoder agrees wherever the strict one accepts, whatever the legacy handler yields, the current one handles identically. |
| HttpOutputHandler.HttpOutputHandler.TimeoutSettingsOf | lib/fluent/plugin/opentelemetry/http_output_handler.rb:26-30 | The three timeouts are taken from the section unchanged. |
| HttpOutputHandler.HttpOutputHandler.LogsEndpoint | lib/fluent/plugin/opentelemetry/http_output_handler.rb:56-58 | The URI is the endpoint followed by exactly `/v1/logs`. |
| HttpOutputHandler.HttpOutputHandler.MetricsEndpoint | lib/fluent/plugin/opentelemetry/http_output_handler.rb:60-62 | The URI is the endpoint followed by exactly `/v1/metrics`. |
| HttpOutputHandler.HttpOutputHandler.TracesEndpoint | lib/fluent/plugin/opentelemetry/http_output_handler.rb:64-66 | The URI is the endpoint followed by exactly `/v1/traces`. |
| HttpOutputHandler.HttpOutputHandler.CreateHttpConnection | lib/fluent/plugin/opentelemetry/http_output_handler.rb:68-99 | A connection is built exactly for a known type whose message decodes. It has that kind's URI, Content-Type protobuf, Content-Encoding gzip exactly under gzip, the (gzipped) protobuf body, the proxy and the configured timeouts. An unknown type and a nil message raise their runtime errors. A ParseError, and only a ParseError, becomes UnrecoverableError with the parser's message. |
| HttpOutputHandler.HttpOutputHandler.Retryable | lib/fluent/plugin/opentelemetry/http_output_handler.rb:43-45 | A status is retryable exactly when it is in the configured list; a nil list makes none retryable. `RaisesUnlessDeliveredOrLogged` shows how it decides the raise. |
| HttpOutputHandler.HttpOutputHandler.Classify | lib/fluent/plugin/opentelemetry/http_output_handler.rb:37-51 | 200 is success. 400 is always unrecoverable. A retryable code (none when the list is nil) raises RetryableResponse. Any other code is unrecoverable or only logged, as the flag says. Each case carries its message. |
| HttpOutputHandler.HttpOutputHandler.Export | lib/fluent/plugin/opentelemetry/http_output_handler.rb:33-52 | Nothing is posted when the connection cannot be built, and that error is raised. Otherwise the posted request is the built one, and the raise or log line is exactly the classification's. |
| HttpOutputHandler.HttpOutputHandler.CollectorDecodesPayload | lib/fluent/plugin/opentelemetry/http_output_handler.rb:88-97 | Undoing the announced gzip and decoding the body gives the record's message back, given the library round trips. |
| HttpOutputHandler.HttpOutputHandler.BadRequestNeverRetried | lib/fluent/plugin/opentelemetry/http_output_handler.rb:38-41 | 400 is unrecoverable whatever the retryable list and the flag say. |
| HttpOutputHandler.HttpOutputHandler.RaisesUnlessDeliveredOrLogged | lib/fluent/plugin/opentelemetry/http_output_handler.rb:37-51 | Export raises exactly for codes other than 200 that are 400, retryable, or met with the unrecoverable flag set. |
| HttpOutputHandler.HttpOutputHandler.MessageNamesUriAndStatus | lib/fluent/plugin/opentelemetry/http_output_handler.rb:40-49 | Every raised or logged message contains the quoted URI and the status code, and ends with the code, which reads back. |
| HttpOutputHandler.ResponseMessage | lib/fluent/plugin/opentelemetry/http_output_handler.rb:40-49 | The error text of `export`. `ResponseMessageParts` proves it quotes the URI and ends with the status code, which parses back. |
| HttpOutputHandler.ResponseMessageParts | lib/fluent/plugin/opentelemetry/http_output_handler.rb:40-49 | The message text contains the quoted URI and ends with the decimal status, which parses back to the status. |
| GrpcOutputHandler.StubExport | lib/fluent/plugin/opentelemetry/grpc_output_handler.rb:20-23 | A message is sent exactly when the strict decoder accepts the JSON, and it is the decoded message. The call raises exactly when the RPC fails; the decoder's failure is a ParseError. A nil message sends nothing and raises the TypeError of `decode_json(nil)`. |
| GrpcOutputHandler.Rescue | lib/fluent/plugin/opentelemetry/grpc_output_handler.rb:72-77 | A ParseError becomes UnrecoverableError with the same message. Every other exception passes through unchanged. |
| GrpcOutputHandler.GrpcOutputHandler.constructor | lib/fluent/plugin/opentelemetry/grpc_output_handler.rb:49-56 | The channel arguments are gzip compression exactly when the section says gzip. |
| GrpcOutputHandler.GrpcOutputHandler.Stub | lib/fluent/plugin/opentelemetry/grpc_output_handler.rb:61-70 | The stub of a kind is bound to the configured endpoint, the insecure credential and the handler's channel arguments. |
| GrpcOutputHandler.GrpcOutputHandler.ExportOutcome | lib/fluent/plugin/opentelemetry/grpc_output_handler.rb:58-78 | An unknown type raises without sending, and so does a nil message. A parse failure raises UnrecoverableError with the parser's message. A decodable message is sent through its kind's stub, and the RPC's failure, if any, is raised as is. Nothing is ever RetryableResponse. |
| GrpcOutputHandler.GrpcOutputHandler.Export | lib/fluent/plugin/opentelemetry/grpc_output_handler.rb:58-78 | The step-by-step `export` (case, then call inside the rescue) has exactly `ExportOutcome`'s outcome. |
| GrpcOutputHandler.GrpcOutputHandler.SendsOnlyStrictlyDecodable | lib/fluent/plugin/opentelemetry/grpc_output_handler.rb:63-77 | The gRPC path sends exactly the records of a known type whose JSON the strict decoder accepts. |
| OutOpentelemetry.DefaultHttpConfig | lib/fluent/plugin/out_opentelemetry.rb:28-48 | The defaults: endpoint http://127.0.0.1:4318; proxy from HTTP_PROXY, else http_proxy; unrecoverable flag on; retryable 429, 502, 503 and 504; text; 60-second timeouts. |
| OutOpentelemetry.DefaultGrpcConfig | lib/fluent/plugin/out_opentelemetry.rb:50-65 | The defaults: endpoint 127.0.0.1:4317, text, timeout 60, keepalive 30 and 10. |
| OutOpentelemetry.ConfigureCheck | lib/fluent/plugin/out_opentelemetry.rb:71-80 | Configuration succeeds exactly when one section is given, not both, and a `<grpc>` section has the gem. The gem check comes first. |
| OutOpentelemetry.ExportOne | lib/fluent/plugin/out_opentelemetry.rb:92-96 | A record goes to the gRPC handler when there is one, else to the HTTP handler. With neither, the call on nil raises. |
| OutOpentelemetry.RunUntilRaise | lib/fluent/plugin/out_opentelemetry.rb:90-98 | The specification of `write`'s loop. `WriteInOrder` and `AbortIsFinal` prove the in-order prefix, the stop at the first exception, and that later records change nothing. |
| OutOpentelemetry.AbortIsFinal | lib/fluent/plugin/out_opentelemetry.rb:90-98 | Once an export has raised, the records after it change nothing. |
| OutOpentelemetry.WriteInOrder | lib/fluent/plugin/out_opentelemetry.rb:90-98 | The attempts are a prefix of the chunk's exports, in order, and all but the last succeeded. Without an exception every record was exported; with one, it is the last attempt's. |
| OutOpentelemetry.ChannelChoice | lib/fluent/plugin/out_opentelemetry.rb:92-96 | With a gRPC handler every attempt goes over gRPC; without one, every attempt goes over HTTP. |
| OutOpentelemetry.UnknownFieldsOnlyOverHttp | lib/fluent/plugin/opentelemetry/grpc_output_handler.rb:20-23 | JSON that only the permissive decoder accepts is posted over HTTP. The gRPC stub rejects it as unrecoverable without sending. |
| OutOpentelemetry.OpentelemetryOutput.Configure | lib/fluent/plugin/out_opentelemetry.rb:71-84 | The check's error is returned and then nothing changes. Otherwise each given section gets its handler, and from the unconfigured state exactly one handler exists. |
| OutOpentelemetry.OpentelemetryOutput.ExportRecord | lib/fluent/plugin/out_opentelemetry.rb:92-96 | One record's export takes the gRPC branch when there is a gRPC handler and the HTTP branch otherwise, exactly as `ExportOne`. |
| OutOpentelemetry.OpentelemetryOutput.ExportNext | lib/fluent/plugin/out_opentelemetry.rb:91-97 | After an exception-free run over the first `i` records, one more turn gives the run over `i + 1` records. |
| OutOpentelemetry.OpentelemetryOutput.Write | lib/fluent/plugin/out_opentelemetry.rb:90-98 | The loop's result is `RunUntilRaise` over the chunk's exports: each record in turn, up to and including the first that raises. |
| OpentelemetryMetrics.ToNanoSec | lib/fluent/plugin/in_opentelemetry_metrics.rb:39-41 | Seconds times 10^9 plus nanoseconds. `ToNanoSecSplits` proves it is invertible and `ToNanoSecMonotone` that it is order-preserving. |
| OpentelemetryMetrics.ToNanoSecSplits | lib/fluent/plugin/in_opentelemetry_metrics.rb:39-41 | For a valid time, dividing the count by 10^9 gives the seconds back, and the remainder gives the nanoseconds. |
| OpentelemetryMetrics.ToNanoSecMonotone | lib/fluent/plugin/in_opentelemetry_metrics.rb:39-41 | Times are ordered exactly as their nanosecond counts. |
| OpentelemetryMetrics.Lookup | lib/fluent/plugin/in_opentelemetry_metrics.rb:104-107 | `record[key]`. `LookupFindsEntry` proves that a missing key is nil and that a found value is an entry under the key. |
| OpentelemetryMetrics.LookupFindsEntry | lib/fluent/plugin/in_opentelemetry_metrics.rb:104-107 | A missing key reads as nil. A value read is one of the map's entries under that key. |
| OpentelemetryMetrics.NumericEntriesMembers | lib/fluent/plugin/in_opentelemetry_metrics.rb:110-111 | `next unless value.is_a?(Numeric)` keeps exactly the numeric entries. |
| OpentelemetryMetrics.StringValueAttribute | lib/fluent/plugin/in_opentelemetry_metrics.rb:190-197 | The key is kept and the value becomes a stringValue of its `to_s`. |
| OpentelemetryMetrics.IntValueAttribute | lib/fluent/plugin/in_opentelemetry_metrics.rb:199-206 | The key is kept and the value is an intValue, not stringified. |
| OpentelemetryMetrics.PluginName | lib/fluent/plugin/in_opentelemetry_metrics.rb:176-188 | "input" gives `in_<type>`, "output" gives `out_<type>`, and any other category `c` gives `<c>_<type>`. |
| OpentelemetryMetrics.Metrics.constructor | lib/fluent/plugin/in_opentelemetry_metrics.rb:48-54 | The start time is the construction time in nanoseconds; the prefix and host name are kept. |
| OpentelemetryMetrics.PluginAttributes | lib/fluent/plugin/in_opentelemetry_metrics.rb:103-108 | Four attributes per plugin, all string values. |
| OpentelemetryMetrics.Metrics.EntryMetrics | lib/fluent/plugin/in_opentelemetry_metrics.rb:110-128 | The specification of the inner loop. `EntryMetricsAreNumericEntries` proves one gauge per numeric entry, in order. |
| OpentelemetryMetrics.Metrics.PluginMetrics | lib/fluent/plugin/in_opentelemetry_metrics.rb:102-129 | The specification of the outer loop. `PluginMetricsAreGauges` and `MetricCount` prove that every element is a stamped gauge and that their number is the number of numeric entries. |
| OpentelemetryMetrics.Metrics.ProcessMetrics | lib/fluent/plugin/in_opentelemetry_metrics.rb:135-173 | The memory gauge and the CPU-time sum of the process. `ProcessMetricsLast` and `ProcessMetricsStamped` prove their names, units, kinds and stamps. |
| OpentelemetryMetrics.Metrics.AllMetrics | lib/fluent/plugin/in_opentelemetry_metrics.rb:98-133 | What `metrics` returns. `NamesAndTimes` and `ProcessMetricsLast` prove that every metric is stamped and that the process metrics close the list. |
| OpentelemetryMetrics.Metrics.AppendEntryMetrics | lib/fluent/plugin/in_opentelemetry_metrics.rb:110-128 | The inner loop appends exactly the gauges `EntryMetrics` gives for the map. |
| OpentelemetryMetrics.Metrics.AppendPluginMetrics | lib/fluent/plugin/in_opentelemetry_metrics.rb:102-129 | One turn of the outer loop extends the first `i` maps' gauges to the first `i + 1` maps' gauges. |
| OpentelemetryMetrics.Metrics.PluginMetricList | lib/fluent/plugin/in_opentelemetry_metrics.rb:102-129 | The outer loop gives `PluginMetrics`: each map's gauges, maps in order, each with its plugin's attributes. |
| OpentelemetryMetrics.Metrics.MetricList | lib/fluent/plugin/in_opentelemetry_metrics.rb:98-133 | The nested loops give `AllMetrics`: every map's gauges in order, then the process metrics, all at one clock reading. |
| OpentelemetryMetrics.Metrics.ResourceAttributes | lib/fluent/plugin/in_opentelemetry_metrics.rb:70-79 | Six resource attributes, among them service.name "fluentd", host.name and an integer process.pid. |
| OpentelemetryMetrics.Metrics.MetricsDataOf | lib/fluent/plugin/in_opentelemetry_metrics.rb:66-96 | One resourceMetrics holding one scopeMetrics. Its scope is named "fluent-plugin-opentelemetry" and it carries the given metrics unchanged. |
| OpentelemetryMetrics.Metrics.Values | lib/fluent/plugin/in_opentelemetry_metrics.rb:60-62 | `values` wraps exactly `AllMetrics` for the current clock reading. |
| OpentelemetryMetrics.Metrics.EntryMetricsAreNumericEntries | lib/fluent/plugin/in_opentelemetry_metrics.rb:110-128 | A map's gauges correspond one to one, in order, to its numeric entries, and all carry the map's attributes. |
| OpentelemetryMetrics.Metrics.NoNumericNoMetric | lib/fluent/plugin/in_opentelemetry_metrics.rb:111 | A map without numeric values contributes no metric. |
| OpentelemetryMetrics.Metrics.PluginMetricsAreGauges | lib/fluent/plugin/in_opentelemetry_metrics.rb:113-127 | Every plugin metric is a gauge of unit "1", named prefix + key, with one data point at the shared start time and clock reading. |
| OpentelemetryMetrics.Metrics.EntryMetricsAreGauges | lib/fluent/plugin/in_opentelemetry_metrics.rb:113-127 | Every gauge built from one map has unit "1", the prefixed name and one data point at the start time and clock reading. |
| OpentelemetryMetrics.Metrics.EntryMetricsCount | lib/fluent/plugin/in_opentelemetry_metrics.rb:110-128 | The first `n` entries of a map yield exactly as many gauges as they have numeric entries. |
| OpentelemetryMetrics.Metrics.ProcessMetricsLast | lib/fluent/plugin/in_opentelemetry_metrics.rb:130-173 | The last two metrics are process_memory_usage ("By", gauge) and then process_cpu_time ("s", cumulative monotonic sum). Everything before them is the plugin metrics. |
| OpentelemetryMetrics.Metrics.ProcessMetricsStamped | lib/fluent/plugin/in_opentelemetry_metrics.rb:135-173 | Both process metrics carry the prefix, the start time and the clock reading. |
| OpentelemetryMetrics.Metrics.NamesAndTimes | lib/fluent/plugin/in_opentelemetry_metrics.rb:98-173 | Every metric name starts with the prefix. Every data point has the construction start time and the one clock reading of the call. |
| OpentelemetryMetrics.Metrics.MetricCount | lib/fluent/plugin/in_opentelemetry_metrics.rb:102-129 | The plugin metrics number exactly the numeric entries of all maps, whatever attributes they carry. |
| OpentelemetryMetrics.Metrics.Emit | lib/fluent/plugin/in_opentelemetry_metrics.rb:31-34 | Each timer tick emits exactly one metrics-typed event whose message renders the current request. |

## Left out

- Each handler's HTTP server, routing framework, bind address and port are left out: they belong to
  the host. Only the route-to-handler map is modelled.
- The gRPC servers are left out: GrpcInputHandler, the service handlers, the legacy GrpcHandler and
  its ExceptionInterceptor. They are the gRPC library's plumbing. Only the callbacks they invoke are
  modelled, by `GrpcEmit`.
- The ingress helper's `headers`/`close` refinement for older Fluentd is not modelled beyond
  `HttpRequest.Close`.
- google-protobuf and Zlib are uninterpreted values, because their algorithms are not part of the
  plugin. ServiceStub construction and the RPC are modelled only as the stub's identity and the
  collector's reply.
- TLS is left out: the `@tls_settings` of HttpOutputHandler, `Excon.defaults[:ssl_verify_peer]` and
  the `<transport>` sections carry no logic of the core.
- Excon and the network are left out. Each record's HTTP status and gRPC reply are inputs, indexed
  by position in the chunk. Connection failures and timeouts raised by the transport are not
  modelled.
- The Ruby runtime's exception texts (`NoMethodError`, `TypeError`, and Excon's error for a nil URI)
  are stood in for by fixed representative texts. The cases that raise them are modelled exactly.
- MonitorInfo (`all_plugins`, `plugin_category`, `get_monitor_info`) is left out. It reads
  Fluentd's global engine state by reflection, so the plugin-info maps are an input of `MetricList`.
- The clock, `Socket.gethostname`, `Process.pid`, `GetProcessMem`, `Process.times`, `RUBY_VERSION`
  and the Fluentd and plugin versions are inputs, because they are I/O.
- `record` (`values.to_json`) is left out, because JSON text generation is not part of the core.
  The timer's `Emit` takes the renderer as a parameter.
- `emit_interval` scheduling, `Fluent::EventTime.now` and `multi_workers_ready?` are left out: they
  concern time and concurrency.
- Floating-point values are carried as their text (`FloatNum`), because there is no floating point.
- Two of the metrics test's checks are left out. The one that validates the record with the strict
  decoder would need the JSON renderer. The name-separator check contradicts the `fluentd_` default
  prefix.
- OpentelemetryMetrics.Lookup: a Ruby Hash has unique keys. Here the info map is a sequence of
  pairs and the first pair with the key wins; `metrics` still visits every pair.
- Response: lib/fluent/plugin/opentelemetry/response.rb is not part of this model. The responses
  follow lib/fluent/plugin/otlp/response.rb, which the legacy input uses and which has the same
  interface.
- The buffer section's default `chunk_keys` is left out: it is host configuration.
