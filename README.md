# Cloud Logging extension for Roda: a Dafny model

This project models the core of `google_cloud_logging_extension`, a Ruby gem that extends the Google Cloud Logging client library in two ways:

- **Exception payloads.** `Entry#payload=` turns an exception into a structured hash. The hash holds the class name, the message and the backtrace, and the cause is converted recursively while it is itself an exception. `Logging.create` builds a logger and takes a `:level` out of its labels.
- **Request log entries.** A Roda plugin keeps per-request state: custom payload fields, a severity override and a start reading of the monotonic raw clock. After each request it builds an `Entry::HttpRequest` from the Rack environment and the response status. That descriptor holds the server address, the URL, the client address and the latency, split into seconds and nanoseconds. The hook then picks a severity, builds a message line and a payload, and writes one log entry through `Logger#write_entry_with_http_request`. That method resolves the log name and the trace fields. `Entry::HttpRequest#to_grpc` coerces the descriptor into the wire record.

Modules:

- `RubyValues` (`ruby_values.dfy`): the Ruby values the code handles, Ruby truthiness, and reading and interpolating Rack environment entries.
- `Strings` (`strings.dfy`): cutting a string at the first or last separator, and the lemmas that say when this gives back the joined parts.
- `ExceptionPayloads` (`exception_payload.dfy`): `create_exception_payload`, the dispatch in `payload=`, and lemmas about the cause chain.
- `CloudLogging` (`cloud_logging.dfy`): the library classes the gem reopens (`Entry`, `Entry::HttpRequest`, `Logger`) and `Logging.create`. The writer is a sink that records every write it receives, in order.
- `RodaPlugin` (`roda_plugin.dfy`): the pure parts of the hooks (server address, URL, client address, latency split, severity, message line, payload merge, `configure` defaults) and the class `RodaRequest`, which holds the plugin's instance variables and the hooks.

Every string the after hook builds has a parse function beside it. A round-trip lemma says when parsing gives back the parts: it needs the separators not to appear inside the parts.

Several inputs are plain parameters:

- the clock readings;
- `Time.now`;
- the library's `gcloud_severity`, `request_info`, `entry_labels` and `empty?`;
- the project id the client knows;
- whether the platform has `CLOCK_MONOTONIC_RAW`.

Points the model takes from the code as written, which a reader might expect otherwise:

- The code truncates the nanoseconds (`to_i`); it does not round them.
- A cause that is not an exception (`nil` included) makes the `cause` entry hold the exception itself. It is not stored as an opaque value, and it is not `nil`.
- No type discriminator is added at the root, and cause cycles are not detected.
- Without a start clock the whole entry is dropped. An entry without latency is not written (see Findings).

## Model

| member | source | states |
|---|---|---|
| ExceptionPayloads.ExceptionPayload | lib/google_cloud_logging_extension/google/cloud/logging.rb:21-28 | the payload has exactly the keys `:class`, `:message`, `:backtrace`, `:cause`; class name, message and backtrace are the exception's own, unchanged; a non-exception cause (nil included) makes `:cause` the exception itself |
| ExceptionPayloads.ExceptionCauseIsConverted | lib/google_cloud_logging_extension/google/cloud/logging.rb:26 | an exception-valued cause makes `:cause` exactly the payload of that cause |
| ExceptionPayloads.PayloadDepthIsCauseDepth | lib/google_cloud_logging_extension/google/cloud/logging.rb:21-28 | the nesting depth of `:cause` hashes equals the number of consecutive exception-valued causes, so the recursion ends with the chain |
| ExceptionPayloads.NestedPayloadIsCauseAt | lib/google_cloud_logging_extension/google/cloud/logging.rb:22-26 | the hash `i` levels down is the payload of the exception `i` steps down the cause chain, carrying its class, message and backtrace |
| ExceptionPayloads.DeepestCauseHoldsItself | lib/google_cloud_logging_extension/google/cloud/logging.rb:26 | at the bottom of the nesting the cause is not an exception and `:cause` holds the last exception itself; nothing further is converted |
| ExceptionPayloads.PayloadFor | lib/google_cloud_logging_extension/google/cloud/logging.rb:30-37 | an exception is stored as exactly its `create_exception_payload` hash, `:cause` nesting included, so the lemmas about that hash hold for what `payload=` stores; any other value, a hash holding exceptions included, is stored unchanged; the stored value is never an exception |
| ExceptionPayloads.PayloadForIdempotent | lib/google_cloud_logging_extension/google/cloud/logging.rb:30-37 | assigning the stored payload again changes nothing: only a top-level exception is converted |
| CloudLogging.Entry.SetPayload | lib/google_cloud_logging_extension/google/cloud/logging.rb:30-37 | `payload=` sets `@payload` to the converted value and changes no other field |
| CloudLogging.Create | lib/google_cloud_logging_extension/google/cloud/logging.rb:6-17 | the logger gets the labels without `:level`, all others unchanged, a writer of capacity 1000 and the resource type (default `gce_project`); a truthy `:level` becomes the level, otherwise the level is untouched |
| CloudLogging.Entry.constructor | lib/google_cloud_logging_extension/roda_plugin.rb:10 | a new entry's `trace` and `trace_sampled` start `nil`, which is what they stay when lines 21-22 do not set them |
| CloudLogging.HttpRequest.constructor | lib/google_cloud_logging_extension/roda_plugin.rb:100 | a new request descriptor has every field `nil` |
| CloudLogging.HttpRequest.ToGrpc | lib/google_cloud_logging_extension/roda_plugin.rb:33-51 | no record exactly when the descriptor is empty; otherwise string fields are the field or `""` for nil, integer fields the field or 0, latency passed on, and the cache flags true exactly when the field is truthy |
| CloudLogging.ActualLogName | lib/google_cloud_logging_extension/roda_plugin.rb:17-20 | the log name is the request info's override when info exists and has one, else the logger's name |
| CloudLogging.EntryTrace | lib/google_cloud_logging_extension/roda_plugin.rb:19-21 | a trace is set exactly when info exists, has a trace id and the project is known; it then reads back as that project and trace id |
| CloudLogging.TraceName | lib/google_cloud_logging_extension/roda_plugin.rb:21 | the trace name is `projects/`, the project, `/traces/` and the trace id, in that order; its parse-back partner is `TraceNameRoundTrip` |
| CloudLogging.TraceNameRoundTrip | lib/google_cloud_logging_extension/roda_plugin.rb:21 | `projects/{p}/traces/{t}` parses back into `p` and `t` whenever `p` holds no `/` |
| CloudLogging.EntryTraceSampled | lib/google_cloud_logging_extension/roda_plugin.rb:22 | the sampling flag is copied from the request info, and stays nil without info |
| CloudLogging.Logger.constructor | lib/google_cloud_logging_extension/google/cloud/logging.rb:14 | the logger keeps its name, resource, labels and project; the level is unassigned and nothing is written yet |
| CloudLogging.Logger.WriteEntries | lib/google_cloud_logging_extension/roda_plugin.rb:25 | the writer records the entry with its log name, resource and labels after the earlier writes |
| CloudLogging.Logger.WriteEntryWithHttpRequest | lib/google_cloud_logging_extension/roda_plugin.rb:9-26 | exactly one new entry is written after the earlier ones; it carries the timestamp, the library's severity, the payload as `payload=` stores it, the given descriptor, the resolved log name, the trace and sampling fields and the entry labels |
| RodaPlugin.ServerIp | lib/google_cloud_logging_extension/roda_plugin.rb:92 | the server address is the name, `:`, the port, missing parts empty; cutting it at the last `:` gives name and port back when the port holds no `:` |
| RodaPlugin.ServerIpOfEmptyEnv | lib/google_cloud_logging_extension/roda_plugin.rb:92 | with neither name nor port present the server address is `":"` |
| RodaPlugin.UrlHost | lib/google_cloud_logging_extension/roda_plugin.rb:102 | the URL host is `HTTP_HOST` whenever present (even empty), else the server address |
| RodaPlugin.HostAndUriRoundTrip | lib/google_cloud_logging_extension/roda_plugin.rb:102 | host followed by a path or nothing splits back into host and URI when the host holds no `/` |
| RodaPlugin.UrlRoundTrip | lib/google_cloud_logging_extension/roda_plugin.rb:102 | `scheme://host uri` parses back into its three parts when the scheme holds no `:`, the host no `/` and the URI is a path or empty |
| RodaPlugin.RequestUrl | lib/google_cloud_logging_extension/roda_plugin.rb:102 | for every environment the URL is `rack.url_scheme`, `://`, the URL host and `REQUEST_URI` in that order, missing parts empty (`*` and absolute-form targets included); it parses back into those three parts when the scheme holds no `:`, the host no `/` and the URI is a path or empty |
| RodaPlugin.RemoteIp | lib/google_cloud_logging_extension/roda_plugin.rb:105 | the client address is `X-Real-IP` whenever present, else `REMOTE_ADDR`; nil exactly when both are missing |
| RodaPlugin.TruncateToInt | lib/google_cloud_logging_extension/roda_plugin.rb:95-98 | `Float#to_i` truncates toward zero: for x ≥ 0 the result r satisfies 0 ≤ r ≤ x < r + 1, for x < 0 it satisfies r - 1 < x ≤ r ≤ 0 |
| RodaPlugin.LatencySplit | lib/google_cloud_logging_extension/roda_plugin.rb:95-98 | seconds and nanoseconds share the sign of the elapsed time, and the nanoseconds stay below 10^9 in magnitude; the partner lemmas below pin both parts: `LatencySplitBounds` for e ≥ 0 and `LatencySplitNegative` for e < 0 |
| RodaPlugin.LatencySplitBounds | lib/google_cloud_logging_extension/roda_plugin.rb:93-98 | for elapsed time e ≥ 0: seconds = ⌊e⌋, 0 ≤ nanos < 10^9, and seconds + nanos/10^9 ≤ e < seconds + (nanos+1)/10^9 |
| RodaPlugin.LatencyNanosTruncated | lib/google_cloud_logging_extension/roda_plugin.rb:97-98 | 1.9 ns is logged as 1 ns: nanoseconds are truncated, not rounded |
| RodaPlugin.LatencySplitNegative | lib/google_cloud_logging_extension/roda_plugin.rb:95-98 | a negative elapsed time splits toward zero: seconds = -⌊-e⌋, nanos in (-10^9, 0], and e ≤ seconds + nanos/10^9 < e + 10^-9 |
| RodaPlugin.RequestSeverity | lib/google_cloud_logging_extension/roda_plugin.rb:111 | a truthy override always wins; otherwise ERROR exactly when status ≥ 500 and INFO exactly when status < 500 |
| RodaPlugin.RequestLineRoundTrip | lib/google_cloud_logging_extension/roda_plugin.rb:113 | `METHOD URI PROTOCOL` parses back into its parts when method and protocol hold no space |
| RodaPlugin.RequestLine | lib/google_cloud_logging_extension/roda_plugin.rb:113 | for every environment the message line is the method, a space, the URI, a space and the protocol, missing parts empty; it parses back into those three parts when method and protocol hold no space |
| RodaPlugin.WithPayloadField | lib/google_cloud_logging_extension/roda_plugin.rb:74-77 | setting a custom field creates the hash on first use, gives the key the new value and keeps every other field |
| RodaPlugin.LastPayloadValueWins | lib/google_cloud_logging_extension/roda_plugin.rb:74-77 | setting the same field twice leaves the last value |
| RodaPlugin.RequestPayload | lib/google_cloud_logging_extension/roda_plugin.rb:115-116 | the payload has `:message` and the custom keys; custom values win, `:message` included, and the default message survives only when not overridden |
| RodaPlugin.ConfigureSetup | lib/google_cloud_logging_extension/roda_plugin.rb:61-69 | a new writer only when neither writer nor resource is given, with queue size 1000 and resource type `gce_project` unless given; log name `roda` unless given; a level only when a truthy one is given |
| RodaPlugin.RequestDescriptor | lib/google_cloud_logging_extension/roda_plugin.rb:100-109 | the status and latency are the given ones; method, user agent, referer and protocol are the environment's entries, nil exactly when missing; the URL is `RequestUrl`, the server address `ServerIp` and the client address `RemoteIp` of the environment, so it is nil exactly when both of its sources are missing; sizes and cache flags stay nil |
| RodaPlugin.NewHttpRequest | lib/google_cloud_logging_extension/roda_plugin.rb:100-109 | a fresh descriptor holds the nine fields the hook sets; sizes and cache flags stay nil |
| RodaPlugin.RodaRequest.constructor | lib/google_cloud_logging_extension/roda_plugin.rb:73-89 | a new request has no custom payload, no severity override and no clock |
| RodaPlugin.RodaRequest.SetPayload | lib/google_cloud_logging_extension/roda_plugin.rb:74-77 | the custom payload becomes the old one with the field set |
| RodaPlugin.RodaRequest.SetSeverity | lib/google_cloud_logging_extension/roda_plugin.rb:79-81 | the severity override becomes the given value |
| RodaPlugin.RodaRequest.BeforeRequest | lib/google_cloud_logging_extension/roda_plugin.rb:85-89 | the clock is set to the reading when the monotonic raw clock exists, else left as it was |
| RodaPlugin.RodaRequest.WriteRequestEntry | lib/google_cloud_logging_extension/roda_plugin.rb:100-118 | with a logger, one fresh entry is written with the request's descriptor, severity, payload and trace fields |
| RodaPlugin.RodaRequest.AfterRequest | lib/google_cloud_logging_extension/roda_plugin.rb:91-121 | without a start clock nothing is written and nothing escapes; with a clock and a logger exactly one entry is written, its descriptor carrying the URL, addresses, latency split and other fields above |
| RodaPlugin.RodaRequest.AfterRequestIntended | lib/google_cloud_logging_extension/roda_plugin.rb:93-98 | corrected hook: with a logger every request writes one entry; the latency is absent exactly when there is no start clock |
| RodaPlugin.RequestWithoutClock | lib/google_cloud_logging_extension/roda_plugin.rb:86-95 | on a platform without the monotonic raw clock the hook as written writes no entry and the corrected hook writes one |

## Left out

- The client library's own work is not modelled: `Google::Cloud::Logging.new`, `async_writer` with its asynchronous batching, `resource`, and the remote I/O of `writer.write_entries`. The writer is a sink that records each write, and `logging.resource(type)` becomes a record of the type.
- The library helpers `gcloud_severity`, `request_info`, `entry_labels` and `HttpRequest#empty?` have no code in the gem, so they are parameters. Any exception they raise, which the hook's rescue would also swallow, is not modelled either.
- `Time.now`, `Process.clock_gettime` and the `CLOCK_MONOTONIC_RAW` check read the OS, so their results are inputs.
- Clock readings and latency are real numbers, so IEEE floating-point rounding in the subtraction and the multiplication is not modelled.
- LatencySplit: the int64 seconds and int32 nanos of `Google::Protobuf::Duration` are unbounded integers here, so overflow is not modelled.
- Hashes are maps, so Ruby's insertion order of hash keys is not modelled.
- The Rack environment is a map from strings to strings. The hooks read only string-valued entries, and the response status is an integer. `to_s` and `to_i` on field values of other types do not arise, and neither does a `>=` that raises on a non-integer status.
- `Logger#level=` may convert the value it receives; it is library code, so the level is stored as given.
- `configure` builds the client, the writer and the logger and stores the logger in `app.opts`. That is foreign construction: only its option defaults (`ConfigureSetup`) are modelled.
- The Roda plugin registration and the hook naming convention are framework wiring and are not modelled.
- The gem's code does none of the following, so the model leaves them out: redirect sinks, severity-threshold filtering, cause-cycle detection, a root type discriminator, a `full_message` field, and recursive normalisation of nested hashes or arrays.

## Findings

| source | as written | input that shows it | evidently intended | confidence | as-written member | corrected member |
|---|---|---|---|---|---|---|
| lib/google_cloud_logging_extension/roda_plugin.rb:93-95 | without a start clock `latency` is `nil`, `latency - latency.to_i` raises NoMethodError, and the rescue on line 119 drops the whole entry | any request on a platform without `CLOCK_MONOTONIC_RAW` (`BeforeRequest(false, t)`, then `AfterRequest`) | the `@google_cloud_logging_clock &&` guard expects a missing clock, so the entry should still be written, with no latency | medium; not executed | RodaPlugin.RodaRequest.AfterRequest, RodaPlugin.RequestWithoutClock | RodaPlugin.RodaRequest.AfterRequestIntended |
