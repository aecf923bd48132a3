/** The Roda plugin: per-request state (custom payload fields, a severity
    override, the start clock), the before-request hook that reads the
    monotonic clock and the after-request hook that turns the Rack
    environment and the response status into a request log entry.
    The clock reading, the library's helpers and `Time.now` are inputs. */
module RodaPlugin {
  import opened RubyValues
  import opened Strings
  import opened CloudLogging

  /** `"#{env[k]}"`: a missing entry renders as the empty string. */
  function EnvString(env: map<string, string>, k: string): string {
    Interpolate(Lookup(env, k))
  }

  /** `server_ip`: `SERVER_NAME:SERVER_PORT`, with either part empty when the
      environment lacks it. Cutting it at its last `:` gives the two parts
      back whenever the port holds no `:` (an IPv6 server name may). */
  function ServerIp(env: map<string, string>): (r: string)
    ensures var name, port := EnvString(env, "SERVER_NAME"), EnvString(env, "SERVER_PORT");
      && |r| == |name| + 1 + |port|
      && r[..|name|] == name && r[|name|] == ':' && r[|name| + 1..] == port
      && (':' !in port ==> SplitLast(r, ':') == Some((name, port)))
  {
    var name, port := EnvString(env, "SERVER_NAME"), EnvString(env, "SERVER_PORT");
    var r := name + ":" + port;
    if ':' in port then r else SplitLastOfJoin(name, ':', port); r
  }

  /** With neither the server name nor the port in the environment, the
      server address is the lone separator. */
  lemma ServerIpOfEmptyEnv(env: map<string, string>)
    requires "SERVER_NAME" !in env && "SERVER_PORT" !in env
    ensures ServerIp(env) == ":"
  {
    var r := ServerIp(env);
    assert |r| == 1 && r[0] == ':';
  }

  /** The host part of the URL: `HTTP_HOST` whenever the environment has it,
      even when it is empty, and the server address otherwise. */
  function UrlHost(env: map<string, string>): (r: string)
    ensures "HTTP_HOST" in env ==> r == env["HTTP_HOST"]
    ensures "HTTP_HOST" !in env ==> r == ServerIp(env)
  {
    Lookup(env, "HTTP_HOST").GetOr(ServerIp(env))
  }

  /** Whether `uri` can follow a host in a URL and be told apart from it. */
  predicate IsPathOrEmpty(uri: string) {
    uri == "" || uri[0] == '/'
  }

  /** Cuts what follows `//` in a URL into the host, which ends at the first
      `/`, and the request URI, which is the rest. */
  function SplitHostAndUri(hostAndUri: string): (string, string) {
    match SplitFirst(hostAndUri, '/')
    case None => (hostAndUri, "")
    case Some((host, path)) => (host, "/" + path)
  }

  /** Reads a URL built as `scheme://host uri` back into its three parts:
      the scheme ends at the first `:`, and `//` follows it. */
  function ParseUrl(s: string): Option<(string, string, string)> {
    match SplitFirst(s, ':')
    case None => None
    case Some((scheme, rest)) =>
      match StripPrefix(rest, "//")
      case None => None
      case Some(hostAndUri) =>
        var (host, uri) := SplitHostAndUri(hostAndUri);
        Some((scheme, host, uri))
  }

  lemma HostAndUriRoundTrip(host: string, uri: string)
    requires '/' !in host && IsPathOrEmpty(uri)
    ensures SplitHostAndUri(host + uri) == (host, uri)
  {
    if uri == "" {
      assert host + uri == host;
    } else {
      assert host + uri == host + ['/'] + uri[1..];
      SplitFirstOfJoin(host, '/', uri[1..]);
      assert "/" + uri[1..] == uri;
    }
  }

  lemma UrlRoundTrip(scheme: string, host: string, uri: string)
    ensures ':' !in scheme && '/' !in host && IsPathOrEmpty(uri) ==>
      ParseUrl(scheme + "://" + host + uri) == Some((scheme, host, uri))
  {
    if ':' in scheme || '/' in host || !IsPathOrEmpty(uri) { return; }
    var rest := "//" + (host + uri);
    assert scheme + "://" + host + uri == scheme + [':'] + rest;
    SplitFirstOfJoin(scheme, ':', rest);
    StripPrefixOfJoin("//", host + uri);
    HostAndUriRoundTrip(host, uri);
  }

  /** `url`: `rack.url_scheme`, `://`, the host and `REQUEST_URI`, missing
      parts empty, for every environment (`*` or an absolute-form target
      included). It reads back into exactly those parts whenever the scheme
      holds no `:`, the host no `/` and the URI is a path or empty. */
  function RequestUrl(env: map<string, string>): (r: string)
    ensures var scheme, host, uri := EnvString(env, "rack.url_scheme"), UrlHost(env), EnvString(env, "REQUEST_URI");
      && |r| == |scheme| + 3 + |host| + |uri|
      && r[..|scheme|] == scheme && r[|scheme|..|scheme| + 3] == "://"
      && r[|scheme| + 3..|scheme| + 3 + |host|] == host && r[|scheme| + 3 + |host|..] == uri
      && (':' !in scheme && '/' !in host && IsPathOrEmpty(uri) ==> ParseUrl(r) == Some((scheme, host, uri)))
  {
    var scheme, host, uri := EnvString(env, "rack.url_scheme"), UrlHost(env), EnvString(env, "REQUEST_URI");
    UrlRoundTrip(scheme, host, uri);
    scheme + "://" + host + uri
  }

  /** `remote_ip`: the `X-Real-IP` header whenever present, otherwise the
      connection address (`nil` when that is missing too). */
  function RemoteIp(env: map<string, string>): (r: Option<string>)
    ensures "HTTP_X_REAL_IP" in env ==> r == Some(env["HTTP_X_REAL_IP"])
    ensures "HTTP_X_REAL_IP" !in env && "REMOTE_ADDR" in env ==> r == Some(env["REMOTE_ADDR"])
    ensures r.None? <==> "HTTP_X_REAL_IP" !in env && "REMOTE_ADDR" !in env
  {
    if "HTTP_X_REAL_IP" in env then Some(env["HTTP_X_REAL_IP"]) else Lookup(env, "REMOTE_ADDR")
  }

  /** Ruby's `Float#to_i`: truncation toward zero. The result is the integer
      nearest `x` on the side of zero, less than one away from it. */
  function TruncateToInt(x: real): (r: int)
    ensures x >= 0.0 ==> 0 <= r && r as real <= x < r as real + 1.0
    ensures x < 0.0 ==> r <= 0 && r as real - 1.0 < x <= r as real
  {
    if x >= 0.0 then x.Floor else -((-x).Floor)
  }

  /** The `Duration` the after hook builds from an elapsed time in seconds:
      whole seconds by `to_i`, and the fraction times 10^9, again by `to_i`. */
  function LatencySplit(elapsed: real): (d: Duration)
    ensures elapsed >= 0.0 ==> 0 <= d.seconds && 0 <= d.nanos < 1000000000
    ensures elapsed < 0.0 ==> d.seconds <= 0 && -1000000000 < d.nanos <= 0
  {
    var seconds := TruncateToInt(elapsed);
    var fraction := elapsed - seconds as real;
    Duration(seconds, TruncateToInt(fraction * 1000.0 * 1000.0 * 1000.0))
  }

  /** For a non-negative elapsed time the seconds are its floor and the
      nanoseconds lie in [0, 10^9); together they fall short of the elapsed
      time by less than one nanosecond, so the nanoseconds are truncated,
      never rounded up. */
  lemma LatencySplitBounds(elapsed: real)
    requires elapsed >= 0.0
    ensures var d := LatencySplit(elapsed);
      && d.seconds == elapsed.Floor
      && 0 <= d.nanos < 1000000000
      && d.seconds as real + d.nanos as real / 1000000000.0 <= elapsed
      && elapsed < d.seconds as real + (d.nanos + 1) as real / 1000000000.0
  {
    var d := LatencySplit(elapsed);
    var fraction := elapsed - elapsed.Floor as real;
    assert 0.0 <= fraction < 1.0;
    var scaled := fraction * 1000.0 * 1000.0 * 1000.0;
    assert scaled == fraction * 1000000000.0;
    assert 0.0 <= scaled < 1000000000.0;
    assert d.nanos == scaled.Floor;
    assert d.nanos as real <= scaled < d.nanos as real + 1.0;
  }

  /** An elapsed time of 1.9 ns is logged as 1 ns, not rounded to 2. */
  lemma LatencyNanosTruncated()
    ensures LatencySplit(0.0000000019) == Duration(0, 1)
  {
    assert 0.0000000019 * 1000.0 * 1000.0 * 1000.0 == 1.9;
  }

  /** A negative elapsed time (a clock that went backwards) is split toward
      zero: the seconds are minus the floor of its magnitude, the
      nanoseconds lie in (-10^9, 0], and together they exceed the elapsed
      time by less than one nanosecond. */
  lemma LatencySplitNegative(elapsed: real)
    requires elapsed < 0.0
    ensures var d := LatencySplit(elapsed);
      && d.seconds == -((-elapsed).Floor)
      && -1000000000 < d.nanos <= 0
      && elapsed <= d.seconds as real + d.nanos as real / 1000000000.0
      && d.seconds as real + (d.nanos - 1) as real / 1000000000.0 < elapsed
  {
    var d := LatencySplit(elapsed);
    var fraction := elapsed - d.seconds as real;
    assert -1.0 < fraction <= 0.0;
    var scaled := fraction * 1000.0 * 1000.0 * 1000.0;
    assert scaled == fraction * 1000000000.0;
    assert -1000000000.0 < scaled <= 0.0;
    assert d.nanos as real - 1.0 < scaled <= d.nanos as real;
  }

  /** `::Logger::INFO` and `::Logger::ERROR`. */
  const LoggerInfo := 1
  const LoggerError := 3

  /** The severity of the request entry: a truthy override always wins;
      otherwise ERROR exactly when the status is 500 or more, else INFO. */
  function RequestSeverity(override: Value, status: int): (r: Value)
    ensures Truthy(override) ==> r == override
    ensures !Truthy(override) ==> (r == Int(LoggerError) <==> status >= 500)
    ensures !Truthy(override) ==> (r == Int(LoggerInfo) <==> status < 500)
  {
    if Truthy(override) then override
    else if status >= 500 then Int(LoggerError) else Int(LoggerInfo)
  }

  /** Reads a request line `METHOD URI PROTOCOL` back: the method ends at the
      first space, the protocol starts after the last one. */
  function ParseRequestLine(s: string): Option<(string, string, string)> {
    match SplitFirst(s, ' ')
    case None => None
    case Some((verb, rest)) =>
      match SplitLast(rest, ' ')
      case None => None
      case Some((uri, protocol)) => Some((verb, uri, protocol))
  }

  /** The message line `METHOD URI PROTOCOL`, missing parts empty. It reads
      back into exactly those parts whenever the method and the protocol
      hold no space. */
  function RequestLine(env: map<string, string>): (r: string)
    ensures var verb, uri, protocol :=
        EnvString(env, "REQUEST_METHOD"), EnvString(env, "REQUEST_URI"), EnvString(env, "SERVER_PROTOCOL");
      && |r| == |verb| + 1 + |uri| + 1 + |protocol|
      && r[..|verb|] == verb && r[|verb|] == ' '
      && r[|verb| + 1..|verb| + 1 + |uri|] == uri && r[|verb| + 1 + |uri|] == ' '
      && r[|verb| + 2 + |uri|..] == protocol
      && (' ' !in verb && ' ' !in protocol ==> ParseRequestLine(r) == Some((verb, uri, protocol)))
  {
    var verb, uri, protocol :=
      EnvString(env, "REQUEST_METHOD"), EnvString(env, "REQUEST_URI"), EnvString(env, "SERVER_PROTOCOL");
    RequestLineRoundTrip(verb, uri, protocol);
    verb + " " + uri + " " + protocol
  }

  lemma RequestLineRoundTrip(verb: string, uri: string, protocol: string)
    ensures ' ' !in verb && ' ' !in protocol ==>
      ParseRequestLine(verb + " " + uri + " " + protocol) == Some((verb, uri, protocol))
  {
    if ' ' in verb || ' ' in protocol { return; }
    var rest := uri + [' '] + protocol;
    assert verb + " " + uri + " " + protocol == verb + [' '] + rest;
    SplitFirstOfJoin(verb, ' ', rest);
    SplitLastOfJoin(uri, ' ', protocol);
  }

  const MessageField := Sym("message")

  /** The keys of the custom payload, none before the first custom field. */
  function CustomKeys(custom: Option<map<Key, Value>>): set<Key> {
    if custom.Some? then custom.value.Keys else {}
  }

  /** The custom payload after `cloud_logging_set_payload(key, value)`: the
      hash is created on first use, `key` now holds `value`, and every other
      field keeps its value. */
  function WithPayloadField(custom: Option<map<Key, Value>>, key: Key, value: Value): (r: map<Key, Value>)
    ensures r.Keys == CustomKeys(custom) + {key}
    ensures r[key] == value
    ensures forall k :: k in CustomKeys(custom) && k != key ==> r[k] == custom.value[k]
  {
    custom.GetOr(map[])[key := value]
  }

  /** Setting the same field twice leaves only the last value. */
  lemma LastPayloadValueWins(custom: Option<map<Key, Value>>, key: Key, first: Value, second: Value)
    ensures WithPayloadField(Some(WithPayloadField(custom, key, first)), key, second)
         == WithPayloadField(custom, key, second)
  {
  }

  /** The payload of the request entry: `{message: line}` merged with the
      custom fields. Custom fields, `:message` included, win; the default
      message survives only when no custom field replaces it. */
  function RequestPayload(line: string, custom: Option<map<Key, Value>>): (r: map<Key, Value>)
    ensures r.Keys == {MessageField} + CustomKeys(custom)
    ensures forall k :: k in CustomKeys(custom) ==> r[k] == custom.value[k]
    ensures MessageField !in CustomKeys(custom) ==> r[MessageField] == Str(line)
  {
    var payload := map[MessageField := Str(line)];
    if custom.Some? then payload + custom.value else payload
  }

  /** The plugin options `configure` reads. The writer and the resource are
      foreign objects; only whether they were given matters here. */
  datatype PluginOptions = PluginOptions(
    writerGiven: bool,
    resourceGiven: bool,
    maxQueueSize: Option<int>,
    resourceId: Option<string>,
    logName: Option<string>,
    level: Value)

  /** What `configure` derives from the options: the queue size and resource
      type of a new client's writer when it builds one, the log name and the
      level it assigns (`None`: left as the library set it). */
  datatype LoggerSetup = LoggerSetup(
    newWriter: Option<(int, string)>,
    logName: string,
    level: Option<Value>)

  /** `configure`'s defaults: a new client, with queue size 1000 and resource
      type `gce_project` unless given, only when neither a writer nor a
      resource is supplied; log name `roda` unless given; a level only when
      a truthy one is given. */
  function ConfigureSetup(opts: PluginOptions): (r: LoggerSetup)
    ensures r.newWriter.Some? <==> !opts.writerGiven && !opts.resourceGiven
    ensures r.newWriter.Some? && opts.maxQueueSize.Some? ==> r.newWriter.value.0 == opts.maxQueueSize.value
    ensures r.newWriter.Some? && opts.maxQueueSize.None? ==> r.newWriter.value.0 == 1000
    ensures r.newWriter.Some? && opts.resourceId.Some? ==> r.newWriter.value.1 == opts.resourceId.value
    ensures r.newWriter.Some? && opts.resourceId.None? ==> r.newWriter.value.1 == "gce_project"
    ensures opts.logName.Some? ==> r.logName == opts.logName.value
    ensures opts.logName.None? ==> r.logName == "roda"
    ensures r.level.Some? <==> Truthy(opts.level)
    ensures r.level.Some? ==> r.level.value == opts.level
  {
    LoggerSetup(
      newWriter := if !opts.writerGiven && !opts.resourceGiven
                   then Some((opts.maxQueueSize.GetOr(1000), opts.resourceId.GetOr("gce_project")))
                   else None,
      logName := opts.logName.GetOr("roda"),
      level := if Truthy(opts.level) then Some(opts.level) else None)
  }

  /** The descriptor the after hook fills in: the method, the URL, the
      status, the user agent, the client address, the server address, the
      referer, the latency and the protocol; sizes and cache flags stay
      `nil`. */
  function RequestDescriptor(env: map<string, string>, status: int, latency: Option<Duration>): (r: HttpRequestFields)
    ensures r.size.None? && r.responseSize.None? && r.cacheHit == Nil && r.validated == Nil
    ensures r.status == Some(status) && r.latency == latency
    ensures r.requestMethod.Some? <==> "REQUEST_METHOD" in env
    ensures r.userAgent.Some? <==> "HTTP_USER_AGENT" in env
    ensures r.referer.Some? <==> "HTTP_REFERER" in env
    ensures r.protocol.Some? <==> "SERVER_PROTOCOL" in env
    ensures r.requestMethod.Some? ==> r.requestMethod.value == env["REQUEST_METHOD"]
    ensures r.userAgent.Some? ==> r.userAgent.value == env["HTTP_USER_AGENT"]
    ensures r.referer.Some? ==> r.referer.value == env["HTTP_REFERER"]
    ensures r.protocol.Some? ==> r.protocol.value == env["SERVER_PROTOCOL"]
    ensures r.url == Some(RequestUrl(env)) && r.serverIp == Some(ServerIp(env))
    ensures r.remoteIp == RemoteIp(env)
    ensures r.remoteIp.None? <==> "HTTP_X_REAL_IP" !in env && "REMOTE_ADDR" !in env
  {
    HttpRequestFields(
      requestMethod := Lookup(env, "REQUEST_METHOD"),
      url := Some(RequestUrl(env)),
      size := None,
      status := Some(status),
      responseSize := None,
      userAgent := Lookup(env, "HTTP_USER_AGENT"),
      remoteIp := RemoteIp(env),
      referer := Lookup(env, "HTTP_REFERER"),
      serverIp := Some(ServerIp(env)),
      latency := latency,
      protocol := Lookup(env, "SERVER_PROTOCOL"),
      cacheHit := Nil,
      validated := Nil)
  }

  /** A new `Entry::HttpRequest` whose nine fields the after hook sets are
      filled one by one from `d`; the sizes and cache flags, which it does
      not set, stay `nil`. */
  method NewHttpRequest(d: HttpRequestFields)
    returns (httpRequest: HttpRequest)
    requires d.size.None? && d.responseSize.None? && d.cacheHit == Nil && d.validated == Nil
    ensures fresh(httpRequest)
    ensures httpRequest.Fields() == d
  {
    httpRequest := new HttpRequest();
    httpRequest.requestMethod := d.requestMethod;
    httpRequest.url := d.url;
    httpRequest.status := d.status;
    httpRequest.userAgent := d.userAgent;
    httpRequest.remoteIp := d.remoteIp;
    httpRequest.serverIp := d.serverIp;
    httpRequest.referer := d.referer;
    httpRequest.latency := d.latency;
    httpRequest.protocol := d.protocol;
  }

  /** A Roda request instance: its Rack environment, the application's
      logger (`opts[:google_cloud_logger]`, possibly absent) and the three
      instance variables the plugin keeps, all `nil` on a new request. */
  class RodaRequest {
    const env: map<string, string>
    const logger: Logger?
    var customPayload: Option<map<Key, Value>>
    var severity: Value
    var clock: Option<real>

    constructor(env: map<string, string>, logger: Logger?)
      ensures this.env == env && this.logger == logger
      ensures customPayload.None? && severity == Nil && clock.None?
    {
      this.env, this.logger := env, logger;
      customPayload, severity, clock := None, Nil, None;
    }

    /** `cloud_logging_set_payload`. */
    method SetPayload(key: Key, value: Value)
      modifies this`customPayload
      ensures customPayload == Some(WithPayloadField(old(customPayload), key, value))
    {
      var custom := if customPayload.Some? then customPayload.value else map[];
      custom := custom[key := value];
      customPayload := Some(custom);
    }

    /** `cloud_logging_set_severity`. */
    method SetSeverity(value: Value)
      modifies this`severity
      ensures severity == value
    {
      severity := value;
    }

    /** The before-request hook: records `now`, the reading of the monotonic
      raw clock, when the platform has that clock, and otherwise leaves the
      clock unset. */
    method BeforeRequest(hasMonotonicRaw: bool, now: real)
      modifies this`clock
      ensures clock == if hasMonotonicRaw then Some(now) else old(clock)
    {
      if !hasMonotonicRaw {
        return;
      }
      clock := Some(now);
    }

    /** The last write of `logger` is the one entry describing this
        request, appended to the writes `before`: its log name, resource and
        labels, its timestamp, its severity (the library's reading of the
        override or of the status), its payload (the request line merged
        with the custom fields), its trace fields and its request
        descriptor (with `latency`). */
    ghost predicate WroteRequestEntry(before: seq<Write>, status: int, latency: Option<Duration>,
                                      timestamp: int, info: Option<RequestInfo>,
                                      gcloudSeverity: Value -> Value,
                                      entryLabels: Option<RequestInfo> -> map<Key, Value>)
      requires logger != null
      reads *
    {
      && |logger.writes| == |before| + 1
      && logger.writes[..|before|] == before
      && var w := logger.writes[|before|];
         && w.logName == ActualLogName(logger.logName, info)
         && w.resource == logger.resource
         && w.labels == entryLabels(info)
         && w.entry.timestamp == Some(timestamp)
         && w.entry.severity == gcloudSeverity(RequestSeverity(severity, status))
         && w.entry.payload == Hash(RequestPayload(RequestLine(env), customPayload))
         && w.entry.trace == EntryTrace(logger.project, info)
         && w.entry.traceSampled == EntryTraceSampled(info)
         && w.entry.httpRequest != null
         && w.entry.httpRequest.Fields() == RequestDescriptor(env, status, latency)
    }

    /** Builds the request descriptor, the severity and the payload and
        hands them to the logger, when there is one. */
    method WriteRequestEntry(status: int, latency: Option<Duration>, timestamp: int,
                             info: Option<RequestInfo>,
                             gcloudSeverity: Value -> Value,
                             entryLabels: Option<RequestInfo> -> map<Key, Value>)
      modifies logger
      ensures logger != null ==> logger.level == old(logger.level)
      ensures logger != null ==>
        && WroteRequestEntry(old(logger.writes), status, latency, timestamp, info, gcloudSeverity, entryLabels)
        && fresh(logger.writes[|logger.writes| - 1].entry)
        && fresh(logger.writes[|logger.writes| - 1].entry.httpRequest)
    {
      var httpRequest := NewHttpRequest(RequestDescriptor(env, status, latency));
      var entrySeverity := RequestSeverity(severity, status);
      var message := RequestLine(env);
      var payload := RequestPayload(message, customPayload);
      if logger != null {
        logger.WriteEntryWithHttpRequest(entrySeverity, Hash(payload), httpRequest,
                                         timestamp, info, gcloudSeverity, entryLabels);
      }
    }

    /** The after-request hook for a response with `status`, as written.
        `now` is the monotonic clock's second reading and `timestamp` what
        `Time.now` gives; `info`, `gcloudSeverity` and `entryLabels` stand
        for the library's helpers. With no start clock the latency is `nil`,
        the subtraction on it raises and the rescue swallows it: nothing is
        written. With no logger nothing is written either. Otherwise exactly
        one entry describing the request is written. */
    method AfterRequest(status: int, now: real, timestamp: int, info: Option<RequestInfo>,
                        gcloudSeverity: Value -> Value,
                        entryLabels: Option<RequestInfo> -> map<Key, Value>)
      modifies logger
      ensures logger != null ==> logger.level == old(logger.level)
      ensures logger != null && clock.None? ==> logger.writes == old(logger.writes)
      ensures logger != null && clock.Some? ==>
        && WroteRequestEntry(old(logger.writes), status, Some(LatencySplit(now - clock.value)),
                             timestamp, info, gcloudSeverity, entryLabels)
        && fresh(logger.writes[|logger.writes| - 1].entry)
        && fresh(logger.writes[|logger.writes| - 1].entry.httpRequest)
    {
      if clock.None? {
        // `nil - nil.to_i` raises NoMethodError; `rescue StandardError` drops the entry.
        return;
      }
      var latency := now - clock.value;
      var latencyDuration := LatencySplit(latency);
      WriteRequestEntry(status, Some(latencyDuration), timestamp, info, gcloudSeverity, entryLabels);
    }

    /** The after-request hook as its `@google_cloud_logging_clock &&` guard
        intends it: without a start clock the entry is still written, with
        no latency. Every request is logged when there is a logger. */
    method AfterRequestIntended(status: int, now: real, timestamp: int, info: Option<RequestInfo>,
                                gcloudSeverity: Value -> Value,
                                entryLabels: Option<RequestInfo> -> map<Key, Value>)
      modifies logger
      ensures logger != null ==> logger.level == old(logger.level)
      ensures logger != null ==>
        && WroteRequestEntry(old(logger.writes), status,
                             if clock.Some? then Some(LatencySplit(now - clock.value)) else None,
                             timestamp, info, gcloudSeverity, entryLabels)
        && fresh(logger.writes[|logger.writes| - 1].entry)
        && fresh(logger.writes[|logger.writes| - 1].entry.httpRequest)
    {
      var latencyDuration := if clock.Some? then Some(LatencySplit(now - clock.value)) else None;
      WriteRequestEntry(status, latencyDuration, timestamp, info, gcloudSeverity, entryLabels);
    }
  }

  /** A request on a platform without the monotonic raw clock: the hook as
      written logs nothing for it, the intended hook logs one entry. */
  method RequestWithoutClock(env: map<string, string>, status: int, timestamp: int)
    returns (writtenAsIs: nat, writtenIntended: nat)
    ensures writtenAsIs == 0 && writtenIntended == 1
  {
    var logger := new Logger("roda", Resource("gce_project"), map[], None, 1000);
    var request := new RodaRequest(env, logger);
    request.BeforeRequest(false, 0.0);
    request.AfterRequest(status, 1.0, timestamp, None, v => v, i => map[]);
    writtenAsIs := |logger.writes|;

    var otherLogger := new Logger("roda", Resource("gce_project"), map[], None, 1000);
    var otherRequest := new RodaRequest(env, otherLogger);
    otherRequest.BeforeRequest(false, 0.0);
    otherRequest.AfterRequestIntended(status, 1.0, timestamp, None, v => v, i => map[]);
    writtenIntended := |otherLogger.writes|;
  }
}
