/** The Cloud Logging library classes the extension reopens: `Entry` (its
    `payload=` setter), `Entry::HttpRequest` (`to_grpc`), `Logger`
    (`write_entry_with_http_request`) and the `Logging.create` factory.
    The library's own machinery (the async writer, the protobuf classes,
    `gcloud_severity`, `request_info`, `entry_labels`, `empty?`) is not
    modelled: the writer is a sink that records what it receives, the
    protobuf messages are datatypes, and the helpers are parameters. */
module CloudLogging {
  import opened RubyValues
  import opened Strings
  import opened ExceptionPayloads

  /** `Google::Protobuf::Duration`. */
  datatype Duration = Duration(seconds: int, nanos: int)

  /** The monitored resource built by `logging.resource(type)`. */
  datatype Resource = Resource(resourceType: string)

  /** What the library's `request_info` knows about the current request. */
  datatype RequestInfo = RequestInfo(
    traceId: Option<string>,
    logName: Option<string>,
    traceSampled: Option<bool>)

  /** `Google::Cloud::Logging::Type::HttpRequest`, the wire record. */
  datatype GrpcHttpRequest = GrpcHttpRequest(
    requestMethod: string,
    requestUrl: string,
    requestSize: int,
    status: int,
    responseSize: int,
    userAgent: string,
    remoteIp: string,
    referer: string,
    serverIp: string,
    latency: Option<Duration>,
    protocol: string,
    cacheHit: bool,
    cacheValidatedWithOriginServer: bool)

  /** `x.to_s` for a string-or-nil field: the string, or "" for nil. */
  predicate CoercedString(field: Option<string>, s: string) {
    if field.Some? then s == field.value else s == ""
  }

  /** `x.to_i` for an integer-or-nil field: the integer, or 0 for nil. */
  predicate CoercedInt(field: Option<int>, n: int) {
    if field.Some? then n == field.value else n == 0
  }

  function ToS(o: Option<string>): (s: string)
    ensures CoercedString(o, s)
  {
    Interpolate(o)
  }

  function ToI(o: Option<int>): (n: int)
    ensures CoercedInt(o, n)
  {
    o.GetOr(0)
  }

  /** The fields of an `Entry::HttpRequest` at one moment. */
  datatype HttpRequestFields = HttpRequestFields(
    requestMethod: Option<string>,
    url: Option<string>,
    size: Option<int>,
    status: Option<int>,
    responseSize: Option<int>,
    userAgent: Option<string>,
    remoteIp: Option<string>,
    referer: Option<string>,
    serverIp: Option<string>,
    latency: Option<Duration>,
    protocol: Option<string>,
    cacheHit: Value,
    validated: Value)

  /** `Entry::HttpRequest`, filled field by field; every field starts `nil`. */
  class HttpRequest {
    var requestMethod: Option<string>
    var url: Option<string>
    var size: Option<int>
    var status: Option<int>
    var responseSize: Option<int>
    var userAgent: Option<string>
    var remoteIp: Option<string>
    var referer: Option<string>
    var serverIp: Option<string>
    var latency: Option<Duration>
    var protocol: Option<string>
    var cacheHit: Value
    var validated: Value

    constructor()
      ensures requestMethod.None? && url.None? && size.None? && status.None?
      ensures responseSize.None? && userAgent.None? && remoteIp.None?
      ensures referer.None? && serverIp.None? && latency.None? && protocol.None?
      ensures cacheHit == Nil && validated == Nil
    {
      requestMethod, url, size, status := None, None, None, None;
      responseSize, userAgent, remoteIp := None, None, None;
      referer, serverIp, latency, protocol := None, None, None, None;
      cacheHit, validated := Nil, Nil;
    }

    function Fields(): HttpRequestFields
      reads this
    {
      HttpRequestFields(requestMethod, url, size, status, responseSize, userAgent,
                        remoteIp, referer, serverIp, latency, protocol, cacheHit, validated)
    }

    /** `to_grpc`: no record for an empty descriptor (`empty` is the
        library's `empty?`); otherwise every string field is coerced with
        `to_s`, every integer field with `to_i`, the latency is passed on,
        and the two cache flags are `true` exactly when the field is truthy. */
    function ToGrpc(empty: bool): (r: Option<GrpcHttpRequest>)
      reads this
      ensures r.None? <==> empty
      ensures r.Some? ==>
        && CoercedString(requestMethod, r.value.requestMethod)
        && CoercedString(url, r.value.requestUrl)
        && CoercedInt(size, r.value.requestSize)
        && CoercedInt(status, r.value.status)
        && CoercedInt(responseSize, r.value.responseSize)
        && CoercedString(userAgent, r.value.userAgent)
        && CoercedString(remoteIp, r.value.remoteIp)
        && CoercedString(referer, r.value.referer)
        && CoercedString(serverIp, r.value.serverIp)
        && r.value.latency == latency
        && CoercedString(protocol, r.value.protocol)
        && (r.value.cacheHit <==> Truthy(cacheHit))
        && (r.value.cacheValidatedWithOriginServer <==> Truthy(validated))
    {
      if empty then None
      else Some(GrpcHttpRequest(
        requestMethod := ToS(requestMethod),
        requestUrl := ToS(url),
        requestSize := ToI(size),
        status := ToI(status),
        responseSize := ToI(responseSize),
        userAgent := ToS(userAgent),
        remoteIp := ToS(remoteIp),
        referer := ToS(referer),
        serverIp := ToS(serverIp),
        latency := latency,
        protocol := ToS(protocol),
        cacheHit := Truthy(cacheHit),
        cacheValidatedWithOriginServer := Truthy(validated)))
    }
  }

  /** `Entry`: the fields the extension touches. The timestamp is the
      instant `Time.now` returned, as a number. Of the starting values only
      those of `trace` and `trace_sampled` matter, which are `nil` and are
      set only conditionally; the other fields are assigned before they are
      read, and their `nil` start is this model's choice. */
  class Entry {
    var timestamp: Option<int>
    var severity: Value
    var payload: Value
    var trace: Option<string>
    var traceSampled: Option<bool>
    var httpRequest: HttpRequest?

    constructor()
      ensures timestamp.None? && severity == Nil && payload == Nil
      ensures trace.None? && traceSampled.None? && httpRequest == null
    {
      timestamp, severity, payload := None, Nil, Nil;
      trace, traceSampled, httpRequest := None, None, null;
    }

    /** `payload=`: an exception is stored as its payload hash, any other
        value as it is; nothing else in the entry changes. */
    method SetPayload(value: Value)
      modifies this`payload
      ensures payload == PayloadFor(value)
    {
      payload := PayloadFor(value);
    }
  }

  /** The trace name `projects/{project}/traces/{trace_id}`. */
  function TraceName(project: string, traceId: string): (r: string)
    ensures |r| == |"projects/"| + |project| + |"/traces/"| + |traceId|
    ensures r[..9] == "projects/" && r[9..9 + |project|] == project
    ensures r[9 + |project|..17 + |project|] == "/traces/" && r[17 + |project|..] == traceId
  {
    "projects/" + project + "/traces/" + traceId
  }

  /** Reads a trace name back into its project and trace id. */
  function ParseTraceName(s: string): Option<(string, string)> {
    match StripPrefix(s, "projects/")
    case None => None
    case Some(rest) =>
      match SplitFirst(rest, '/')
      case None => None
      case Some((project, tail)) =>
        match StripPrefix(tail, "traces/")
        case None => None
        case Some(traceId) => Some((project, traceId))
  }

  /** A trace name gives back its project and trace id whenever the project
      id holds no `/` (Cloud project ids never do). */
  lemma TraceNameRoundTrip(project: string, traceId: string)
    ensures '/' !in project ==> ParseTraceName(TraceName(project, traceId)) == Some((project, traceId))
  {
    if '/' in project { return; }
    var tail := "traces/" + traceId;
    var rest := project + ['/'] + tail;
    assert TraceName(project, traceId) == "projects/" + rest;
    StripPrefixOfJoin("projects/", rest);
    SplitFirstOfJoin(project, '/', tail);
    StripPrefixOfJoin("traces/", traceId);
  }

  /** The `trace` of the entry: set only when there is request information,
      it has a trace id and the logger knows its project; it then names
      exactly that project and trace id. */
  function EntryTrace(project: Option<string>, info: Option<RequestInfo>): (r: Option<string>)
    ensures r.Some? <==> info.Some? && info.value.traceId.Some? && project.Some?
    ensures r.Some? && '/' !in project.value ==>
      ParseTraceName(r.value) == Some((project.value, info.value.traceId.value))
  {
    if info.Some? && info.value.traceId.Some? && project.Some? then
      TraceNameRoundTrip(project.value, info.value.traceId.value);
      Some(TraceName(project.value, info.value.traceId.value))
    else None
  }

  /** The log name an entry is written under: the request information's
      override when there is one, the logger's own name otherwise. */
  function ActualLogName(defaultName: string, info: Option<RequestInfo>): (r: string)
    ensures info.Some? && info.value.logName.Some? ==> r == info.value.logName.value
    ensures info.None? || info.value.logName.None? ==> r == defaultName
  {
    if info.Some? then info.value.logName.GetOr(defaultName) else defaultName
  }

  /** The sampling flag of the entry: copied from the request information
      (the entry's own flag is always `nil` on a new entry). */
  function EntryTraceSampled(info: Option<RequestInfo>): (r: Option<bool>)
    ensures info.Some? ==> r == info.value.traceSampled
    ensures info.None? ==> r.None?
  {
    if info.Some? then info.value.traceSampled else None
  }

  /** One call of `writer.write_entries`, as the sink records it. */
  datatype Write = Write(entry: Entry, logName: string, resource: Resource, labels: map<Key, Value>)

  /** `Logger`: its name, resource, labels and project are fixed at
      construction; `level` is `None` until this code assigns it (the
      library's own default is not modelled); `writes` is the writer's
      sink, every entry handed to it in order. */
  class Logger {
    const logName: string
    const resource: Resource
    const labels: map<Key, Value>
    const project: Option<string>
    const maxQueueSize: int
    var level: Option<Value>
    var writes: seq<Write>

    constructor(logName: string, resource: Resource, labels: map<Key, Value>,
                project: Option<string>, maxQueueSize: int)
      ensures this.logName == logName && this.resource == resource && this.labels == labels
      ensures this.project == project && this.maxQueueSize == maxQueueSize
      ensures level.None? && writes == []
    {
      this.logName, this.resource, this.labels := logName, resource, labels;
      this.project, this.maxQueueSize := project, maxQueueSize;
      level, writes := None, [];
    }

    /** `writer.write_entries`: the sink records the entry and its options. */
    method WriteEntries(entry: Entry, logName: string, resource: Resource, labels: map<Key, Value>)
      modifies this`writes
      ensures writes == old(writes) + [Write(entry, logName, resource, labels)]
    {
      writes := writes + [Write(entry, logName, resource, labels)];
    }

    /** `write_entry_with_http_request`: builds a new entry stamped `now`,
        with the library's severity for `severity`, the payload as
        `payload=` stores it and the given request descriptor; adds the
        trace fields from `info`; and hands it to the writer under the
        resolved log name and `entryLabels(info)`. `gcloudSeverity`,
        `info` and `entryLabels` stand for the library's helpers. */
    method WriteEntryWithHttpRequest(severity: Value, message: Value, httpRequest: HttpRequest,
                                     now: int, info: Option<RequestInfo>,
                                     gcloudSeverity: Value -> Value,
                                     entryLabels: Option<RequestInfo> -> map<Key, Value>)
      modifies this`writes
      ensures |writes| == |old(writes)| + 1 && writes[..|old(writes)|] == old(writes)
      ensures var w := writes[|writes| - 1];
        && fresh(w.entry)
        && w.logName == ActualLogName(logName, info)
        && w.resource == resource
        && w.labels == entryLabels(info)
        && w.entry.timestamp == Some(now)
        && w.entry.severity == gcloudSeverity(severity)
        && w.entry.payload == PayloadFor(message)
        && w.entry.httpRequest == httpRequest
        && w.entry.trace == EntryTrace(project, info)
        && w.entry.traceSampled == EntryTraceSampled(info)
    {
      var entry := new Entry();
      entry.timestamp := Some(now);
      entry.severity := gcloudSeverity(severity);
      entry.SetPayload(message);
      entry.httpRequest := httpRequest;

      var actualLogName := logName;
      if info.Some? {
        actualLogName := if info.value.logName.Some? then info.value.logName.value else actualLogName;
        if !(info.value.traceId.None? || project.None?) {
          entry.trace := Some(TraceName(project.value, info.value.traceId.value));
        }
        if entry.traceSampled.None? {
          entry.traceSampled := info.value.traceSampled;
        }
      }
      WriteEntries(entry, actualLogName, resource, entryLabels(info));
    }
  }

  const LevelKey := Sym("level")

  /** `Logging.create`: a logger on a new async writer of capacity 1000 whose
      labels are the given ones without `:level`; a truthy `:level` label
      becomes the logger's level, and otherwise the level is left as the
      library set it. `project` is the project the new client reports. */
  method Create(logName: string, labels: map<Key, Value>, project: Option<string>,
                resourceType: string := "gce_project")
    returns (logger: Logger)
    ensures fresh(logger)
    ensures logger.logName == logName && logger.resource == Resource(resourceType)
    ensures logger.project == project && logger.maxQueueSize == 1000 && logger.writes == []
    ensures logger.labels.Keys == labels.Keys - {LevelKey}
    ensures forall k :: k in logger.labels ==> logger.labels[k] == labels[k]
    ensures LevelKey in labels && Truthy(labels[LevelKey]) ==> logger.level == Some(labels[LevelKey])
    ensures !(LevelKey in labels && Truthy(labels[LevelKey])) ==> logger.level.None?
  {
    var rest := labels;
    var level := Nil;
    if LevelKey in rest {
      level := rest[LevelKey];
      rest := rest - {LevelKey};
    }
    logger := new Logger(logName, Resource(resourceType), rest, project, 1000);
    if Truthy(level) {
      logger.level := Some(level);
    }
  }
}
