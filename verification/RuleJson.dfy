/** Rules as JSON documents: what `JSON.stringify` makes of a stored rule. */
module RuleJson {
  import opened Common
  import opened JsonModel
  import opened RuleTypes

  type Fields = map<string, Json>

  /** An optional member is left out when it is absent. */
  function With(fields: Fields, key: string, value: Option<Json>): Fields {
    if value.Some? then fields[key := value.value] else fields
  }

  function StrJson(s: Option<string>): Option<Json> {
    if s.Some? then Some(Str(s.value)) else None
  }

  function IntJson(n: Option<int>): Option<Json> {
    if n.Some? then Some(Number(n.value as real)) else None
  }

  function MapJson(m: StringMap): Json {
    Obj(map k | k in m :: Str(m[k]))
  }

  function OptMapJson(m: Option<StringMap>): Option<Json> {
    if m.Some? then Some(MapJson(m.value)) else None
  }

  function MatcherJson(m: Matcher): Json
    decreases m, 1, 0
  {
    match m
    case Regex(field, pattern, flags) =>
      Obj(With(map["type" := Str("regex"), "field" := Str(field), "pattern" := Str(pattern)], "flags", StrJson(flags)))
    case All(conditions) => Obj(map["type" := Str("all"), "conditions" := Arr(ConditionsJson(conditions))])
    case Any(conditions) => Obj(map["type" := Str("any"), "conditions" := Arr(ConditionsJson(conditions))])
    case Not(condition) => Obj(map["type" := Str("not"), "condition" := MatcherJson(condition)])
    case Script(source, timeoutMs) =>
      Obj(With(map["type" := Str("script"), "language" := Str("javascript"), "source" := Str(source)],
               "timeoutMs", IntJson(timeoutMs)))
  }

  function ConditionsJson(conditions: seq<Matcher>): (r: seq<Json>)
    ensures |r| == |conditions|
    decreases conditions, 0, |conditions|
  {
    if conditions == [] then [] else [MatcherJson(conditions[0])] + ConditionsJson(conditions[1..])
  }

  function DelayJson(d: Delay): Json {
    Obj(With(map["durationMs" := Number(d.durationMs as real)], "mode",
             if d.mode.None? then None else Some(Str(if d.mode.value.Fixed? then "fixed" else "total"))))
  }

  function FaultJson(f: FaultSpec): Json {
    match f
    case HttpResponse(statusCode, headers, body) =>
      Obj(With(With(map["kind" := Str("http_response"), "statusCode" := Number(statusCode as real)],
                    "headers", OptMapJson(headers)), "body", StrJson(body)))
    case GrpcStatus(status, message, metadata) =>
      Obj(With(With(map["kind" := Str("grpc_status"), "status" := Number(status as real)],
                    "message", StrJson(message)), "metadata", OptMapJson(metadata)))
    case Connection(mode) =>
      Obj(map["kind" := Str("connection"), "mode" := Str(if mode.Close? then "close" else "reset")])
    case Timeout(durationMs) => Obj(With(map["kind" := Str("timeout")], "durationMs", IntJson(durationMs)))
  }

  function MockJson(m: Mock): Json {
    match m
    case HttpMock(statusCode, headers, body) =>
      Obj(With(With(map["statusCode" := Number(statusCode as real)], "headers", OptMapJson(headers)),
               "body", StrJson(body)))
    case GrpcMock(grpcStatus, grpcMessage, messages, metadata) =>
      Obj(With(With(With(map["grpcStatus" := Number(grpcStatus as real)], "grpcMessage", StrJson(grpcMessage)),
                    "messages", if messages.Some? then Some(Arr(messages.value)) else None),
               "metadata", OptMapJson(metadata)))
  }

  function OperationJson(op: RewriteOperation): Json {
    match op
    case SetHeader(name, value) => Obj(map["op" := Str("set_header"), "name" := Str(name), "value" := Str(value)])
    case RemoveHeader(name) => Obj(map["op" := Str("remove_header"), "name" := Str(name)])
    case SetPath(value) => Obj(map["op" := Str("set_path"), "value" := Str(value)])
    case SetQuery(value) => Obj(map["op" := Str("set_query"), "value" := Str(value)])
    case ReplaceBody(from, to) => Obj(map["op" := Str("replace_body"), "from" := Str(from), "to" := Str(to)])
  }

  function OperationsJson(operations: seq<RewriteOperation>): seq<Json> {
    seq(|operations|, i requires 0 <= i < |operations| => OperationJson(operations[i]))
  }

  function RequestActionJson(a: RequestAction): Json {
    match a
    case MockResponse(response) => Obj(map["type" := Str("mock_response"), "response" := MockJson(response)])
    case RequestFault(fault) => Obj(map["type" := Str("fault"), "fault" := FaultJson(fault)])
    case RequestRewrite(operations) =>
      Obj(map["type" := Str("request_rewrite"), "operations" := Arr(OperationsJson(operations))])
  }

  function ResponseActionJson(a: ResponseAction): Json {
    match a
    case ResponseFault(fault) => Obj(map["type" := Str("fault"), "fault" := FaultJson(fault)])
    case ResponseReplace(target, from, to) =>
      Obj(map["type" := Str("response_replace"), "target" := Str(target), "from" := Str(from), "to" := Str(to)])
    case ScriptManipulator(source, timeoutMs) =>
      Obj(With(map["type" := Str("script_manipulator"), "language" := Str("javascript"), "source" := Str(source)],
               "timeoutMs", IntJson(timeoutMs)))
  }

  function OptDelayJson(d: Option<Delay>): Option<Json> {
    if d.Some? then Some(DelayJson(d.value)) else None
  }

  function RequestJson(s: RequestStage): Json {
    Obj(With(With(map[], "delay", OptDelayJson(s.delay)), "action",
             if s.action.Some? then Some(RequestActionJson(s.action.value)) else None))
  }

  function ResponseJson(s: ResponseStage): Json {
    Obj(With(With(With(map[], "match", if s.match_.Some? then Some(MatcherJson(s.match_.value)) else None),
                  "delay", OptDelayJson(s.delay)),
             "action", if s.action.Some? then Some(ResponseActionJson(s.action.value)) else None))
  }

  function ConsumeJson(c: ConsumeSpec): Json {
    Obj(With(map["times" := Number(c.times as real)], "resetAfterMs", IntJson(c.resetAfterMs)))
  }

  function ProtocolName(p: Protocol): string {
    if p.Http? then "http" else "grpc"
  }

  /** The members every rule has. */
  function Required(rule: Rule): Fields {
    map[
      "schemaVersion" := Number(1.0),
      "id" := Str(rule.id),
      "name" := Str(rule.name),
      "description" := Str(rule.description),
      "enabled" := Bool(rule.enabled),
      "priority" := Number(rule.priority as real),
      "protocol" := Str(ProtocolName(rule.protocol)),
      "match" := MatcherJson(rule.match_),
      "logging" := Obj(map["capture" := Bool(rule.capture)]),
      "createdAt" := Str(rule.createdAt),
      "updatedAt" := Str(rule.updatedAt)]
  }

  function ToJson(rule: Rule): Json {
    Obj(With(With(With(Required(rule),
                       "request", if rule.request.Some? then Some(RequestJson(rule.request.value)) else None),
                  "response", if rule.response.Some? then Some(ResponseJson(rule.response.value)) else None),
             "consume", if rule.consume.Some? then Some(ConsumeJson(rule.consume.value)) else None))
  }
}
