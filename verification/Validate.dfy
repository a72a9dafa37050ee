/**
 * The normalising parser for rules (src/rules/validate.ts). A parser returns
 * the value it made, if any, and the errors it reported, in order.
 */
module Validate {
  import opened Common
  import opened JsonModel
  import opened RuleTypes
  import opened Text
  import opened RuleJson

  datatype Issue = Issue(path: string, reason: string)

  datatype Parsed<+T> = Parsed(value: Option<T>, errors: seq<Issue>)

  /**
   * The options, and what the platform decides: which patterns compile and which
   * strings are dates. The installed body validator looks at the match and the
   * request stage only.
   */
  datatype Options = Options(
    regexOk: (string, string) -> bool,
    dateOk: string -> bool,
    scriptMaxTimeoutMs: Option<int>,
    grpcBodyValidator: Option<(Matcher, Option<RequestStage>) -> seq<Issue>>)

  function Fail<T>(path: string, reason: string): Parsed<T> {
    Parsed(None, [Issue(path, reason)])
  }

  function Good<T>(value: T): Parsed<T> {
    Parsed(Some(value), [])
  }

  // ---- members of an object

  function Get(o: Json, key: string): Option<Json>
    requires o.Obj?
  {
    if key in o.fields then Some(o.fields[key]) else None
  }

  function GetStr(o: Json, key: string): Option<string>
    requires o.Obj?
  {
    if key in o.fields && o.fields[key].Str? then Some(o.fields[key].s) else None
  }

  predicate HasStr(o: Json, key: string)
    requires o.Obj?
  {
    GetStr(o, key).Some?
  }

  predicate Absent(o: Json, key: string)
    requires o.Obj?
  {
    key !in o.fields
  }

  predicate IsInteger(j: Json) {
    j.Number? && j.n.Floor as real == j.n
  }

  predicate PositiveInteger(j: Json) {
    IsInteger(j) && j.n.Floor > 0
  }

  predicate IsStringRecord(j: Json) {
    j.Obj? && forall k <- j.fields :: j.fields[k].Str?
  }

  function StringRecord(j: Json): StringMap
    requires IsStringRecord(j)
  {
    map k | k in j.fields :: j.fields[k].s
  }

  predicate OptStr(o: Json, key: string)
    requires o.Obj?
  {
    Absent(o, key) || HasStr(o, key)
  }

  predicate OptStringRecord(o: Json, key: string)
    requires o.Obj?
  {
    Absent(o, key) || IsStringRecord(o.fields[key])
  }

  function GetStringRecord(o: Json, key: string): Option<StringMap>
    requires o.Obj? && OptStringRecord(o, key)
  {
    if Absent(o, key) then None else Some(StringRecord(o.fields[key]))
  }

  predicate OptPositive(o: Json, key: string)
    requires o.Obj?
  {
    Absent(o, key) || PositiveInteger(o.fields[key])
  }

  function GetInt(o: Json, key: string): Option<int>
    requires o.Obj? && OptPositive(o, key)
  {
    if Absent(o, key) then None else Some(o.fields[key].n.Floor)
  }

  /** `o[key] ?? value`. */
  function OrDefault(o: Json, key: string, value: Json): Json
    requires o.Obj?
  {
    if key in o.fields && o.fields[key] != Null then o.fields[key] else value
  }

  predicate IntegerIn(j: Json, low: int, high: int) {
    IsInteger(j) && low <= j.n.Floor <= high
  }

  // ---- matchers

  predicate StartsWith(s: string, prefix: string) {
    |s| >= |prefix| && s[..|prefix|] == prefix
  }

  datatype FieldUse = Unknown | HttpOnly | GrpcOnly | Both

  function RequestFieldRule(field: string): FieldUse {
    if field in ["host", "path", "body", "rawBodyBase64"] then Both
    else if field in ["method", "query"] then HttpOnly
    else if field in ["grpc.service", "grpc.method"] then GrpcOnly
    else Unknown
  }

  function ResponseFieldRule(field: string): FieldUse {
    if field in ["body", "rawBodyBase64"] then Both
    else if field == "status" then HttpOnly
    else if field == "grpc.status" then GrpcOnly
    else Unknown
  }

  function FieldErrors(field: string, path: string, stage: Stage, protocol: Protocol): seq<Issue> {
    if StartsWith(field, "header.") then
      if |field| <= |"header."| then [Issue(path + ".field", "invalid_field")] else []
    else if stage == ResponseSide && StartsWith(field, "grpc.trailer.") then
      if protocol != Grpc then [Issue(path + ".field", "field_protocol_mismatch")] else []
    else
      match if stage == RequestSide then RequestFieldRule(field) else ResponseFieldRule(field)
      case Unknown => [Issue(path + ".field", "invalid_field")]
      case HttpOnly => if protocol == Http then [] else [Issue(path + ".field", "field_protocol_mismatch")]
      case GrpcOnly => if protocol == Grpc then [] else [Issue(path + ".field", "field_protocol_mismatch")]
      case Both => []
  }

  function ParseRegex(input: Json, path: string, stage: Stage, protocol: Protocol, opts: Options): Parsed<Matcher>
    requires input.Obj?
  {
    if !HasStr(input, "field") || GetStr(input, "field").value == "" then Fail(path + ".field", "invalid_field")
    else if !HasStr(input, "pattern") then Fail(path + ".pattern", "invalid_pattern")
    else if !OptStr(input, "flags") then Fail(path + ".flags", "invalid_flags")
    else
      var field, pattern, flags := GetStr(input, "field").value, GetStr(input, "pattern").value, GetStr(input, "flags");
      if !opts.regexOk(pattern, GetOr(flags, "")) then Fail(path + ".pattern", "invalid_regex")
      else Parsed(Some(Regex(field, pattern, flags)), FieldErrors(field, path, stage, protocol))
  }

  predicate Javascript(input: Json)
    requires input.Obj?
  {
    GetStr(input, "language") == Some("javascript")
  }

  predicate HasSource(input: Json)
    requires input.Obj?
  {
    HasStr(input, "source") && Trim(GetStr(input, "source").value) != ""
  }

  function ParseScript(input: Json, path: string): Parsed<Matcher>
    requires input.Obj?
  {
    if !Javascript(input) then Fail(path + ".language", "invalid_language")
    else if !HasSource(input) then Fail(path + ".source", "invalid_source")
    else if !OptPositive(input, "timeoutMs") then Fail(path + ".timeoutMs", "invalid_timeout")
    else Good(Script(GetStr(input, "source").value, GetInt(input, "timeoutMs")))
  }

  function ParseMatcher(input: Json, path: string, stage: Stage, protocol: Protocol, opts: Options): Parsed<Matcher>
    decreases input, 1, 0
  {
    if !input.Obj? then Fail(path, "invalid_matcher")
    else if GetStr(input, "type") == Some("regex") then ParseRegex(input, path, stage, protocol, opts)
    else if GetStr(input, "type") == Some("all") || GetStr(input, "type") == Some("any") then
      if Absent(input, "conditions") || !input.fields["conditions"].Arr? || input.fields["conditions"].items == [] then
        Fail(path + ".conditions", "invalid_conditions")
      else
        var conditions := input.fields["conditions"].items;
        var parsed := ParseConditions(conditions, 0, path, stage, protocol, opts);
        Parsed(if |parsed.0| != |conditions| then None
               else if GetStr(input, "type") == Some("all") then Some(All(parsed.0))
               else Some(Any(parsed.0)),
               parsed.1)
    else if GetStr(input, "type") == Some("not") then
      if Absent(input, "condition") then Fail(path + ".condition", "invalid_matcher")
      else
        var condition := ParseMatcher(input.fields["condition"], path + ".condition", stage, protocol, opts);
        Parsed(if condition.value.Some? then Some(Not(condition.value.value)) else None, condition.errors)
    else if GetStr(input, "type") == Some("script") then ParseScript(input, path)
    else Fail(path + ".type", "invalid_matcher_type")
  }

  function Collect(first: Parsed<Matcher>, rest: (seq<Matcher>, seq<Issue>)): (seq<Matcher>, seq<Issue>) {
    ((if first.value.Some? then [first.value.value] else []) + rest.0, first.errors + rest.1)
  }

  function ConditionPath(path: string, i: nat): string {
    path + ".conditions[" + IntToString(i) + "]"
  }

  /** Every condition is parsed, so that all their errors are reported; the failed ones are missing from the list. */
  function ParseConditions(
    conditions: seq<Json>, from: nat, path: string, stage: Stage, protocol: Protocol, opts: Options):
    (r: (seq<Matcher>, seq<Issue>))
    ensures |r.0| <= |conditions|
    decreases conditions, 0, |conditions|
  {
    if conditions == [] then ([], [])
    else
      var first := ParseMatcher(conditions[0], ConditionPath(path, from), stage, protocol, opts);
      var rest := ParseConditions(conditions[1..], from + 1, path, stage, protocol, opts);
      Collect(first, rest)
  }

  // ---- delays, faults, actions

  function ParseDelay(input: Json, path: string, stage: Stage): Parsed<Delay> {
    if !input.Obj? then Fail(path, "invalid_delay")
    else if Absent(input, "durationMs") || !PositiveInteger(input.fields["durationMs"]) then
      Fail(path + ".durationMs", "invalid_duration")
    else
      var mode := GetStr(input, "mode");
      var durationMs := input.fields["durationMs"].n.Floor;
      if Absent(input, "mode") then Good(Delay(durationMs, None))
      else if mode == Some("fixed") then Good(Delay(durationMs, Some(Fixed)))
      else if mode != Some("total") then Fail(path + ".mode", "invalid_delay_mode")
      else if stage == RequestSide then Fail(path + ".mode", "total_delay_on_request")
      else Good(Delay(durationMs, Some(Total)))
  }

  function ParseFault(input: Json, path: string, protocol: Protocol): Parsed<FaultSpec> {
    if !input.Obj? then Fail(path, "invalid_fault")
    else if GetStr(input, "kind") == Some("http_response") then
      if protocol != Http then Fail(path + ".kind", "fault_protocol_mismatch")
      else if Absent(input, "statusCode") || !IntegerIn(input.fields["statusCode"], 100, 599) then
        Fail(path + ".statusCode", "invalid_status")
      else if !OptStringRecord(input, "headers") then Fail(path + ".headers", "invalid_headers")
      else if !OptStr(input, "body") then Fail(path + ".body", "invalid_body")
      else Good(HttpResponse(input.fields["statusCode"].n.Floor, GetStringRecord(input, "headers"), GetStr(input, "body")))
    else if GetStr(input, "kind") == Some("grpc_status") then
      if protocol != Grpc then Fail(path + ".kind", "fault_protocol_mismatch")
      else if Absent(input, "status") || !IntegerIn(input.fields["status"], 0, 16) then
        Fail(path + ".status", "invalid_grpc_status")
      else if !OptStr(input, "message") then Fail(path + ".message", "invalid_message")
      else if !OptStringRecord(input, "metadata") then Fail(path + ".metadata", "invalid_metadata")
      else Good(GrpcStatus(input.fields["status"].n.Floor, GetStr(input, "message"), GetStringRecord(input, "metadata")))
    else if GetStr(input, "kind") == Some("connection") then
      if GetStr(input, "mode") == Some("close") then Good(Connection(Close))
      else if GetStr(input, "mode") == Some("reset") then Good(Connection(Reset))
      else Fail(path + ".mode", "invalid_connection_mode")
    else if GetStr(input, "kind") == Some("timeout") then
      if !OptPositive(input, "durationMs") then Fail(path + ".durationMs", "invalid_duration")
      else Good(Timeout(GetInt(input, "durationMs")))
    else Fail(path + ".kind", "invalid_fault_kind")
  }

  function ParseHttpMock(response: Json, path: string): Parsed<Mock>
    requires response.Obj?
  {
    if !Absent(response, "grpcStatus") then Fail(path + ".grpcStatus", "protocol_mismatch")
    else if !Absent(response, "grpcMessage") then Fail(path + ".grpcMessage", "protocol_mismatch")
    else if !Absent(response, "messages") then Fail(path + ".messages", "protocol_mismatch")
    else if !Absent(response, "metadata") then Fail(path + ".metadata", "protocol_mismatch")
    else
      var statusCode := OrDefault(response, "statusCode", Number(200.0));
      if !IntegerIn(statusCode, 100, 599) then Fail(path + ".statusCode", "invalid_status")
      else if !OptStringRecord(response, "headers") then Fail(path + ".headers", "invalid_headers")
      else if !OptStr(response, "body") then Fail(path + ".body", "invalid_body")
      else Good(HttpMock(statusCode.n.Floor, GetStringRecord(response, "headers"), GetStr(response, "body")))
  }

  function ParseGrpcMock(response: Json, path: string): Parsed<Mock>
    requires response.Obj?
  {
    if !Absent(response, "statusCode") then Fail(path + ".statusCode", "protocol_mismatch")
    else if !Absent(response, "body") then Fail(path + ".body", "protocol_mismatch")
    else
      var grpcStatus := OrDefault(response, "grpcStatus", Number(0.0));
      if !IntegerIn(grpcStatus, 0, 16) then Fail(path + ".grpcStatus", "invalid_grpc_status")
      else if !OptStr(response, "grpcMessage") then Fail(path + ".grpcMessage", "invalid_message")
      else if !Absent(response, "messages") && !response.fields["messages"].Arr? then
        Fail(path + ".messages", "invalid_messages")
      else if !OptStringRecord(response, "metadata") then Fail(path + ".metadata", "invalid_metadata")
      else
        var messages := if Absent(response, "messages") then None else Some(response.fields["messages"].items);
        Good(GrpcMock(grpcStatus.n.Floor, GetStr(response, "grpcMessage"), messages, GetStringRecord(response, "metadata")))
  }

  function ParseOperation(input: Json, path: string, opts: Options): Parsed<RewriteOperation> {
    if !input.Obj? then Fail(path, "invalid_operation")
    else
      var op, name, value := GetStr(input, "op"), GetStr(input, "name"), GetStr(input, "value");
      if op == Some("set_header") then
        if name.None? || name.value == "" || value.None? then Fail(path, "invalid_operation")
        else Good(SetHeader(name.value, value.value))
      else if op == Some("remove_header") then
        if name.None? || name.value == "" then Fail(path, "invalid_operation") else Good(RemoveHeader(name.value))
      else if op == Some("set_path") then
        if value.None? then Fail(path, "invalid_operation") else Good(SetPath(value.value))
      else if op == Some("set_query") then
        if value.None? then Fail(path, "invalid_operation") else Good(SetQuery(value.value))
      else if op == Some("replace_body") then
        var from, to := GetStr(input, "from"), GetStr(input, "to");
        if from.None? || to.None? then Fail(path, "invalid_operation")
        else if !opts.regexOk(from.value, "") then Fail(path + ".from", "invalid_regex")
        else Good(ReplaceBody(from.value, to.value))
      else Fail(path + ".op", "invalid_operation")
  }

  predicate OnHeaders(op: RewriteOperation) {
    op.SetHeader? || op.RemoveHeader?
  }

  function OperationPath(path: string, i: nat): string {
    path + ".operations[" + IntToString(i) + "]"
  }

  /** The first operation that cannot be used ends the list. */
  function ParseOperations(input: seq<Json>, from: nat, path: string, protocol: Protocol, opts: Options):
    Parsed<seq<RewriteOperation>>
    decreases |input|
  {
    if input == [] then Good([])
    else
      var first := ParseOperation(input[0], OperationPath(path, from), opts);
      if first.value.None? then Parsed(None, first.errors)
      else if protocol == Grpc && !OnHeaders(first.value.value) then
        Fail(OperationPath(path, from), "grpc_rewrite_unsupported")
      else
        var rest := ParseOperations(input[1..], from + 1, path, protocol, opts);
        if rest.value.None? then rest else Good([first.value.value] + rest.value.value)
  }

  function ParseRequestAction(input: Json, path: string, protocol: Protocol, opts: Options): Parsed<RequestAction> {
    if !input.Obj? then Fail(path, "invalid_action")
    else if GetStr(input, "type") == Some("mock_response") then
      if Absent(input, "response") || !input.fields["response"].Obj? then Fail(path + ".response", "invalid_mock")
      else
        var mock := if protocol == Http then ParseHttpMock(input.fields["response"], path + ".response")
                    else ParseGrpcMock(input.fields["response"], path + ".response");
        Parsed(if mock.value.Some? then Some(MockResponse(mock.value.value)) else None, mock.errors)
    else if GetStr(input, "type") == Some("fault") then
      var fault := ParseFault(GetOr(Get(input, "fault"), Null), path + ".fault", protocol);
      Parsed(if fault.value.Some? then Some(RequestFault(fault.value.value)) else None, fault.errors)
    else if GetStr(input, "type") == Some("request_rewrite") then
      if Absent(input, "operations") || !input.fields["operations"].Arr? || input.fields["operations"].items == [] then
        Fail(path + ".operations", "invalid_operations")
      else
        var operations := ParseOperations(input.fields["operations"].items, 0, path, protocol, opts);
        Parsed(if operations.value.Some? then Some(RequestRewrite(operations.value.value)) else None, operations.errors)
    else Fail(path + ".type", "invalid_action_type")
  }

  /** `/^header\..+$/`: a header name without line breaks. */
  predicate HeaderTarget(target: string) {
    && StartsWith(target, "header.")
    && |target| > |"header."|
    && forall c <- target :: c as int != 0x0A && c as int != 0x0D && c as int != 0x2028 && c as int != 0x2029
  }

  function ParseReplace(input: Json, path: string, opts: Options): Parsed<ResponseAction>
    requires input.Obj?
  {
    var target, from, to := GetStr(input, "target"), GetStr(input, "from"), GetStr(input, "to");
    if target.None? || !HeaderTarget(target.value) then Fail(path + ".target", "invalid_target")
    else if from.None? || to.None? then Fail(path, "invalid_replace")
    else if !opts.regexOk(from.value, "") then Fail(path + ".from", "invalid_regex")
    else Good(ResponseReplace(target.value, from.value, to.value))
  }

  function ParseManipulator(input: Json, path: string, opts: Options): Parsed<ResponseAction>
    requires input.Obj?
  {
    if !Javascript(input) then Fail(path + ".language", "invalid_language")
    else if !HasSource(input) then Fail(path + ".source", "invalid_source")
    else if !OptPositive(input, "timeoutMs") then Fail(path + ".timeoutMs", "invalid_timeout")
    else if !TimeoutAllowed(GetInt(input, "timeoutMs"), opts) then Fail(path + ".timeoutMs", "timeout_exceeds_max")
    else Good(ScriptManipulator(GetStr(input, "source").value, GetInt(input, "timeoutMs")))
  }

  predicate TimeoutAllowed(timeoutMs: Option<int>, opts: Options) {
    timeoutMs.Some? && opts.scriptMaxTimeoutMs.Some? ==> timeoutMs.value <= opts.scriptMaxTimeoutMs.value
  }

  function ParseResponseAction(input: Json, path: string, protocol: Protocol, opts: Options): Parsed<ResponseAction> {
    if !input.Obj? then Fail(path, "invalid_action")
    else if GetStr(input, "type") == Some("fault") then
      var fault := ParseFault(GetOr(Get(input, "fault"), Null), path + ".fault", protocol);
      Parsed(if fault.value.Some? then Some(ResponseFault(fault.value.value)) else None, fault.errors)
    else if GetStr(input, "type") == Some("response_replace") then ParseReplace(input, path, opts)
    else if GetStr(input, "type") == Some("script_manipulator") then ParseManipulator(input, path, opts)
    else Fail(path + ".type", "invalid_action_type")
  }

  function ParseConsume(input: Json): Parsed<ConsumeSpec> {
    if !input.Obj? then Fail("consume", "invalid_consume")
    else if Absent(input, "times") || !PositiveInteger(input.fields["times"]) then Fail("consume.times", "invalid_times")
    else if !OptPositive(input, "resetAfterMs") then Fail("consume.resetAfterMs", "invalid_reset")
    else Good(ConsumeSpec(input.fields["times"].n.Floor, GetInt(input, "resetAfterMs")))
  }

  // ---- the parts of a rule

  // An absent member is nothing to parse and nothing wrong.

  function StageDelay(raw: Json, path: string, stage: Stage): Parsed<Delay>
    requires raw.Obj?
  {
    if Absent(raw, "delay") then Parsed(None, []) else ParseDelay(raw.fields["delay"], path, stage)
  }

  function StageMatch(raw: Json, protocol: Protocol, opts: Options): Parsed<Matcher>
    requires raw.Obj?
  {
    if Absent(raw, "match") then Parsed(None, [])
    else ParseMatcher(raw.fields["match"], "response.match", ResponseSide, protocol, opts)
  }

  function RequestActionOf(raw: Json, protocol: Protocol, opts: Options): Parsed<RequestAction>
    requires raw.Obj?
  {
    if Absent(raw, "action") then Parsed(None, [])
    else ParseRequestAction(raw.fields["action"], "request.action", protocol, opts)
  }

  function ResponseActionOf(raw: Json, protocol: Protocol, opts: Options): Parsed<ResponseAction>
    requires raw.Obj?
  {
    if Absent(raw, "action") then Parsed(None, [])
    else ParseResponseAction(raw.fields["action"], "response.action", protocol, opts)
  }

  function ConsumeOf(input: Json): Parsed<ConsumeSpec>
    requires input.Obj?
  {
    if Absent(input, "consume") then Parsed(None, []) else ParseConsume(input.fields["consume"])
  }

  function EmptyStage(raw: Json, path: string): seq<Issue>
    requires raw.Obj?
  {
    if Absent(raw, "delay") && Absent(raw, "action") then [Issue(path, "empty_stage")] else []
  }

  function ParseRequestStage(raw: Json, protocol: Protocol, opts: Options): Parsed<RequestStage>
    requires raw.Obj?
  {
    AssembleRequest(raw, StageDelay(raw, "request.delay", RequestSide), RequestActionOf(raw, protocol, opts))
  }

  function AssembleRequest(raw: Json, delay: Parsed<Delay>, action: Parsed<RequestAction>): Parsed<RequestStage>
    requires raw.Obj?
  {
    Parsed(Some(RequestStage(delay.value, action.value)), delay.errors + action.errors + EmptyStage(raw, "request"))
  }

  function ParseRequest(input: Json, protocol: Protocol, opts: Options): Parsed<RequestStage>
    requires input.Obj?
  {
    if Absent(input, "request") then Parsed(None, [])
    else if !input.fields["request"].Obj? then Fail("request", "invalid_stage")
    else ParseRequestStage(input.fields["request"], protocol, opts)
  }

  function ParseResponseStage(raw: Json, protocol: Protocol, opts: Options): Parsed<ResponseStage>
    requires raw.Obj?
  {
    AssembleResponse(
      raw, StageMatch(raw, protocol, opts), StageDelay(raw, "response.delay", ResponseSide),
      ResponseActionOf(raw, protocol, opts))
  }

  function AssembleResponse(raw: Json, match_: Parsed<Matcher>, delay: Parsed<Delay>, action: Parsed<ResponseAction>):
    Parsed<ResponseStage>
    requires raw.Obj?
  {
    Parsed(Some(ResponseStage(match_.value, delay.value, action.value)),
           match_.errors + delay.errors + action.errors + EmptyStage(raw, "response"))
  }

  function ParseResponse(input: Json, protocol: Protocol, opts: Options): Parsed<ResponseStage>
    requires input.Obj?
  {
    if Absent(input, "response") then Parsed(None, [])
    else if !input.fields["response"].Obj? then Fail("response", "invalid_stage")
    else ParseResponseStage(input.fields["response"], protocol, opts)
  }

  predicate IdChar(c: char) {
    'A' <= c <= 'Z' || 'a' <= c <= 'z' || '0' <= c <= '9' || c == '_' || c == '-'
  }

  predicate IdOk(id: string) {
    1 <= |id| <= 128 && forall c <- id :: IdChar(c)
  }

  function IdErrors(input: Json): seq<Issue>
    requires input.Obj?
  {
    if Absent(input, "id") || (HasStr(input, "id") && IdOk(GetStr(input, "id").value)) then []
    else [Issue("id", "invalid_id")]
  }

  /** A rule without an id gets a made-up one. */
  function IdOf(input: Json, freshId: string): string
    requires input.Obj?
  {
    if Absent(input, "id") then freshId
    else if HasStr(input, "id") && IdOk(GetStr(input, "id").value) then GetStr(input, "id").value
    else ""
  }

  function ParseText(input: Json, key: string): Parsed<string>
    requires input.Obj?
  {
    Parsed(Some(GetOr(GetStr(input, key), "")),
           if OptStr(input, key) then [] else [Issue(key, "invalid_" + key)])
  }

  function ParseEnabled(input: Json): Parsed<bool>
    requires input.Obj?
  {
    var raw := OrDefault(input, "enabled", Bool(true));
    Parsed(Some(raw == Bool(true)), if raw.Bool? then [] else [Issue("enabled", "invalid_enabled")])
  }

  function ParsePriority(input: Json): Parsed<int>
    requires input.Obj?
  {
    var raw := OrDefault(input, "priority", Number(0.0));
    if IsInteger(raw) then Good(raw.n.Floor) else Parsed(Some(0), [Issue("priority", "invalid_priority")])
  }

  function SchemaErrors(input: Json): seq<Issue>
    requires input.Obj?
  {
    if OrDefault(input, "schemaVersion", Number(1.0)) == Number(1.0) then []
    else [Issue("schemaVersion", "unsupported_schema_version")]
  }

  function ParseCapture(input: Json): Parsed<bool>
    requires input.Obj?
  {
    if Absent(input, "logging") then Good(false)
    else
      var logging := input.fields["logging"];
      if !logging.Obj? || (!Absent(logging, "capture") && !logging.fields["capture"].Bool?) then
        Parsed(Some(false), [Issue("logging", "invalid_logging")])
      else Good(Get(logging, "capture") == Some(Bool(true)))
  }

  function ParseTime(input: Json, key: string, opts: Options): string
    requires input.Obj?
  {
    if HasStr(input, key) && opts.dateOk(GetStr(input, key).value) then GetStr(input, key).value else ""
  }

  predicate SpellsOutMessages(request: Option<RequestStage>) {
    && request.Some? && request.value.action.Some? && request.value.action.value.MockResponse?
    && request.value.action.value.response.GrpcMock? && request.value.action.value.response.messages.Some?
  }

  function CrossErrors(input: Json, capture: bool, request: Option<RequestStage>, protocol: Protocol, opts: Options):
    seq<Issue>
    requires input.Obj?
  {
    (if Absent(input, "request") && Absent(input, "response") && !capture then [Issue("", "noop_rule")] else [])
    + (if SpellsOutMessages(request) && protocol == Grpc && opts.grpcBodyValidator.None? then
         [Issue("request.action.response.messages", "descriptor_required")]
       else [])
  }

  function BodyErrors(match_: Matcher, request: Option<RequestStage>, protocol: Protocol, opts: Options): seq<Issue> {
    if opts.grpcBodyValidator.Some? && protocol == Grpc then opts.grpcBodyValidator.value(match_, request) else []
  }

  function ParseProtocol(input: Json): Option<Protocol>
    requires input.Obj?
  {
    if GetStr(input, "protocol") == Some("http") then Some(Http)
    else if GetStr(input, "protocol") == Some("grpc") then Some(Grpc)
    else None
  }

  function HeadErrors(input: Json): seq<Issue>
    requires input.Obj?
  {
    SchemaErrors(input) + IdErrors(input) + ParseText(input, "name").errors
    + ParseText(input, "description").errors + ParseEnabled(input).errors + ParsePriority(input).errors
  }

  function BodyOf(input: Json, freshId: string, protocol: Protocol, opts: Options): Parsed<Rule>
    requires input.Obj?
  {
    Assemble(input, freshId, protocol, opts,
             ParseMatcher(GetOr(Get(input, "match"), Null), "match", RequestSide, protocol, opts),
             ParseRequest(input, protocol, opts), ParseResponse(input, protocol, opts))
  }

  function Assemble(
    input: Json, freshId: string, protocol: Protocol, opts: Options,
    match_: Parsed<Matcher>, request: Parsed<RequestStage>, response: Parsed<ResponseStage>): Parsed<Rule>
    requires input.Obj?
  {
    var capture := ParseCapture(input);
    Parsed(if match_.value.None? then None
           else Some(Built(input, freshId, protocol, opts, match_.value.value, request.value, response.value)),
           match_.errors + request.errors + response.errors + ConsumeOf(input).errors + capture.errors
           + CrossErrors(input, capture.value.value, request.value, protocol, opts))
  }

  function Built(
    input: Json, freshId: string, protocol: Protocol, opts: Options,
    match_: Matcher, request: Option<RequestStage>, response: Option<ResponseStage>): Rule
    requires input.Obj?
  {
    Rule(
      IdOf(input, freshId), ParseText(input, "name").value.value,
      ParseText(input, "description").value.value, ParseEnabled(input).value.value,
      ParsePriority(input).value.value, protocol, match_, request, response, ConsumeOf(input).value,
      ParseCapture(input).value.value, ParseTime(input, "createdAt", opts), ParseTime(input, "updatedAt", opts))
  }

  /** A rule is returned exactly if there are no errors. */
  function ValidateRule(input: Json, opts: Options, freshId: string): Parsed<Rule> {
    if !input.Obj? then Fail("", "invalid_rule")
    else if ParseProtocol(input).None? then
      Parsed(None, HeadErrors(input) + [Issue("protocol", "invalid_protocol")])
    else
      var protocol := ParseProtocol(input).value;
      var body := BodyOf(input, freshId, protocol, opts);
      var errors := HeadErrors(input) + body.errors;
      if errors != [] || body.value.None? then Parsed(None, errors)
      else
        var extra := BodyErrors(body.value.value.match_, body.value.value.request, protocol, opts);
        if extra != [] then Parsed(None, extra) else body
  }
}
