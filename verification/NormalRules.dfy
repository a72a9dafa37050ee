/**
 * What the parser promises: the rules it accepts are exactly the normal ones,
 * and a normal rule written out as JSON is read back unchanged.
 */
module NormalRules {
  import opened Common
  import opened JsonModel
  import opened RuleTypes
  import opened Text
  import opened RuleJson
  import opened Validate

  // ---- normal rules

  /** The matcher fields of each stage, by the protocol they belong to. */
  predicate FieldAllowed(field: string, stage: Stage, protocol: Protocol) {
    || (StartsWith(field, "header.") && field != "header.")
    || field in ["body", "rawBodyBase64"]
    || (match (stage, protocol)
        case (RequestSide, Http) => field in ["method", "host", "path", "query"]
        case (RequestSide, Grpc) => field in ["host", "path", "grpc.service", "grpc.method"]
        case (ResponseSide, Http) => field == "status"
        case (ResponseSide, Grpc) => field == "grpc.status" || StartsWith(field, "grpc.trailer."))
  }

  predicate PositiveIfAny(n: Option<int>) {
    n.Some? ==> n.value > 0
  }

  predicate NormalMatcher(m: Matcher, stage: Stage, protocol: Protocol, opts: Options) {
    match m
    case Regex(field, pattern, flags) =>
      FieldAllowed(field, stage, protocol) && opts.regexOk(pattern, GetOr(flags, ""))
    case All(conditions) => conditions != [] && forall c <- conditions :: NormalMatcher(c, stage, protocol, opts)
    case Any(conditions) => conditions != [] && forall c <- conditions :: NormalMatcher(c, stage, protocol, opts)
    case Not(condition) => NormalMatcher(condition, stage, protocol, opts)
    case Script(source, timeoutMs) => Trim(source) != "" && PositiveIfAny(timeoutMs)
  }

  predicate NormalDelay(d: Delay, stage: Stage) {
    d.durationMs > 0 && (d.mode == Some(Total) ==> stage == ResponseSide)
  }

  predicate NormalFault(f: FaultSpec, protocol: Protocol) {
    match f
    case HttpResponse(statusCode, _, _) => protocol == Http && 100 <= statusCode <= 599
    case GrpcStatus(status, _, _) => protocol == Grpc && 0 <= status <= 16
    case Connection(_) => true
    case Timeout(durationMs) => PositiveIfAny(durationMs)
  }

  predicate NormalMock(m: Mock, protocol: Protocol) {
    match m
    case HttpMock(statusCode, _, _) => protocol == Http && 100 <= statusCode <= 599
    case GrpcMock(grpcStatus, _, _, _) => protocol == Grpc && 0 <= grpcStatus <= 16
  }

  predicate NormalOperation(op: RewriteOperation, protocol: Protocol, opts: Options) {
    && (protocol == Grpc ==> OnHeaders(op))
    && match op
       case SetHeader(name, _) => name != ""
       case RemoveHeader(name) => name != ""
       case ReplaceBody(from, _) => opts.regexOk(from, "")
       case _ => true
  }

  predicate NormalRequestAction(a: RequestAction, protocol: Protocol, opts: Options) {
    match a
    case MockResponse(response) => NormalMock(response, protocol)
    case RequestFault(fault) => NormalFault(fault, protocol)
    case RequestRewrite(operations) =>
      operations != [] && forall op <- operations :: NormalOperation(op, protocol, opts)
  }

  predicate NormalResponseAction(a: ResponseAction, protocol: Protocol, opts: Options) {
    match a
    case ResponseFault(fault) => NormalFault(fault, protocol)
    case ResponseReplace(target, from, _) => HeaderTarget(target) && opts.regexOk(from, "")
    case ScriptManipulator(source, timeoutMs) =>
      Trim(source) != "" && PositiveIfAny(timeoutMs) && TimeoutAllowed(timeoutMs, opts)
  }

  predicate NormalRequest(s: RequestStage, protocol: Protocol, opts: Options) {
    && (s.delay.Some? || s.action.Some?)
    && (s.delay.Some? ==> NormalDelay(s.delay.value, RequestSide))
    && (s.action.Some? ==> NormalRequestAction(s.action.value, protocol, opts))
  }

  predicate NormalResponse(s: ResponseStage, protocol: Protocol, opts: Options) {
    && (s.delay.Some? || s.action.Some?)
    && (s.match_.Some? ==> NormalMatcher(s.match_.value, ResponseSide, protocol, opts))
    && (s.delay.Some? ==> NormalDelay(s.delay.value, ResponseSide))
    && (s.action.Some? ==> NormalResponseAction(s.action.value, protocol, opts))
  }

  predicate NormalConsume(c: ConsumeSpec) {
    c.times >= 1 && PositiveIfAny(c.resetAfterMs)
  }

  predicate NormalTime(time: string, opts: Options) {
    time == "" || opts.dateOk(time)
  }

  predicate Normal(r: Rule, opts: Options) {
    && IdOk(r.id)
    && NormalMatcher(r.match_, RequestSide, r.protocol, opts)
    && (r.request.Some? ==> NormalRequest(r.request.value, r.protocol, opts))
    && (r.response.Some? ==> NormalResponse(r.response.value, r.protocol, opts))
    && (r.consume.Some? ==> NormalConsume(r.consume.value))
    && (r.request.Some? || r.response.Some? || r.capture)
    && (SpellsOutMessages(r.request) ==> opts.grpcBodyValidator.Some?)
    && BodyErrors(r.match_, r.request, r.protocol, opts) == []
    && NormalTime(r.createdAt, opts) && NormalTime(r.updatedAt, opts)
  }

  // ---- what is accepted is normal

  /** Only "header.…" itself begins like a header field. */
  lemma HeaderFields(field: string, stage: Stage, protocol: Protocol)
    requires StartsWith(field, "header.")
    ensures FieldAllowed(field, stage, protocol) <==> |field| > |"header."|
  {
    assert field[0] == 'h' && field[1] == 'e';
    if |field| <= |"header."| {
      assert field == "header.";
    }
  }

  lemma TrailerFields(field: string, protocol: Protocol)
    requires StartsWith(field, "grpc.trailer.")
    ensures FieldAllowed(field, ResponseSide, protocol) <==> protocol == Grpc
  {
    assert field[0] == 'g' && field[5] == 't';
    assert !StartsWith(field, "header.");
  }

  lemma FieldErrorsExact(field: string, path: string, stage: Stage, protocol: Protocol)
    ensures FieldErrors(field, path, stage, protocol) == [] <==> FieldAllowed(field, stage, protocol)
  {
    if StartsWith(field, "header.") {
      HeaderFields(field, stage, protocol);
    } else if stage == ResponseSide && StartsWith(field, "grpc.trailer.") {
      TrailerFields(field, protocol);
    }
  }

  lemma ParseRegexSound(input: Json, path: string, stage: Stage, protocol: Protocol, opts: Options)
    requires input.Obj?
    ensures var p := ParseRegex(input, path, stage, protocol, opts);
            p.errors == [] ==> p.value.Some? && NormalMatcher(p.value.value, stage, protocol, opts)
  {
    var field := GetStr(input, "field");
    if field.Some? {
      FieldErrorsExact(field.value, path, stage, protocol);
    }
  }

  lemma {:induction false} ParseMatcherSound(
    input: Json, path: string, stage: Stage, protocol: Protocol, opts: Options)
    ensures var p := ParseMatcher(input, path, stage, protocol, opts);
            p.errors == [] ==> p.value.Some? && NormalMatcher(p.value.value, stage, protocol, opts)
    decreases input, 1, 0
  {
    if input.Obj? {
      if GetStr(input, "type") == Some("regex") {
        ParseRegexSound(input, path, stage, protocol, opts);
      } else if GetStr(input, "type") == Some("all") || GetStr(input, "type") == Some("any") {
        if "conditions" in input.fields && input.fields["conditions"].Arr? {
          ParseConditionsSound(input.fields["conditions"].items, 0, path, stage, protocol, opts);
        }
      } else if GetStr(input, "type") == Some("not") && "condition" in input.fields {
        ParseMatcherSound(input.fields["condition"], path + ".condition", stage, protocol, opts);
      }
    }
  }

  lemma {:induction false} ParseConditionsSound(
    conditions: seq<Json>, from: nat, path: string, stage: Stage, protocol: Protocol, opts: Options)
    ensures var p := ParseConditions(conditions, from, path, stage, protocol, opts);
            p.1 == [] ==> |p.0| == |conditions| && forall c <- p.0 :: NormalMatcher(c, stage, protocol, opts)
    decreases conditions, 0, |conditions|
  {
    if conditions != [] {
      ParseMatcherSound(conditions[0], ConditionPath(path, from), stage, protocol, opts);
      ParseConditionsSound(conditions[1..], from + 1, path, stage, protocol, opts);
    }
  }

  lemma ParseFaultSound(input: Json, path: string, protocol: Protocol)
    ensures var p := ParseFault(input, path, protocol);
            p.errors == [] ==> p.value.Some? && NormalFault(p.value.value, protocol)
  {
  }

  lemma ParseMockSound(response: Json, path: string)
    requires response.Obj?
    ensures var p := ParseHttpMock(response, path);
            p.errors == [] ==> p.value.Some? && NormalMock(p.value.value, Http)
    ensures var p := ParseGrpcMock(response, path);
            p.errors == [] ==> p.value.Some? && NormalMock(p.value.value, Grpc)
  {
  }

  lemma {:induction false} ParseOperationsSound(
    input: seq<Json>, from: nat, path: string, protocol: Protocol, opts: Options)
    ensures var p := ParseOperations(input, from, path, protocol, opts);
            && (p.value.None? ==> p.errors != [])
            && (p.errors == [] ==> |p.value.value| == |input|
                                   && forall op <- p.value.value :: NormalOperation(op, protocol, opts))
    decreases |input|
  {
    if input != [] {
      ParseOperationsSound(input[1..], from + 1, path, protocol, opts);
    }
  }

  lemma ParseRequestActionSound(input: Json, path: string, protocol: Protocol, opts: Options)
    ensures var p := ParseRequestAction(input, path, protocol, opts);
            p.errors == [] ==> p.value.Some? && NormalRequestAction(p.value.value, protocol, opts)
  {
    if input.Obj? {
      if GetStr(input, "type") == Some("mock_response") {
        if "response" in input.fields && input.fields["response"].Obj? {
          ParseMockSound(input.fields["response"], path + ".response");
        }
      } else if GetStr(input, "type") == Some("fault") {
        ParseFaultSound(GetOr(Get(input, "fault"), Null), path + ".fault", protocol);
      } else if "operations" in input.fields && input.fields["operations"].Arr? {
        ParseOperationsSound(input.fields["operations"].items, 0, path, protocol, opts);
      }
    }
  }

  lemma ParseResponseActionSound(input: Json, path: string, protocol: Protocol, opts: Options)
    ensures var p := ParseResponseAction(input, path, protocol, opts);
            p.errors == [] ==> p.value.Some? && NormalResponseAction(p.value.value, protocol, opts)
  {
    if input.Obj? {
      ParseFaultSound(GetOr(Get(input, "fault"), Null), path + ".fault", protocol);
    }
  }

  lemma RequestStageSound(raw: Json, protocol: Protocol, opts: Options)
    requires raw.Obj?
    ensures var p := ParseRequestStage(raw, protocol, opts);
            p.value.Some? && (p.errors == [] ==> NormalRequest(p.value.value, protocol, opts))
  {
    if "action" in raw.fields {
      ParseRequestActionSound(raw.fields["action"], "request.action", protocol, opts);
    }
    OptionalDelaySound(raw, "request.delay", RequestSide);
  }

  lemma ParseRequestSound(input: Json, protocol: Protocol, opts: Options)
    requires input.Obj?
    ensures var p := ParseRequest(input, protocol, opts);
            p.errors == [] ==> (p.value.Some? <==> "request" in input.fields)
                               && (p.value.Some? ==> NormalRequest(p.value.value, protocol, opts))
  {
    if "request" in input.fields && input.fields["request"].Obj? {
      RequestStageSound(input.fields["request"], protocol, opts);
    }
  }

  lemma ResponseStageSound(raw: Json, protocol: Protocol, opts: Options)
    requires raw.Obj?
    ensures var p := ParseResponseStage(raw, protocol, opts);
            p.value.Some? && (p.errors == [] ==> NormalResponse(p.value.value, protocol, opts))
  {
    if "match" in raw.fields {
      ParseMatcherSound(raw.fields["match"], "response.match", ResponseSide, protocol, opts);
    }
    if "action" in raw.fields {
      ParseResponseActionSound(raw.fields["action"], "response.action", protocol, opts);
    }
    OptionalDelaySound(raw, "response.delay", ResponseSide);
  }

  lemma OptionalDelaySound(raw: Json, path: string, stage: Stage)
    requires raw.Obj?
    ensures var delay := StageDelay(raw, path, stage);
            delay.errors == [] ==> (delay.value.Some? <==> "delay" in raw.fields)
                                   && (delay.value.Some? ==> NormalDelay(delay.value.value, stage))
  {
  }

  lemma ParseResponseSound(input: Json, protocol: Protocol, opts: Options)
    requires input.Obj?
    ensures var p := ParseResponse(input, protocol, opts);
            p.errors == [] ==> (p.value.Some? <==> "response" in input.fields)
                               && (p.value.Some? ==> NormalResponse(p.value.value, protocol, opts))
  {
    if "response" in input.fields && input.fields["response"].Obj? {
      ResponseStageSound(input.fields["response"], protocol, opts);
    }
  }

  lemma ConsumeSound(input: Json)
    requires input.Obj?
    ensures var p := ConsumeOf(input);
            p.errors == [] ==> (p.value.Some? ==> NormalConsume(p.value.value))
  {
  }

  lemma HeadSound(input: Json, freshId: string)
    requires IdOk(freshId) && input.Obj? && HeadErrors(input) == []
    ensures IdOk(IdOf(input, freshId))
  {
  }

  /** The cross-field rules, seen from the parsed stages. */
  lemma CrossSound(input: Json, freshId: string, protocol: Protocol, opts: Options)
    requires input.Obj? && BodyOf(input, freshId, protocol, opts).errors == []
    ensures var request, response := ParseRequest(input, protocol, opts), ParseResponse(input, protocol, opts);
            && request.errors == [] && response.errors == []
            && ConsumeOf(input).errors == []
            && ParseMatcher(GetOr(Get(input, "match"), Null), "match", RequestSide, protocol, opts).errors == []
            && CrossErrors(input, ParseCapture(input).value.value, request.value, protocol, opts) == []
  {
  }

  lemma BodySound(input: Json, freshId: string, protocol: Protocol, opts: Options)
    requires input.Obj? && IdOk(freshId) && HeadErrors(input) == []
    requires BodyOf(input, freshId, protocol, opts).errors == []
    ensures var p := BodyOf(input, freshId, protocol, opts);
            && p.value.Some? && p.value.value.protocol == protocol
            && (BodyErrors(p.value.value.match_, p.value.value.request, protocol, opts) == [] ==> Normal(p.value.value, opts))
  {
    CrossSound(input, freshId, protocol, opts);
    HeadSound(input, freshId);
    ParseMatcherSound(GetOr(Get(input, "match"), Null), "match", RequestSide, protocol, opts);
    ParseRequestSound(input, protocol, opts);
    ParseResponseSound(input, protocol, opts);
    ConsumeSound(input);
    var request := ParseRequest(input, protocol, opts).value;
    if SpellsOutMessages(request) {
      assert protocol == Grpc;
    }
  }

  /** A rule comes out exactly when nothing is reported, and it is a normal rule. */
  lemma AcceptedIsNormal(input: Json, opts: Options, freshId: string)
    requires IdOk(freshId)
    ensures var p := ValidateRule(input, opts, freshId);
            && (p.value.Some? <==> p.errors == [])
            && (p.value.Some? ==> Normal(p.value.value, opts))
  {
    if input.Obj? && ParseProtocol(input).Some? {
      var protocol := ParseProtocol(input).value;
      if HeadErrors(input) == [] && BodyOf(input, freshId, protocol, opts).errors == [] {
        BodySound(input, freshId, protocol, opts);
      }
    }
  }

  // ---- what is normal is read back unchanged

  lemma StringRecordBack(m: StringMap)
    ensures IsStringRecord(MapJson(m)) && StringRecord(MapJson(m)) == m
  {
  }

  lemma RegexBack(m: Matcher, path: string, stage: Stage, protocol: Protocol, opts: Options)
    requires m.Regex? && NormalMatcher(m, stage, protocol, opts)
    ensures ParseRegex(MatcherJson(m), path, stage, protocol, opts) == Good(m)
  {
    FieldErrorsExact(m.field, path, stage, protocol);
  }

  lemma ScriptBack(m: Matcher, path: string, stage: Stage, protocol: Protocol, opts: Options)
    requires m.Script? && NormalMatcher(m, stage, protocol, opts)
    ensures ParseScript(MatcherJson(m), path) == Good(m)
  {
  }

  lemma GroupBack(
    m: Matcher, conditions: seq<Matcher>, path: string, stage: Stage, protocol: Protocol, opts: Options)
    requires m == All(conditions) || m == Any(conditions)
    requires conditions != []
    requires ParseConditions(ConditionsJson(conditions), 0, path, stage, protocol, opts) == (conditions, [])
    ensures ParseMatcher(MatcherJson(m), path, stage, protocol, opts) == Good(m)
  {
    var input := MatcherJson(m);
    assert input.fields["conditions"] == Arr(ConditionsJson(conditions));
    assert GetStr(input, "type") == Some(if m.All? then "all" else "any");
  }

  lemma {:induction false} MatcherBack(m: Matcher, path: string, stage: Stage, protocol: Protocol, opts: Options)
    requires NormalMatcher(m, stage, protocol, opts)
    ensures ParseMatcher(MatcherJson(m), path, stage, protocol, opts) == Good(m)
    decreases m, 1, 0
  {
    match m
    case Regex(_, _, _) => RegexBack(m, path, stage, protocol, opts);
    case All(conditions) =>
      ConditionsBack(conditions, 0, path, stage, protocol, opts);
      GroupBack(m, conditions, path, stage, protocol, opts);
    case Any(conditions) =>
      ConditionsBack(conditions, 0, path, stage, protocol, opts);
      GroupBack(m, conditions, path, stage, protocol, opts);
    case Not(condition) => MatcherBack(condition, path + ".condition", stage, protocol, opts);
    case Script(_, _) => ScriptBack(m, path, stage, protocol, opts);
  }

  lemma {:induction false} ConditionsBack(
    conditions: seq<Matcher>, from: nat, path: string, stage: Stage, protocol: Protocol, opts: Options)
    requires forall c <- conditions :: NormalMatcher(c, stage, protocol, opts)
    ensures ParseConditions(ConditionsJson(conditions), from, path, stage, protocol, opts) == (conditions, [])
    decreases conditions, 0, |conditions|
  {
    if conditions != [] {
      MatcherBack(conditions[0], ConditionPath(path, from), stage, protocol, opts);
      ConditionsBack(conditions[1..], from + 1, path, stage, protocol, opts);
      var first, rest := MatcherJson(conditions[0]), ConditionsJson(conditions[1..]);
      ConditionsCons(first, rest, from, path, stage, protocol, opts);
      assert ConditionsJson(conditions) == [first] + rest;
      var head := ParseMatcher(first, ConditionPath(path, from), stage, protocol, opts);
      var tail := ParseConditions(rest, from + 1, path, stage, protocol, opts);
      assert head.value.value == conditions[0] && head.errors == [];
      assert tail.0 == conditions[1..] && tail.1 == [];
      assert conditions == [conditions[0]] + conditions[1..];
      var all := ParseConditions([first] + rest, from, path, stage, protocol, opts);
      assert all.0 == conditions && all.1 == [];
    }
  }

  lemma ConditionsCons(
    first: Json, rest: seq<Json>, from: nat, path: string, stage: Stage, protocol: Protocol, opts: Options)
    requires ParseMatcher(first, ConditionPath(path, from), stage, protocol, opts).value.Some?
    ensures var head := ParseMatcher(first, ConditionPath(path, from), stage, protocol, opts);
            var tail := ParseConditions(rest, from + 1, path, stage, protocol, opts);
            ParseConditions([first] + rest, from, path, stage, protocol, opts)
            == ([head.value.value] + tail.0, head.errors + tail.1)
  {
    assert ([first] + rest)[0] == first && ([first] + rest)[1..] == rest;
  }

  lemma FaultBack(f: FaultSpec, path: string, protocol: Protocol)
    requires NormalFault(f, protocol)
    ensures ParseFault(FaultJson(f), path, protocol) == Good(f)
  {
    match f
    case HttpResponse(_, headers, _) => if headers.Some? { StringRecordBack(headers.value); }
    case GrpcStatus(_, _, metadata) => if metadata.Some? { StringRecordBack(metadata.value); }
    case Connection(_) =>
    case Timeout(_) =>
  }

  lemma MockBack(m: Mock, path: string, protocol: Protocol)
    requires NormalMock(m, protocol)
    ensures m.HttpMock? ==> ParseHttpMock(MockJson(m), path) == Good(m)
    ensures m.GrpcMock? ==> ParseGrpcMock(MockJson(m), path) == Good(m)
  {
    if m.HttpMock? {
      HttpMockBack(m, path, protocol);
    } else {
      GrpcMockBack(m, path, protocol);
    }
  }

  lemma HttpMockBack(m: Mock, path: string, protocol: Protocol)
    requires NormalMock(m, protocol) && m.HttpMock?
    ensures ParseHttpMock(MockJson(m), path) == Good(m)
  {
    if m.headers.Some? {
      StringRecordBack(m.headers.value);
    }
  }

  lemma GrpcMockBack(m: Mock, path: string, protocol: Protocol)
    requires NormalMock(m, protocol) && m.GrpcMock?
    ensures ParseGrpcMock(MockJson(m), path) == Good(m)
  {
    if m.metadata.Some? {
      StringRecordBack(m.metadata.value);
    }
  }

  lemma OperationBack(op: RewriteOperation, path: string, protocol: Protocol, opts: Options)
    requires NormalOperation(op, protocol, opts)
    ensures ParseOperation(OperationJson(op), path, opts) == Good(op)
  {
  }

  lemma {:induction false} OperationsBack(
    operations: seq<RewriteOperation>, from: nat, path: string, protocol: Protocol, opts: Options)
    requires forall op <- operations :: NormalOperation(op, protocol, opts)
    ensures ParseOperations(OperationsJson(operations), from, path, protocol, opts) == Good(operations)
    decreases |operations|
  {
    if operations != [] {
      OperationBack(operations[0], OperationPath(path, from), protocol, opts);
      OperationsBack(operations[1..], from + 1, path, protocol, opts);
      assert OperationsJson(operations)[1..] == OperationsJson(operations[1..]);
      assert operations == [operations[0]] + operations[1..];
    }
  }

  lemma DelayBack(d: Delay, path: string, stage: Stage)
    requires NormalDelay(d, stage)
    ensures ParseDelay(DelayJson(d), path, stage) == Good(d)
  {
  }

  lemma RequestActionBack(a: RequestAction, path: string, protocol: Protocol, opts: Options)
    requires NormalRequestAction(a, protocol, opts)
    ensures ParseRequestAction(RequestActionJson(a), path, protocol, opts) == Good(a)
  {
    match a
    case MockResponse(response) => MockBack(response, path + ".response", protocol);
    case RequestFault(fault) => FaultBack(fault, path + ".fault", protocol);
    case RequestRewrite(operations) => OperationsBack(operations, 0, path, protocol, opts);
  }

  lemma ResponseActionBack(a: ResponseAction, path: string, protocol: Protocol, opts: Options)
    requires NormalResponseAction(a, protocol, opts)
    ensures ParseResponseAction(ResponseActionJson(a), path, protocol, opts) == Good(a)
  {
    if a.ResponseFault? {
      FaultBack(a.fault, path + ".fault", protocol);
    }
  }

  lemma RequestBack(s: RequestStage, input: Json, protocol: Protocol, opts: Options)
    requires NormalRequest(s, protocol, opts)
    requires input.Obj? && Get(input, "request") == Some(RequestJson(s))
    ensures ParseRequest(input, protocol, opts) == Good(s)
  {
    if s.delay.Some? {
      DelayBack(s.delay.value, "request.delay", RequestSide);
    }
    if s.action.Some? {
      RequestActionBack(s.action.value, "request.action", protocol, opts);
    }
  }

  lemma ResponseBack(s: ResponseStage, input: Json, protocol: Protocol, opts: Options)
    requires NormalResponse(s, protocol, opts)
    requires input.Obj? && Get(input, "response") == Some(ResponseJson(s))
    ensures ParseResponse(input, protocol, opts) == Good(s)
  {
    if s.match_.Some? {
      MatcherBack(s.match_.value, "response.match", ResponseSide, protocol, opts);
    }
    if s.delay.Some? {
      DelayBack(s.delay.value, "response.delay", ResponseSide);
    }
    if s.action.Some? {
      ResponseActionBack(s.action.value, "response.action", protocol, opts);
    }
  }

  lemma ConsumeBack(c: ConsumeSpec)
    requires NormalConsume(c)
    ensures ParseConsume(ConsumeJson(c)) == Good(c)
  {
  }

  /** The optional members leave the others alone. */
  lemma RequiredStay(r: Rule, key: string)
    requires key !in ["request", "response", "consume"]
    ensures Get(ToJson(r), key) == Get(Obj(Required(r)), key)
  {
  }

  lemma NameMembers(r: Rule)
    ensures var input := ToJson(r);
            && Get(input, "name") == Some(Str(r.name)) && Get(input, "description") == Some(Str(r.description))
  {
    RequiredStay(r, "name");
    RequiredStay(r, "description");
  }

  lemma IdMembers(r: Rule)
    ensures var input := ToJson(r);
            Get(input, "schemaVersion") == Some(Number(1.0)) && Get(input, "id") == Some(Str(r.id))
  {
    RequiredStay(r, "schemaVersion");
    RequiredStay(r, "id");
  }

  lemma SwitchMembers(r: Rule)
    ensures var input := ToJson(r);
            && Get(input, "enabled") == Some(Bool(r.enabled))
            && Get(input, "priority") == Some(Number(r.priority as real))
            && Get(input, "protocol") == Some(Str(ProtocolName(r.protocol)))
  {
    RequiredStay(r, "enabled");
    RequiredStay(r, "priority");
    RequiredStay(r, "protocol");
  }

  lemma HeadParses(input: Json, r: Rule, freshId: string)
    requires IdOk(r.id) && input.Obj?
    requires Get(input, "schemaVersion") == Some(Number(1.0)) && Get(input, "id") == Some(Str(r.id))
    requires Get(input, "name") == Some(Str(r.name)) && Get(input, "description") == Some(Str(r.description))
    requires Get(input, "enabled") == Some(Bool(r.enabled)) && Get(input, "priority") == Some(Number(r.priority as real))
    requires Get(input, "protocol") == Some(Str(ProtocolName(r.protocol)))
    ensures HeadErrors(input) == [] && ParseProtocol(input) == Some(r.protocol)
    ensures IdErrors(input) == [] && IdOf(input, freshId) == r.id
    ensures ParseText(input, "name") == Good(r.name) && ParseText(input, "description") == Good(r.description)
    ensures ParseEnabled(input) == Good(r.enabled) && ParsePriority(input) == Good(r.priority)
  {
  }

  lemma HeadBack(r: Rule, freshId: string)
    requires IdOk(r.id)
    ensures var input := ToJson(r);
            && HeadErrors(input) == [] && ParseProtocol(input) == Some(r.protocol)
            && IdErrors(input) == [] && IdOf(input, freshId) == r.id
            && ParseText(input, "name") == Good(r.name) && ParseText(input, "description") == Good(r.description)
            && ParseEnabled(input) == Good(r.enabled) && ParsePriority(input) == Good(r.priority)
  {
    IdMembers(r);
    NameMembers(r);
    SwitchMembers(r);
    HeadParses(ToJson(r), r, freshId);
  }

  lemma TailBack(r: Rule, opts: Options)
    requires NormalTime(r.createdAt, opts) && NormalTime(r.updatedAt, opts)
    ensures var input := ToJson(r);
            && ParseCapture(input) == Good(r.capture)
            && ParseTime(input, "createdAt", opts) == r.createdAt && ParseTime(input, "updatedAt", opts) == r.updatedAt
  {
    CaptureBack(r);
    TimesBack(r, opts);
  }

  lemma CaptureBack(r: Rule)
    ensures ParseCapture(ToJson(r)) == Good(r.capture)
  {
    RequiredStay(r, "logging");
    assert Get(ToJson(r), "logging") == Some(Obj(map["capture" := Bool(r.capture)]));
  }

  lemma TimesBack(r: Rule, opts: Options)
    requires NormalTime(r.createdAt, opts) && NormalTime(r.updatedAt, opts)
    ensures var input := ToJson(r);
            ParseTime(input, "createdAt", opts) == r.createdAt && ParseTime(input, "updatedAt", opts) == r.updatedAt
  {
    RequiredStay(r, "createdAt");
    RequiredStay(r, "updatedAt");
  }

  lemma MembersBack(r: Rule)
    ensures var input := ToJson(r);
            && Get(input, "match") == Some(MatcherJson(r.match_))
            && Get(input, "request") == (if r.request.Some? then Some(RequestJson(r.request.value)) else None)
            && Get(input, "response") == (if r.response.Some? then Some(ResponseJson(r.response.value)) else None)
            && Get(input, "consume") == (if r.consume.Some? then Some(ConsumeJson(r.consume.value)) else None)
  {
  }

  lemma StagesBack(r: Rule, opts: Options)
    requires Normal(r, opts)
    ensures var input := ToJson(r);
            && ParseMatcher(GetOr(Get(input, "match"), Null), "match", RequestSide, r.protocol, opts) == Good(r.match_)
            && ParseRequest(input, r.protocol, opts) == Parsed(r.request, [])
            && ParseResponse(input, r.protocol, opts) == Parsed(r.response, [])
            && ConsumeOf(input) == Parsed(r.consume, [])
  {
    var input := ToJson(r);
    MembersBack(r);
    MatcherBack(r.match_, "match", RequestSide, r.protocol, opts);
    if r.request.Some? {
      RequestBack(r.request.value, input, r.protocol, opts);
    }
    if r.response.Some? {
      ResponseBack(r.response.value, input, r.protocol, opts);
    }
    if r.consume.Some? {
      ConsumeBack(r.consume.value);
    }
  }

  /** A normal rule written out as JSON validates to itself. */
  lemma NormalReadsBack(r: Rule, opts: Options, freshId: string)
    requires Normal(r, opts)
    ensures ValidateRule(ToJson(r), opts, freshId) == Good(r)
  {
    var input := ToJson(r);
    HeadBack(r, freshId);
    TailBack(r, opts);
    StagesBack(r, opts);
    MembersBack(r);
    assert CrossErrors(input, r.capture, r.request, r.protocol, opts) == [];
    assert BodyOf(input, freshId, r.protocol, opts) == Good(r);
  }

  /** Validation is idempotent: its own output, written out, validates to itself. */
  lemma ValidatedStaysValid(input: Json, opts: Options, freshId: string, otherId: string)
    requires IdOk(freshId) && ValidateRule(input, opts, freshId).value.Some?
    ensures ValidateRule(ToJson(ValidateRule(input, opts, freshId).value.value), opts, otherId)
            == ValidateRule(input, opts, freshId)
  {
    AcceptedIsNormal(input, opts, freshId);
    NormalReadsBack(ValidateRule(input, opts, freshId).value.value, opts, otherId);
  }
}
