/**
 * `validateRule` as the source runs it (src/rules/validate.ts): the parsers
 * push what they find into one `Issues` object while they build the rule.
 */
module RuleValidator {
  import opened Common
  import opened JsonModel
  import opened RuleTypes
  import opened Text
  import opened Validate
  import Matchers

  class Issues {
    var errors: seq<Issue>
    var warnings: seq<Issue>

    constructor ()
      ensures errors == [] && warnings == []
    {
      errors, warnings := [], [];
    }

    method Error(path: string, reason: string)
      modifies this`errors
      ensures errors == old(errors) + [Issue(path, reason)]
    {
      errors := errors + [Issue(path, reason)];
    }

    method Warning(path: string, reason: string)
      modifies this`warnings
      ensures warnings == old(warnings) + [Issue(path, reason)]
    {
      warnings := warnings + [Issue(path, reason)];
    }

    method Report(found: seq<Issue>)
      modifies this`errors
      ensures errors == old(errors) + found
    {
      errors := errors + found;
    }
  }

  method ValidateFieldForStage(field: string, path: string, stage: Stage, protocol: Protocol, issues: Issues)
    modifies issues`errors
    ensures issues.errors == old(issues.errors) + FieldErrors(field, path, stage, protocol)
  {
    if StartsWith(field, "header.") {
      if |field| <= |"header."| {
        issues.Error(path + ".field", "invalid_field");
      }
      return;
    }
    if stage == ResponseSide && StartsWith(field, "grpc.trailer.") {
      if protocol != Grpc {
        issues.Error(path + ".field", "field_protocol_mismatch");
      }
      return;
    }
    var allowed := if stage == RequestSide then RequestFieldRule(field) else ResponseFieldRule(field);
    if allowed == Unknown {
      issues.Error(path + ".field", "invalid_field");
      return;
    }
    if allowed != Both && allowed != (if protocol == Http then HttpOnly else GrpcOnly) {
      issues.Error(path + ".field", "field_protocol_mismatch");
    }
  }

  method ParseMatcherInto(input: Json, path: string, stage: Stage, protocol: Protocol, opts: Options, issues: Issues)
    returns (m: Option<Matcher>)
    modifies issues`errors
    ensures m == ParseMatcher(input, path, stage, protocol, opts).value
    ensures issues.errors == old(issues.errors) + ParseMatcher(input, path, stage, protocol, opts).errors
    decreases input, 1
  {
    if !input.Obj? {
      issues.Error(path, "invalid_matcher");
      return None;
    }
    var kind := GetStr(input, "type");
    if kind == Some("regex") {
      m := ParseRegexInto(input, path, stage, protocol, opts, issues);
    } else if kind == Some("all") || kind == Some("any") {
      if Absent(input, "conditions") || !input.fields["conditions"].Arr? || input.fields["conditions"].items == [] {
        issues.Error(path + ".conditions", "invalid_conditions");
        return None;
      }
      var conditions := input.fields["conditions"].items;
      var parsed := ParseConditionsInto(conditions, path, stage, protocol, opts, issues);
      if |parsed| != |conditions| {
        return None;
      }
      return Some(if kind == Some("all") then All(parsed) else Any(parsed));
    } else if kind == Some("not") {
      if Absent(input, "condition") {
        issues.Error(path + ".condition", "invalid_matcher");
        return None;
      }
      var condition :=
        ParseMatcherInto(input.fields["condition"], path + ".condition", stage, protocol, opts, issues);
      m := if condition.Some? then Some(Not(condition.value)) else None;
    } else {
      var parsed := if kind == Some("script") then ParseScript(input, path) else Fail(path + ".type", "invalid_matcher_type");
      issues.Report(parsed.errors);
      m := parsed.value;
    }
  }

  method ParseRegexInto(input: Json, path: string, stage: Stage, protocol: Protocol, opts: Options, issues: Issues)
    returns (m: Option<Matcher>)
    requires input.Obj?
    modifies issues`errors
    ensures m == ParseRegex(input, path, stage, protocol, opts).value
    ensures issues.errors == old(issues.errors) + ParseRegex(input, path, stage, protocol, opts).errors
  {
    var field, pattern, flags := GetStr(input, "field"), GetStr(input, "pattern"), GetStr(input, "flags");
    if field.None? || field.value == "" {
      issues.Error(path + ".field", "invalid_field");
      return None;
    }
    if pattern.None? {
      issues.Error(path + ".pattern", "invalid_pattern");
      return None;
    }
    if !OptStr(input, "flags") {
      issues.Error(path + ".flags", "invalid_flags");
      return None;
    }
    if !opts.regexOk(pattern.value, GetOr(flags, "")) {
      issues.Error(path + ".pattern", "invalid_regex");
      return None;
    }
    ValidateFieldForStage(field.value, path, stage, protocol, issues);
    m := Some(Regex(field.value, pattern.value, flags));
  }

  function AsList<T>(o: Option<T>): seq<T> {
    if o.Some? then [o.value] else []
  }

  /**
   * `all` is what has been parsed so far and what the rest of the conditions
   * will add; likewise the errors, of which `start` were there before.
   */
  predicate SoFar(
    all: (seq<Matcher>, seq<Issue>), start: seq<Issue>, parsed: seq<Matcher>, errors: seq<Issue>,
    rest: (seq<Matcher>, seq<Issue>))
  {
    all.0 == parsed + rest.0 && start + all.1 == errors + rest.1
  }

  lemma SoFarCollect(
    all: (seq<Matcher>, seq<Issue>), start: seq<Issue>, parsed: seq<Matcher>, errors: seq<Issue>,
    step: Parsed<Matcher>, rest: (seq<Matcher>, seq<Issue>))
    requires SoFar(all, start, parsed, errors, Collect(step, rest))
    ensures SoFar(all, start, parsed + AsList(step.value), errors + step.errors, rest)
  {
  }

  lemma ConditionsUnfold(
    conditions: seq<Json>, i: nat, path: string, stage: Stage, protocol: Protocol, opts: Options)
    requires i < |conditions|
    ensures ParseConditions(conditions[i..], i, path, stage, protocol, opts)
            == Collect(ParseMatcher(conditions[i], ConditionPath(path, i), stage, protocol, opts),
                       ParseConditions(conditions[i + 1..], i + 1, path, stage, protocol, opts))
  {
    assert conditions[i..][0] == conditions[i] && conditions[i..][1..] == conditions[i + 1..];
  }

  /** Where the loop stands before condition `i`. */
  ghost predicate Reached(
    conditions: seq<Json>, i: nat, path: string, stage: Stage, protocol: Protocol, opts: Options,
    start: seq<Issue>, parsed: seq<Matcher>, errors: seq<Issue>)
    requires i <= |conditions|
  {
    SoFar(ParseConditions(conditions, 0, path, stage, protocol, opts), start, parsed, errors,
          ParseConditions(conditions[i..], i, path, stage, protocol, opts))
  }

  lemma ReachedNext(
    conditions: seq<Json>, i: nat, path: string, stage: Stage, protocol: Protocol, opts: Options,
    start: seq<Issue>, parsed: seq<Matcher>, errors: seq<Issue>, step: Parsed<Matcher>)
    requires i < |conditions| && Reached(conditions, i, path, stage, protocol, opts, start, parsed, errors)
    requires step == ParseMatcher(conditions[i], ConditionPath(path, i), stage, protocol, opts)
    ensures Reached(conditions, i + 1, path, stage, protocol, opts, start, parsed + AsList(step.value),
                    errors + step.errors)
  {
    ConditionsUnfold(conditions, i, path, stage, protocol, opts);
    SoFarCollect(ParseConditions(conditions, 0, path, stage, protocol, opts), start, parsed, errors, step,
                 ParseConditions(conditions[i + 1..], i + 1, path, stage, protocol, opts));
  }

  lemma ReachedEnds(
    conditions: seq<Json>, path: string, stage: Stage, protocol: Protocol, opts: Options,
    start: seq<Issue>, parsed: seq<Matcher>, errors: seq<Issue>)
    ensures Reached(conditions, 0, path, stage, protocol, opts, start, [], start)
    ensures Reached(conditions, |conditions|, path, stage, protocol, opts, start, parsed, errors) ==>
              parsed == ParseConditions(conditions, 0, path, stage, protocol, opts).0
              && errors == start + ParseConditions(conditions, 0, path, stage, protocol, opts).1
  {
    assert conditions[0..] == conditions && conditions[|conditions|..] == [];
  }

  /** `conditions.forEach`: goes on after a condition that could not be parsed. */
  method ParseConditionsInto(
    conditions: seq<Json>, path: string, stage: Stage, protocol: Protocol, opts: Options, issues: Issues)
    returns (parsed: seq<Matcher>)
    modifies issues`errors
    ensures parsed == ParseConditions(conditions, 0, path, stage, protocol, opts).0
    ensures issues.errors == old(issues.errors) + ParseConditions(conditions, 0, path, stage, protocol, opts).1
    decreases conditions, 1
  {
    parsed := [];
    ghost var start := issues.errors;
    ReachedEnds(conditions, path, stage, protocol, opts, start, parsed, start);
    for i := 0 to |conditions|
      invariant Reached(conditions, i, path, stage, protocol, opts, start, parsed, issues.errors)
    {
      parsed := ParseOneInto(conditions, i, path, stage, protocol, opts, issues, start, parsed);
    }
    ReachedEnds(conditions, path, stage, protocol, opts, start, parsed, issues.errors);
  }

  /** One turn of it. */
  method ParseOneInto(
    conditions: seq<Json>, i: nat, path: string, stage: Stage, protocol: Protocol, opts: Options, issues: Issues,
    ghost start: seq<Issue>, parsed: seq<Matcher>) returns (more: seq<Matcher>)
    requires i < |conditions|
    requires Reached(conditions, i, path, stage, protocol, opts, start, parsed, issues.errors)
    modifies issues`errors
    ensures Reached(conditions, i + 1, path, stage, protocol, opts, start, more, issues.errors)
    decreases conditions, 0
  {
    ghost var step := ParseMatcher(conditions[i], ConditionPath(path, i), stage, protocol, opts);
    ReachedNext(conditions, i, path, stage, protocol, opts, start, parsed, issues.errors, step);
    var m := ParseMatcherInto(conditions[i], ConditionPath(path, i), stage, protocol, opts, issues);
    more := parsed + AsList(m);
  }

  /** The first operation that cannot be used ends the loop. */
  method ParseOperationsInto(input: seq<Json>, path: string, protocol: Protocol, opts: Options, issues: Issues)
    returns (operations: Option<seq<RewriteOperation>>)
    modifies issues`errors
    ensures operations == ParseOperations(input, 0, path, protocol, opts).value
    ensures issues.errors == old(issues.errors) + ParseOperations(input, 0, path, protocol, opts).errors
  {
    var parsed := [];
    assert input[0..] == input;
    PrefixedNone(ParseOperations(input, 0, path, protocol, opts));
    for i := 0 to |input|
      invariant issues.errors == old(issues.errors)
      invariant ParseOperations(input, 0, path, protocol, opts)
                == Prefixed(parsed, ParseOperations(input[i..], i, path, protocol, opts))
    {
      var op := ParseOperation(input[i], OperationPath(path, i), opts);
      assert input[i..][1..] == input[i + 1..];
      if op.value.None? {
        issues.Report(op.errors);
        return None;
      }
      if protocol == Grpc && !OnHeaders(op.value.value) {
        issues.Error(OperationPath(path, i), "grpc_rewrite_unsupported");
        return None;
      }
      PrefixedMore(parsed, op.value.value, ParseOperations(input[i + 1..], i + 1, path, protocol, opts));
      parsed := parsed + [op.value.value];
    }
    assert input[|input|..] == [] && parsed + [] == parsed;
    operations := Some(parsed);
  }

  function Prefixed(before: seq<RewriteOperation>, rest: Parsed<seq<RewriteOperation>>):
    Parsed<seq<RewriteOperation>>
  {
    if rest.value.Some? then rest.(value := Some(before + rest.value.value)) else rest
  }

  lemma PrefixedNone(rest: Parsed<seq<RewriteOperation>>)
    ensures Prefixed([], rest) == rest
  {
    if rest.value.Some? {
      assert [] + rest.value.value == rest.value.value;
    }
  }

  lemma PrefixedMore(before: seq<RewriteOperation>, op: RewriteOperation, rest: Parsed<seq<RewriteOperation>>)
    requires rest.value.Some? ==> rest.errors == []
    ensures Prefixed(before + [op], rest)
            == Prefixed(before, if rest.value.None? then rest else Good([op] + rest.value.value))
  {
    if rest.value.Some? {
      assert before + [op] + rest.value.value == before + ([op] + rest.value.value);
    }
  }

  method ParseRequestActionInto(raw: Json, protocol: Protocol, opts: Options, issues: Issues)
    returns (action: Option<RequestAction>)
    requires raw.Obj?
    modifies issues`errors
    ensures action == RequestActionOf(raw, protocol, opts).value
    ensures issues.errors == old(issues.errors) + RequestActionOf(raw, protocol, opts).errors
  {
    if Absent(raw, "action") {
      return None;
    }
    var input := raw.fields["action"];
    assert "request.action" + ".operations" == "request.action.operations";
    if input.Obj? && GetStr(input, "type") == Some("request_rewrite") {
      if Absent(input, "operations") || !input.fields["operations"].Arr? || input.fields["operations"].items == [] {
        issues.Error("request.action.operations", "invalid_operations");
        return None;
      }
      var operations := ParseOperationsInto(input.fields["operations"].items, "request.action", protocol, opts, issues);
      return if operations.Some? then Some(RequestRewrite(operations.value)) else None;
    }
    var parsed := ParseRequestAction(input, "request.action", protocol, opts);
    issues.Report(parsed.errors);
    action := parsed.value;
  }

  method ParseDelayInto(raw: Json, path: string, stage: Stage, issues: Issues) returns (delay: Option<Delay>)
    requires raw.Obj?
    modifies issues`errors
    ensures delay == StageDelay(raw, path, stage).value
    ensures issues.errors == old(issues.errors) + StageDelay(raw, path, stage).errors
  {
    if Absent(raw, "delay") {
      return None;
    }
    var parsed := ParseDelay(raw.fields["delay"], path, stage);
    issues.Report(parsed.errors);
    delay := parsed.value;
  }

  method ParseStageMatchInto(raw: Json, protocol: Protocol, opts: Options, issues: Issues) returns (m: Option<Matcher>)
    requires raw.Obj?
    modifies issues`errors
    ensures m == StageMatch(raw, protocol, opts).value
    ensures issues.errors == old(issues.errors) + StageMatch(raw, protocol, opts).errors
  {
    if Absent(raw, "match") {
      return None;
    }
    m := ParseMatcherInto(raw.fields["match"], "response.match", ResponseSide, protocol, opts, issues);
  }

  method CheckStage(raw: Json, path: string, issues: Issues)
    requires raw.Obj?
    modifies issues`errors
    ensures issues.errors == old(issues.errors) + EmptyStage(raw, path)
  {
    if Absent(raw, "delay") && Absent(raw, "action") {
      issues.Error(path, "empty_stage");
    }
  }

  method ParseRequestInto(input: Json, protocol: Protocol, opts: Options, issues: Issues)
    returns (stage: Option<RequestStage>)
    requires input.Obj?
    modifies issues`errors
    ensures stage == ParseRequest(input, protocol, opts).value
    ensures issues.errors == old(issues.errors) + ParseRequest(input, protocol, opts).errors
  {
    if Absent(input, "request") {
      return None;
    }
    var raw := input.fields["request"];
    if !raw.Obj? {
      issues.Error("request", "invalid_stage");
      return None;
    }
    stage := ParseRequestStageInto(raw, protocol, opts, issues);
  }

  method ParseRequestStageInto(raw: Json, protocol: Protocol, opts: Options, issues: Issues)
    returns (stage: Option<RequestStage>)
    requires raw.Obj?
    modifies issues`errors
    ensures stage == ParseRequestStage(raw, protocol, opts).value
    ensures issues.errors == old(issues.errors) + ParseRequestStage(raw, protocol, opts).errors
  {
    var delay := ParseDelayInto(raw, "request.delay", RequestSide, issues);
    var action := ParseRequestActionInto(raw, protocol, opts, issues);
    stage := FinishRequest(raw, delay, action, issues, old(issues.errors),
                           StageDelay(raw, "request.delay", RequestSide), RequestActionOf(raw, protocol, opts));
  }

  method FinishRequest(
    raw: Json, delay: Option<Delay>, action: Option<RequestAction>, issues: Issues,
    ghost before: seq<Issue>, ghost parsedDelay: Parsed<Delay>, ghost parsedAction: Parsed<RequestAction>)
    returns (stage: Option<RequestStage>)
    requires raw.Obj? && delay == parsedDelay.value && action == parsedAction.value
    requires issues.errors == before + parsedDelay.errors + parsedAction.errors
    modifies issues`errors
    ensures stage == AssembleRequest(raw, parsedDelay, parsedAction).value
    ensures issues.errors == before + AssembleRequest(raw, parsedDelay, parsedAction).errors
  {
    CheckStage(raw, "request", issues);
    stage := Some(RequestStage(delay, action));
  }

  method ParseResponseInto(input: Json, protocol: Protocol, opts: Options, issues: Issues)
    returns (stage: Option<ResponseStage>)
    requires input.Obj?
    modifies issues`errors
    ensures stage == ParseResponse(input, protocol, opts).value
    ensures issues.errors == old(issues.errors) + ParseResponse(input, protocol, opts).errors
  {
    if Absent(input, "response") {
      return None;
    }
    var raw := input.fields["response"];
    if !raw.Obj? {
      issues.Error("response", "invalid_stage");
      return None;
    }
    stage := ParseResponseStageInto(raw, protocol, opts, issues);
  }

  method ParseResponseStageInto(raw: Json, protocol: Protocol, opts: Options, issues: Issues)
    returns (stage: Option<ResponseStage>)
    requires raw.Obj?
    modifies issues`errors
    ensures stage == ParseResponseStage(raw, protocol, opts).value
    ensures issues.errors == old(issues.errors) + ParseResponseStage(raw, protocol, opts).errors
  {
    var m := ParseStageMatchInto(raw, protocol, opts, issues);
    var delay := ParseDelayInto(raw, "response.delay", ResponseSide, issues);
    stage := FinishResponse(raw, m, delay, ResponseActionOf(raw, protocol, opts), issues, old(issues.errors),
                            StageMatch(raw, protocol, opts), StageDelay(raw, "response.delay", ResponseSide));
  }

  method FinishResponse(
    raw: Json, m: Option<Matcher>, delay: Option<Delay>, action: Parsed<ResponseAction>, issues: Issues,
    ghost before: seq<Issue>, ghost parsedMatch: Parsed<Matcher>, ghost parsedDelay: Parsed<Delay>)
    returns (stage: Option<ResponseStage>)
    requires raw.Obj? && m == parsedMatch.value && delay == parsedDelay.value
    requires issues.errors == before + parsedMatch.errors + parsedDelay.errors
    modifies issues`errors
    ensures stage == AssembleResponse(raw, parsedMatch, parsedDelay, action).value
    ensures issues.errors == before + AssembleResponse(raw, parsedMatch, parsedDelay, action).errors
  {
    issues.Report(action.errors);
    CheckStage(raw, "response", issues);
    stage := Some(ResponseStage(m, delay, action.value));
  }

  predicate Terminal(action: RequestAction) {
    action.MockResponse? || action.RequestFault?
  }

  /** Warnings never block: they say that part of the rule cannot take effect. */
  function WarningsOf(
    match_: Option<Matcher>, request: Option<RequestStage>, response: Option<ResponseStage>, protocol: Protocol,
    opts: Options): seq<Issue>
  {
    (if request.Some? && request.value.action.Some? && Terminal(request.value.action.value) && response.Some? then
       [Issue("response", "unreachable_response_stage")]
     else [])
    + (if match_.Some? && Matchers.UsesBody(match_.value) && protocol == Grpc && opts.grpcBodyValidator.None? then
         [Issue("match", "descriptor_required")]
       else [])
  }

  /** The fields before the protocol. */
  method ParseHead(input: Json, issues: Issues)
    requires input.Obj?
    modifies issues`errors
    ensures issues.errors == old(issues.errors) + HeadErrors(input)
  {
    if OrDefault(input, "schemaVersion", Number(1.0)) != Number(1.0) {
      issues.Error("schemaVersion", "unsupported_schema_version");
    }
    issues.Report(IdErrors(input));
    issues.Report(ParseText(input, "name").errors);
    issues.Report(ParseText(input, "description").errors);
    issues.Report(ParseEnabled(input).errors);
    issues.Report(ParsePriority(input).errors);
    Regroup(old(issues.errors), SchemaErrors(input), IdErrors(input), ParseText(input, "name").errors,
            ParseText(input, "description").errors, ParseEnabled(input).errors, ParsePriority(input).errors);
  }

  /** The cross-field rules. */
  method CheckAcross(
    input: Json, capture: bool, match_: Option<Matcher>, request: Option<RequestStage>, response: Option<ResponseStage>,
    protocol: Protocol, opts: Options, issues: Issues)
    requires input.Obj?
    modifies issues
    ensures issues.errors == old(issues.errors) + CrossErrors(input, capture, request, protocol, opts)
    ensures issues.warnings == old(issues.warnings) + WarningsOf(match_, request, response, protocol, opts)
  {
    if Absent(input, "request") && Absent(input, "response") && !capture {
      issues.Error("", "noop_rule");
    }
    if request.Some? && request.value.action.Some? && Terminal(request.value.action.value) && response.Some? {
      issues.Warning("response", "unreachable_response_stage");
    }
    if SpellsOutMessages(request) && protocol == Grpc && opts.grpcBodyValidator.None? {
      issues.Error("request.action.response.messages", "descriptor_required");
    }
    if match_.Some? && Matchers.UsesBody(match_.value) && protocol == Grpc && opts.grpcBodyValidator.None? {
      issues.Warning("match", "descriptor_required");
    }
  }

  /** Everything after the protocol but the body validator. */
  method ParseBody(input: Json, freshId: string, protocol: Protocol, opts: Options, issues: Issues) returns (rule: Option<Rule>)
    requires input.Obj?
    modifies issues
    ensures rule == BodyOf(input, freshId, protocol, opts).value
    ensures issues.errors == old(issues.errors) + BodyOf(input, freshId, protocol, opts).errors
    ensures rule.Some? ==>
              issues.warnings
              == old(issues.warnings) + WarningsOf(Some(rule.value.match_), rule.value.request, rule.value.response, protocol, opts)
  {
    var match_ := ParseMatcherInto(GetOr(Get(input, "match"), Null), "match", RequestSide, protocol, opts, issues);
    var request := ParseRequestInto(input, protocol, opts, issues);
    var response := ParseResponseInto(input, protocol, opts, issues);
    rule := FinishBody(input, freshId, protocol, opts, match_, request, response, issues, old(issues.errors),
                       ParseMatcher(GetOr(Get(input, "match"), Null), "match", RequestSide, protocol, opts),
                       ParseRequest(input, protocol, opts), ParseResponse(input, protocol, opts));
  }

  /** From the `consume` member to the finished rule. */
  method FinishBody(
    input: Json, freshId: string, protocol: Protocol, opts: Options,
    match_: Option<Matcher>, request: Option<RequestStage>, response: Option<ResponseStage>, issues: Issues,
    ghost before: seq<Issue>, ghost parsedMatch: Parsed<Matcher>, ghost parsedRequest: Parsed<RequestStage>,
    ghost parsedResponse: Parsed<ResponseStage>) returns (rule: Option<Rule>)
    requires input.Obj?
    requires match_ == parsedMatch.value && request == parsedRequest.value && response == parsedResponse.value
    requires issues.errors == before + parsedMatch.errors + parsedRequest.errors + parsedResponse.errors
    modifies issues
    ensures rule == Assemble(input, freshId, protocol, opts, parsedMatch, parsedRequest, parsedResponse).value
    ensures issues.errors == before + Assemble(input, freshId, protocol, opts, parsedMatch, parsedRequest, parsedResponse).errors
    ensures rule.Some? ==>
              issues.warnings
              == old(issues.warnings) + WarningsOf(Some(rule.value.match_), rule.value.request, rule.value.response, protocol, opts)
  {
    var consume, capture := ConsumeOf(input).errors, ParseCapture(input);
    issues.Report(consume);
    issues.Report(capture.errors);
    CheckAcross(input, capture.value.value, match_, request, response, protocol, opts, issues);
    Regroup(before, parsedMatch.errors, parsedRequest.errors, parsedResponse.errors, consume, capture.errors,
            CrossErrors(input, capture.value.value, request, protocol, opts));
    rule := if match_.None? then None else Some(Built(input, freshId, protocol, opts, match_.value, request, response));
  }

  lemma Regroup<T>(before: seq<T>, a: seq<T>, b: seq<T>, c: seq<T>, d: seq<T>, e: seq<T>, f: seq<T>)
    ensures before + a + b + c + d + e + f == before + (a + b + c + d + e + f)
  {
  }

  /** The whole procedure: the rule and the errors are those of `ValidateRule`. */
  method Run(input: Json, opts: Options, freshId: string) returns (rule: Option<Rule>, issues: Issues)
    ensures fresh(issues)
    ensures rule == ValidateRule(input, opts, freshId).value && issues.errors == ValidateRule(input, opts, freshId).errors
    ensures rule.Some? ==>
              issues.warnings
              == WarningsOf(Some(rule.value.match_), rule.value.request, rule.value.response, rule.value.protocol, opts)
  {
    issues := new Issues();
    rule := None;
    if !input.Obj? {
      issues.Error("", "invalid_rule");
      return;
    }
    ParseHead(input, issues);
    assert issues.errors == HeadErrors(input);
    var protocol := ParseProtocol(input);
    if protocol.None? {
      issues.Error("protocol", "invalid_protocol");
      return;
    }
    rule := ParseBody(input, freshId, protocol.value, opts, issues);
    rule := Decide(rule, protocol.value, opts, issues, HeadErrors(input), BodyOf(input, freshId, protocol.value, opts));
  }

  /** No rule if there were errors, or if the body validator finds some. */
  method Decide(
    parsed: Option<Rule>, protocol: Protocol, opts: Options, issues: Issues, ghost head: seq<Issue>,
    ghost body: Parsed<Rule>) returns (rule: Option<Rule>)
    requires parsed == body.value && issues.errors == head + body.errors
    modifies issues`errors
    ensures if head + body.errors != [] || body.value.None? then rule.None? && issues.errors == head + body.errors
            else
              var extra := BodyErrors(body.value.value.match_, body.value.value.request, protocol, opts);
              issues.errors == extra && rule == if extra != [] then None else body.value
  {
    if issues.errors != [] || parsed.None? {
      return None;
    }
    issues.Report(BodyErrors(parsed.value.match_, parsed.value.request, protocol, opts));
    rule := if issues.errors != [] then None else parsed;
  }
}
