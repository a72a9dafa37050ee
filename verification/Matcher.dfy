/** Matchers and their evaluation (src/rules/matcher.ts). */
module Matchers {
  import opened Common
  import opened RuleTypes
  import opened Text

  datatype HeaderValue = One(value: string) | Many(values: seq<string>)

  type HeaderMap = map<string, HeaderValue>

  /** `messages` stands for the decoded messages only scripts can look at. */
  datatype GrpcRequest =
    GrpcRequest(service: Option<string>, method_: Option<string>, metadata: HeaderMap, messages: Option<string>)

  datatype RequestSnapshot = RequestSnapshot(
    method_: Option<string>,
    host: Option<string>,
    path: Option<string>,
    query: Option<string>,
    headers: HeaderMap,
    body: Option<string>,
    rawBodyBase64: Option<string>,
    grpc: Option<GrpcRequest>)

  datatype GrpcResponse =
    GrpcResponse(status: Option<int>, message: Option<string>, trailers: HeaderMap, messages: Option<string>)

  datatype ResponseSnapshot = ResponseSnapshot(
    statusCode: Option<int>,
    headers: HeaderMap,
    body: Option<string>,
    rawBodyBase64: Option<string>,
    grpc: Option<GrpcResponse>)

  datatype RuleStateView = RuleStateView(hits: nat, remaining: Option<int>)

  datatype MatchInput = MatchInput(
    stage: Stage,
    request: RequestSnapshot,
    response: Option<ResponseSnapshot>,
    ruleState: RuleStateView)

  /**
   * The engines the matcher calls: `test` is `new RegExp(pattern, flags).test(value)`,
   * `script` the sandbox, absent when the proxy runs without one.
   */
  datatype Engines = Engines(
    test: (string, string, string) -> bool,
    script: Option<(string, MatchInput) -> Result<bool, string>>)

  const NO_SANDBOX := "script matcher requires the script sandbox, which is not available"

  function HeaderValues(headers: HeaderMap, name: string): seq<string> {
    if ToLower(name) !in headers then []
    else match headers[ToLower(name)]
      case One(value) => [value]
      case Many(values) => values
  }

  function ListOf(value: Option<string>): seq<string> {
    if value.Some? then [value.value] else []
  }

  function ResolveRequestField(field: string, request: RequestSnapshot): seq<string> {
    if field == "method" then ListOf(request.method_)
    else if field == "host" then ListOf(request.host)
    else if field == "path" then ListOf(request.path)
    else if field == "query" then ListOf(request.query)
    else if field == "body" then ListOf(request.body)
    else if field == "rawBodyBase64" then ListOf(request.rawBodyBase64)
    else if field == "grpc.service" then
      if request.grpc.Some? then ListOf(request.grpc.value.service) else []
    else if field == "grpc.method" then
      if request.grpc.Some? then ListOf(request.grpc.value.method_) else []
    else if "header." <= field then
      var name := field[|"header."|..];
      var fromHeaders := HeaderValues(request.headers, name);
      if |fromHeaders| > 0 then fromHeaders
      else if request.grpc.Some? then HeaderValues(request.grpc.value.metadata, name)
      else []
    else []
  }

  function ResolveResponseField(field: string, response: ResponseSnapshot): seq<string> {
    if field == "status" then
      if response.statusCode.Some? then [IntToString(response.statusCode.value)] else []
    else if field == "body" then ListOf(response.body)
    else if field == "rawBodyBase64" then ListOf(response.rawBodyBase64)
    else if field == "grpc.status" then
      if response.grpc.Some? && response.grpc.value.status.Some?
      then [IntToString(response.grpc.value.status.value)] else []
    else if "header." <= field then HeaderValues(response.headers, field[|"header."|..])
    else if "grpc.trailer." <= field then
      if response.grpc.Some?
      then HeaderValues(response.grpc.value.trailers, field[|"grpc.trailer."|..]) else []
    else []
  }

  /** The candidate values of a field; empty when it has none here. */
  function ResolveField(field: string, input: MatchInput): seq<string> {
    match input.stage
    case RequestSide => ResolveRequestField(field, input.request)
    case ResponseSide =>
      if input.response.None? then [] else ResolveResponseField(field, input.response.value)
  }

  predicate SomeMatches(pattern: string, flags: string, values: seq<string>, engines: Engines) {
    exists i :: 0 <= i < |values| && engines.test(pattern, flags, values[i])
  }

  /** `Err` is a thrown matcher failure. */
  function EvalMatcher(matcher: Matcher, input: MatchInput, engines: Engines): Result<bool, string>
    decreases matcher, 1
  {
    match matcher
    case Regex(field, pattern, flags) =>
      Ok(SomeMatches(pattern, if flags.Some? then flags.value else "", ResolveField(field, input), engines))
    case All(conditions) => EvalConditions(conditions, false, input, engines)
    case Any(conditions) => EvalConditions(conditions, true, input, engines)
    case Not(condition) =>
      (match EvalMatcher(condition, input, engines)
       case Ok(b) => Ok(!b)
       case Err(e) => Err(e))
    case Script(source, _) =>
      if engines.script.None? then Err(NO_SANDBOX) else engines.script.value(source, input)
  }

  /**
   * The loops of `all` (stop at the first false) and `any` (stop at the first
   * true): conditions run in order until one answers `stop` or throws.
   */
  function EvalConditions(conditions: seq<Matcher>, stop: bool, input: MatchInput, engines: Engines)
    : Result<bool, string>
    decreases conditions, 0
  {
    if conditions == [] then Ok(!stop)
    else match EvalMatcher(conditions[0], input, engines)
      case Err(e) => Err(e)
      case Ok(b) => if b == stop then Ok(stop) else EvalConditions(conditions[1..], stop, input, engines)
  }

  // ---- fields of a matcher tree

  function Fields(matcher: Matcher): seq<string>
    decreases matcher, 1
  {
    match matcher
    case Regex(field, _, _) => [field]
    case All(conditions) => FieldsOf(conditions)
    case Any(conditions) => FieldsOf(conditions)
    case Not(condition) => Fields(condition)
    case Script(_, _) => []
  }

  function FieldsOf(conditions: seq<Matcher>): seq<string>
    decreases conditions, 0
  {
    if conditions == [] then [] else Fields(conditions[0]) + FieldsOf(conditions[1..])
  }

  /** The accumulator array that `collectMatcherFields` pushes into. */
  class FieldList {
    var items: seq<string>

    constructor ()
      ensures items == []
    {
      items := [];
    }
  }

  /** Appends the fields of the tree, left to right, to what is already collected. */
  method CollectMatcherFields(matcher: Matcher, into: FieldList)
    modifies into
    ensures into.items == old(into.items) + Fields(matcher)
    decreases matcher
  {
    match matcher
    case Regex(field, _, _) =>
      into.items := into.items + [field];
    case Script(_, _) =>
    case Not(condition) =>
      CollectMatcherFields(condition, into);
    case _ =>
      var conditions := matcher.conditions;
      for i := 0 to |conditions|
        invariant into.items == old(into.items) + FieldsOf(conditions[..i])
      {
        CollectMatcherFields(conditions[i], into);
        assert conditions[..i + 1] == conditions[..i] + [conditions[i]];
        FieldsOfAppend(conditions[..i], conditions[i]);
      }
      assert conditions[..|conditions|] == conditions;
  }

  lemma {:induction false} FieldsOfAppend(conditions: seq<Matcher>, last: Matcher)
    ensures FieldsOf(conditions + [last]) == FieldsOf(conditions) + Fields(last)
    decreases |conditions|
  {
    if conditions == [] {
      assert [last][1..] == [];
      assert FieldsOf([last]) == Fields(last) + FieldsOf([]);
      assert conditions + [last] == [last];
    } else {
      assert (conditions + [last])[1..] == conditions[1..] + [last];
      FieldsOfAppend(conditions[1..], last);
    }
  }

  predicate IsBodyField(field: string) {
    field == "body" || field == "rawBodyBase64"
  }

  predicate IsTrailerField(field: string) {
    field == "grpc.status" || field == "status" || "grpc.trailer." <= field
  }

  predicate UsesBody(matcher: Matcher) {
    exists i :: 0 <= i < |Fields(matcher)| && IsBodyField(Fields(matcher)[i])
  }

  predicate HasScript(matcher: Matcher)
    decreases matcher
  {
    match matcher
    case Script(_, _) => true
    case All(conditions) => exists i :: 0 <= i < |conditions| && HasScript(conditions[i])
    case Any(conditions) => exists i :: 0 <= i < |conditions| && HasScript(conditions[i])
    case Not(condition) => HasScript(condition)
    case Regex(_, _, _) => false
  }

  predicate UsesTrailers(matcher: Matcher) {
    HasScript(matcher) || exists i :: 0 <= i < |Fields(matcher)| && IsTrailerField(Fields(matcher)[i])
  }

  /** `matcherUsesBody`, by way of the collected list. */
  method MatcherUsesBody(matcher: Matcher) returns (uses: bool)
    ensures uses == UsesBody(matcher)
  {
    var fields := new FieldList();
    CollectMatcherFields(matcher, fields);
    assert [] + Fields(matcher) == Fields(matcher);
    uses := exists i :: 0 <= i < |fields.items| && IsBodyField(fields.items[i]);
  }

  // ---- a script-free matcher sees only its own fields

  /** Every field of the list has the same candidate values in both inputs. */
  predicate SameOn(fields: seq<string>, left: MatchInput, right: MatchInput) {
    forall i :: 0 <= i < |fields| ==> ResolveField(fields[i], left) == ResolveField(fields[i], right)
  }

  lemma SameOnParts(first: seq<string>, second: seq<string>, left: MatchInput, right: MatchInput)
    requires SameOn(first + second, left, right)
    ensures SameOn(first, left, right) && SameOn(second, left, right)
  {
    forall i | 0 <= i < |first| ensures ResolveField(first[i], left) == ResolveField(first[i], right) {
      assert (first + second)[i] == first[i];
    }
    forall i | 0 <= i < |second| ensures ResolveField(second[i], left) == ResolveField(second[i], right) {
      assert (first + second)[|first| + i] == second[i];
    }
  }

  lemma {:induction false} DecidedByFields(
      matcher: Matcher, left: MatchInput, right: MatchInput, engines: Engines)
    requires !HasScript(matcher) && SameOn(Fields(matcher), left, right)
    ensures EvalMatcher(matcher, left, engines) == EvalMatcher(matcher, right, engines)
    decreases matcher, 1
  {
    match matcher
    case Regex(field, _, _) =>
      assert Fields(matcher)[0] == field;
    case All(conditions) => ConditionsDecidedByFields(conditions, false, left, right, engines);
    case Any(conditions) => ConditionsDecidedByFields(conditions, true, left, right, engines);
    case Not(condition) => DecidedByFields(condition, left, right, engines);
  }

  lemma {:induction false} ConditionsDecidedByFields(
      conditions: seq<Matcher>, stop: bool, left: MatchInput, right: MatchInput, engines: Engines)
    requires forall i :: 0 <= i < |conditions| ==> !HasScript(conditions[i])
    requires SameOn(FieldsOf(conditions), left, right)
    ensures EvalConditions(conditions, stop, left, engines) == EvalConditions(conditions, stop, right, engines)
    decreases conditions, 0
  {
    if conditions != [] {
      SameOnParts(Fields(conditions[0]), FieldsOf(conditions[1..]), left, right);
      DecidedByFields(conditions[0], left, right, engines);
      ConditionsDecidedByFields(conditions[1..], stop, left, right, engines);
    }
  }

  /** The same request, with or without (or with another) body. */
  predicate SameButBody(left: RequestSnapshot, right: RequestSnapshot) {
    && left.(body := right.body, rawBodyBase64 := right.rawBodyBase64, grpc := right.grpc) == right
    && (left.grpc.Some? <==> right.grpc.Some?)
    && (left.grpc.Some? ==>
          left.grpc.value.(messages := right.grpc.value.messages) == right.grpc.value)
  }

  /** What streaming evaluation relies on when it skips body matchers only. */
  lemma BodyUnseen(matcher: Matcher, left: MatchInput, right: MatchInput, engines: Engines)
    requires !HasScript(matcher) && !UsesBody(matcher)
    requires left.stage == RequestSide && right.stage == RequestSide
    requires SameButBody(left.request, right.request)
    ensures EvalMatcher(matcher, left, engines) == EvalMatcher(matcher, right, engines)
  {
    forall i | 0 <= i < |Fields(matcher)|
      ensures ResolveField(Fields(matcher)[i], left) == ResolveField(Fields(matcher)[i], right)
    {
      assert !IsBodyField(Fields(matcher)[i]);
    }
    DecidedByFields(matcher, left, right, engines);
  }

  /** The same response before and after its final status and trailers are known. */
  predicate SameButTrailers(early: ResponseSnapshot, late: ResponseSnapshot) {
    early.headers == late.headers && early.body == late.body && early.rawBodyBase64 == late.rawBodyBase64
  }

  /** Why a streaming response may be decided on its headers alone. */
  lemma TrailersUnseen(
      matcher: Matcher, input: MatchInput, early: ResponseSnapshot, late: ResponseSnapshot, engines: Engines)
    requires !UsesTrailers(matcher) && input.stage == ResponseSide && SameButTrailers(early, late)
    ensures EvalMatcher(matcher, input.(response := Some(early)), engines) ==
            EvalMatcher(matcher, input.(response := Some(late)), engines)
  {
    var left, right := input.(response := Some(early)), input.(response := Some(late));
    forall i | 0 <= i < |Fields(matcher)|
      ensures ResolveField(Fields(matcher)[i], left) == ResolveField(Fields(matcher)[i], right)
    {
      assert !IsTrailerField(Fields(matcher)[i]);
    }
    DecidedByFields(matcher, left, right, engines);
  }
}
