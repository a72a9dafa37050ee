/** Rules as the proxy stores them (src/rules/types.ts). */
module RuleTypes {
  import opened Common
  import opened JsonModel

  datatype Protocol = Http | Grpc

  datatype Stage = RequestSide | ResponseSide

  type StringMap = map<string, string>

  datatype Matcher =
    | Regex(field: string, pattern: string, flags: Option<string>)
    | All(conditions: seq<Matcher>)
    | Any(conditions: seq<Matcher>)
    | Not(condition: Matcher)
    | Script(source: string, timeoutMs: Option<int>)

  datatype DelayMode = Fixed | Total

  datatype Delay = Delay(durationMs: int, mode: Option<DelayMode>)

  datatype ConnectionMode = Close | Reset

  datatype FaultSpec =
    | HttpResponse(statusCode: int, headers: Option<StringMap>, body: Option<string>)
    | GrpcStatus(status: int, message: Option<string>, metadata: Option<StringMap>)
    | Connection(mode: ConnectionMode)
    | Timeout(durationMs: Option<int>)

  datatype Mock =
    | HttpMock(statusCode: int, headers: Option<StringMap>, body: Option<string>)
    | GrpcMock(grpcStatus: int, grpcMessage: Option<string>, messages: Option<seq<Json>>,
               metadata: Option<StringMap>)

  datatype RewriteOperation =
    | SetHeader(name: string, value: string)
    | RemoveHeader(name: string)
    | SetPath(value: string)
    | SetQuery(value: string)
    | ReplaceBody(from: string, to: string)

  datatype RequestAction =
    | MockResponse(response: Mock)
    | RequestFault(fault: FaultSpec)
    | RequestRewrite(operations: seq<RewriteOperation>)

  datatype ResponseAction =
    | ResponseFault(fault: FaultSpec)
    | ResponseReplace(target: string, from: string, to: string)
    | ScriptManipulator(source: string, timeoutMs: Option<int>)

  datatype RequestStage = RequestStage(delay: Option<Delay>, action: Option<RequestAction>)

  datatype ResponseStage =
    ResponseStage(match_: Option<Matcher>, delay: Option<Delay>, action: Option<ResponseAction>)

  datatype ConsumeSpec = ConsumeSpec(times: int, resetAfterMs: Option<int>)

  /** `schemaVersion` is always 1 and is not repeated in the model. */
  datatype Rule = Rule(
    id: string,
    name: string,
    description: string,
    enabled: bool,
    priority: int,
    protocol: Protocol,
    match_: Matcher,
    request: Option<RequestStage>,
    response: Option<ResponseStage>,
    consume: Option<ConsumeSpec>,
    capture: bool,
    createdAt: string,
    updatedAt: string)

  /** A rule with neither stage only captures traffic. */
  predicate IsObservation(rule: Rule) {
    rule.request.None? && rule.response.None?
  }
}
