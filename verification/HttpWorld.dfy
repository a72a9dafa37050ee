/**
 * What the outside decides of one HTTP exchange (src/proxy/pipeline.ts), and
 * what must come of it: which parts of the intercept rule run, what reaches the
 * upstream and the client, and what the traffic log should say. The predicates
 * from `Mocks` on look at the outside only, never at the steps of the pipeline.
 */
module HttpWorld {
  import opened Common
  import opened RuleTypes
  import opened Evaluate
  import opened Body
  import opened Outcomes

  /** Places at which the source may throw, or looks whether the client is gone. */
  datatype Point =
    | AtRequestDelay | AtMock | AtRewrite | AtUpstreamUrl | AtReply | AtResponseDelay | AtResponseAction
    | AtSend | AtFault | AtFaultSleep | AtLog | AtCatch

  datatype Upstream =
    | Unreachable
    | Reply(contentLength: Option<int>, eventStream: bool, read: seq<StreamEvent>, http2: bool, rest: Bytes)

  /** What a manipulator script's patch did. */
  datatype Patched = Patched(changed: bool, body: Option<Bytes>)

  /**
   * `read` are the events of the client's body up to the one that settles the
   * read, `rest` the bytes still on the stream then; likewise for the reply.
   * `otherRewrites` says whether an operation on path, query or headers changed
   * anything.
   */
  datatype World = World(
    rules: seq<Rule>,
    protocol: Protocol,
    contentLength: Option<int>,
    requestLimit: nat,
    responseLimit: nat,
    http2: bool,
    read: seq<StreamEvent>,
    rest: Bytes,
    evaluation: RequestEvaluation,
    abortEvaluation: RequestEvaluation,
    upstream: Upstream,
    responseMatched: bool,
    responseMatchThrew: bool,
    otherRewrites: bool,
    replaceBody: (Bytes, string, string) -> Bytes,
    headerReplaced: bool,
    patch: Option<Result<Patched, string>>,
    throws: Point -> bool,
    gone: Point -> bool)
  {
    function Active(): seq<Rule> {
      Filter(rules, protocol)
    }

    /** The client's request body, wherever the proxy stopped reading it. */
    function ClientBytes(): Bytes {
      DataOf(read) + rest
    }

    /** How the read of the client's body settles. */
    function RequestRead(): Settlement {
      ReadAll(START, read, requestLimit, http2).outcome
    }

    function ReplyRead(): Settlement
      requires upstream.Reply?
    {
      ReadAll(START, upstream.read, responseLimit, upstream.http2).outcome
    }

    /** The reply's bytes. */
    function ReplyBytes(): Bytes
      requires upstream.Reply?
    {
      DataOf(upstream.read) + upstream.rest
    }

    function RequestStageOf(): Option<RequestStage> {
      if evaluation.interceptRule.Some? then evaluation.interceptRule.value.request else None
    }

    function ResponseStageOf(): Option<ResponseStage> {
      if evaluation.interceptRule.Some? then evaluation.interceptRule.value.response else None
    }

    /** The environment keeps the promises of the streams and of `evaluateRequest`. */
    predicate Plausible() {
      && RequestRead() != Pending
      && SettledBy([], START, read, requestLimit, http2).0 == read
      && (RequestRead().Complete? ==> rest == [])
      && (evaluation.interceptRule.Some? ==> evaluation.interceptRule.value in rules
                                             && evaluation.interceptRule.value.protocol == protocol)
      && (upstream.Reply? ==>
            && ReplyRead() != Pending
            && SettledBy([], START, upstream.read, responseLimit, upstream.http2).0 == upstream.read
            && (ReplyRead().Complete? ==> upstream.rest == []))
      && (gone(AtCatch) ==> gone(AtLog))
    }
  }

  function Filter(rules: seq<Rule>, protocol: Protocol): seq<Rule> {
    if rules == [] then []
    else (if rules[0].enabled && rules[0].protocol == protocol then [rules[0]] else []) + Filter(rules[1..], protocol)
  }

  // ---- the client's body

  /** Some active rule makes the proxy buffer the request body. */
  predicate BuffersBody(w: World) {
    exists i :: 0 <= i < |w.Active()| && w.Active()[i].enabled
                && (NeedsRequestBody(w.Active()[i]) || WantsRequestBody(w.Active()[i]))
  }

  /** Some active rule cannot do without it. */
  predicate Needed(w: World) {
    exists i :: 0 <= i < |w.Active()| && w.Active()[i].enabled && NeedsRequestBody(w.Active()[i])
  }

  /** The length the client declared is within the limit, or it declared none. */
  predicate DeclaredFits(w: World) {
    w.contentLength.Some? ==> w.contentLength.value <= w.requestLimit
  }

  /** The body is longer than the limit, by its declared length or as it arrives. */
  predicate TooLarge(w: World) {
    !DeclaredFits(w) || w.RequestRead().Overflow?
  }

  /** The client's body was to be buffered and never became usable. */
  predicate BrokenOff(w: World) {
    && BuffersBody(w)
    && DeclaredFits(w)
    && match w.RequestRead()
       case Rejected => true
       case Complete(buffer) => w.contentLength.Some? && |buffer| < w.contentLength.value
       case _ => false
  }

  /** The exchange is over before any rule acts: answered 413, or broken off. */
  predicate EndsEarly(w: World) {
    (TooLarge(w) && Needed(w)) || BrokenOff(w)
  }

  /** The body as the rules see it: buffered whole, and not empty. */
  function RequestBody(w: World): Option<Bytes> {
    if BuffersBody(w) && DeclaredFits(w) && w.RequestRead().Complete? && w.RequestRead().buffer != [] then
      Some(w.RequestRead().buffer)
    else None
  }

  // ---- the request stage

  predicate RequestDelayed(w: World) {
    w.RequestStageOf().Some? && w.RequestStageOf().value.delay.Some? && !w.throws(AtRequestDelay)
  }

  /** The delay of the request stage, if any, is over, and there is an action. */
  predicate ActsOnRequest(w: World) {
    && w.RequestStageOf().Some?
    && w.RequestStageOf().value.action.Some?
    && (w.RequestStageOf().value.delay.Some? ==> !w.throws(AtRequestDelay))
  }

  function RequestActionOf(w: World): RequestAction
    requires ActsOnRequest(w)
  {
    w.RequestStageOf().value.action.value
  }

  predicate Mocks(w: World) {
    ActsOnRequest(w) && RequestActionOf(w).MockResponse?
  }

  predicate FaultsRequest(w: World) {
    ActsOnRequest(w) && RequestActionOf(w).RequestFault?
  }

  /** The body after each replacement in turn. */
  function Rewritten(operations: seq<RewriteOperation>, body: Bytes, w: World): Bytes {
    if operations == [] then body else Rewritten(operations[1..], RewrittenBy(operations[0], body, w), w)
  }

  function RewrittenBy(operation: RewriteOperation, body: Bytes, w: World): Bytes {
    if operation.ReplaceBody? then w.replaceBody(body, operation.from, operation.to) else body
  }

  /** Some replacement found something to replace. */
  predicate Rewrites(operations: seq<RewriteOperation>, body: Bytes, w: World) {
    operations != [] &&
    var after := RewrittenBy(operations[0], body, w);
    after != body || Rewrites(operations[1..], after, w)
  }

  /** The rewrite changed the body. */
  predicate RewritesBody(w: World) {
    && ActsOnRequest(w) && RequestActionOf(w).RequestRewrite? && !w.throws(AtRewrite)
    && RequestBody(w).Some? && Rewrites(RequestActionOf(w).operations, RequestBody(w).value, w)
  }

  /** The rewrite changed the request. */
  predicate ChangesRequest(w: World) {
    RewritesBody(w)
    || (ActsOnRequest(w) && RequestActionOf(w).RequestRewrite? && !w.throws(AtRewrite) && w.otherRewrites)
  }

  predicate ActionThrows(w: World, action: RequestAction) {
    match action
    case MockResponse(_) => w.throws(AtMock)
    case RequestFault(_) => w.throws(AtFault)
    case RequestRewrite(_) => w.throws(AtRewrite)
  }

  /** The request stage throws before anything is logged. */
  predicate RequestEscapes(w: World) {
    || (w.RequestStageOf().Some? && w.RequestStageOf().value.delay.Some? && w.throws(AtRequestDelay))
    || (ActsOnRequest(w) && ActionThrows(w, RequestActionOf(w)))
  }

  /** The request stage lets the request through. */
  predicate GoesOn(w: World) {
    !Mocks(w) && !FaultsRequest(w) && !RequestEscapes(w)
  }

  /** The request goes to the upstream. */
  predicate Forwards(w: World) {
    GoesOn(w) && !w.throws(AtUpstreamUrl)
  }

  /** What the upstream gets: the client's bytes, or those that the rewrite made of them. */
  function ForwardedBytes(w: World): Bytes {
    if RewritesBody(w) then Rewritten(RequestActionOf(w).operations, RequestBody(w).value, w) else w.ClientBytes()
  }

  // ---- the response stage

  /** The reply is read into memory. */
  predicate BuffersReply(w: World)
    requires w.upstream.Reply?
  {
    && ResponseBodyInterest(w.evaluation.interceptRule, w.evaluation.captureRules).want
    && !w.upstream.eventStream
    && (w.upstream.contentLength.Some? ==> w.upstream.contentLength.value <= w.responseLimit)
  }

  predicate ReplyBroke(w: World)
    requires w.upstream.Reply?
  {
    BuffersReply(w) && w.ReplyRead() == Rejected
  }

  /** Nothing came back, or the reply broke off while it was being buffered. */
  predicate UpstreamFails(w: World) {
    Forwards(w) && (w.upstream.Unreachable? || (!w.throws(AtReply) && ReplyBroke(w)))
  }

  /** The reply is there, whole as far as it is buffered. */
  predicate Replied(w: World) {
    Forwards(w) && w.upstream.Reply? && !w.throws(AtReply) && !ReplyBroke(w)
  }

  /** The response stage has no matcher, or its matcher holds. */
  predicate Matched(w: World) {
    && Replied(w)
    && w.ResponseStageOf().Some?
    && (w.ResponseStageOf().value.match_.Some? ==> w.responseMatched && !w.responseMatchThrew)
  }

  /** The matcher of the response stage threw. */
  predicate MatcherFails(w: World) {
    Replied(w) && w.ResponseStageOf().Some? && w.ResponseStageOf().value.match_.Some? && w.responseMatchThrew
  }

  predicate ReplyDelayed(w: World) {
    Matched(w) && w.ResponseStageOf().value.delay.Some? && !w.throws(AtResponseDelay)
  }

  predicate ActsOnReply(w: World) {
    && Matched(w)
    && w.ResponseStageOf().value.action.Some?
    && (w.ResponseStageOf().value.delay.Some? ==> !w.throws(AtResponseDelay))
  }

  function ResponseActionOf(w: World): ResponseAction
    requires ActsOnReply(w)
  {
    w.ResponseStageOf().value.action.value
  }

  predicate FaultsReply(w: World) {
    ActsOnReply(w) && ResponseActionOf(w).ResponseFault?
  }

  /** A manipulator script runs: it is due, and the reply's body could be buffered. */
  predicate ScriptDue(w: World) {
    ActsOnReply(w) && ResponseActionOf(w).ScriptManipulator? && BuffersReply(w) && w.ReplyRead().Complete?
  }

  /** There is no sandbox, or the script or its patch fails. */
  predicate ScriptFails(w: World) {
    ScriptDue(w) && (w.patch.None? || w.patch.value.Err?)
  }

  predicate Patches(w: World) {
    ScriptDue(w) && w.patch.Some? && w.patch.value.Ok?
  }

  predicate PatchesBody(w: World) {
    Patches(w) && w.patch.value.value.body.Some?
  }

  predicate ChangesReply(w: World) {
    || (ActsOnReply(w) && ResponseActionOf(w).ResponseReplace? && !w.throws(AtResponseAction) && w.headerReplaced)
    || (Patches(w) && w.patch.value.value.changed)
  }

  /** The response stage throws before anything is logged. */
  predicate StageEscapes(w: World) {
    || (Matched(w) && w.ResponseStageOf().value.delay.Some? && w.throws(AtResponseDelay))
    || (FaultsReply(w) && w.throws(AtFault))
    || (ActsOnReply(w) && ResponseActionOf(w).ResponseReplace? && w.throws(AtResponseAction))
  }

  /** The reply is sent on. */
  predicate Relays(w: World) {
    Replied(w) && !StageEscapes(w) && !FaultsReply(w) && !w.throws(AtSend)
  }

  /** What the client gets of a relayed reply. */
  function RelayedBytes(w: World): Bytes
    requires w.upstream.Reply?
  {
    if PatchesBody(w) then w.patch.value.value.body.value else w.ReplyBytes()
  }

  /** What the response stage is going to do, in one place. */
  datatype Plan = Plan(
    matcherFails: bool, delays: bool, faults: bool, grpcFault: bool, changes: bool, scriptFails: bool,
    newBody: Option<Bytes>, escapes: bool)

  const IDLE := Plan(false, false, false, false, false, false, None, false)

  function PlanOf(w: World): Plan {
    Plan(MatcherFails(w), ReplyDelayed(w), FaultsReply(w), GrpcFaultsReply(w), ChangesReply(w), ScriptFails(w),
         if PatchesBody(w) then w.patch.value.value.body else None, StageEscapes(w))
  }

  predicate GrpcFaultsReply(w: World) {
    FaultsReply(w) && ResponseActionOf(w).fault.GrpcStatus? && !w.throws(AtFault)
  }

  /** The plan as an action sees it whose turn it is. */
  predicate ActionFits(p: Plan, w: World, action: ResponseAction, skipped: bool) {
    var scriptRuns := action.ScriptManipulator? && !skipped;
    var patched := scriptRuns && w.patch.Some? && w.patch.value.Ok?;
    && (p.faults <==> action.ResponseFault?)
    && (p.grpcFault <==> action.ResponseFault? && action.fault.GrpcStatus? && !w.throws(AtFault))
    && (p.scriptFails <==> scriptRuns && !patched)
    && p.newBody == (if patched then w.patch.value.value.body else None)
    && (p.changes <==> (action.ResponseReplace? && !w.throws(AtResponseAction) && w.headerReplaced)
                       || (patched && w.patch.value.value.changed))
    && (p.escapes <==> (action.ResponseFault? && w.throws(AtFault))
                       || (action.ResponseReplace? && w.throws(AtResponseAction)))
  }

  /** The plan as a stage sees it to which a reply has come. */
  predicate StageFits(p: Plan, w: World, stage: ResponseStage, skipped: bool) {
    var matched := stage.match_.Some? ==> w.responseMatched && !w.responseMatchThrew;
    var slept := stage.delay.Some? ==> !w.throws(AtResponseDelay);
    && (p.matcherFails <==> stage.match_.Some? && w.responseMatchThrew)
    && (p.delays <==> matched && stage.delay.Some? && slept)
    && if matched && slept && stage.action.Some? then ActionFits(p, w, stage.action.value, skipped)
       else p == IDLE.(matcherFails := p.matcherFails, delays := p.delays, escapes := matched && !slept)
  }

  /** The script is left out because the reply's body could not be buffered. */
  predicate Skips(w: World)
    requires w.upstream.Reply?
  {
    !(BuffersReply(w) && w.ReplyRead().Complete?)
  }

  predicate PlanFor(p: Plan, w: World)
    requires w.upstream.Reply?
  {
    if w.ResponseStageOf().Some? then StageFits(p, w, w.ResponseStageOf().value, Skips(w)) else p == IDLE
  }

  lemma PlanFits(w: World)
    ensures Replied(w) ==> PlanFor(PlanOf(w), w)
  {
    if Replied(w) && w.ResponseStageOf().Some? {
      var stage := w.ResponseStageOf().value;
      if !(Matched(w) && (stage.delay.Some? ==> !w.throws(AtResponseDelay)) && stage.action.Some?) {
        assert !ActsOnReply(w);
      }
    }
  }

  function WithPlan(flags: Flags, p: Plan): Flags {
    flags.(fault := flags.fault || p.faults, modified := flags.modified || p.changes,
           delayed := flags.delayed || p.delays)
  }

  // ---- the record

  /** From the upstream's answer on, an exception comes before the log. */
  predicate ReplyEscapes(w: World) {
    Forwards(w) &&
    if w.upstream.Unreachable? then w.throws(AtSend)
    else w.throws(AtReply)
         || (if ReplyBroke(w) then w.throws(AtSend)
             else StageEscapes(w) || (!FaultsReply(w) && w.throws(AtSend)))
  }

  /** An exception reaches the catch clause before the log. */
  predicate Escapes(w: World) {
    RequestEscapes(w) || (GoesOn(w) && w.throws(AtUpstreamUrl)) || ReplyEscapes(w)
  }

  predicate HasErrors(w: World) {
    w.evaluation.errors != [] || MatcherFails(w) || ScriptFails(w) || (Escapes(w) && !w.gone(AtCatch))
  }

  /** What was done by the end of the request stage. */
  function RequestDeeds(w: World): Flags {
    Flags(Mocks(w), FaultsRequest(w), ChangesRequest(w), RequestDelayed(w), false, false)
  }

  function Deeds(w: World): Flags {
    Flags(Mocks(w), FaultsRequest(w) || FaultsReply(w), ChangesRequest(w) || ChangesReply(w),
          RequestDelayed(w) || ReplyDelayed(w), UpstreamFails(w), w.gone(AtLog))
  }

  function OutcomeOf(w: World): Outcome {
    DecideOutcome(Deeds(w), HasErrors(w))
  }

  /** Something engaged with the exchange. */
  predicate Engaged(w: World) {
    w.evaluation.interceptRule.Some? || w.evaluation.captureRules != [] || HasErrors(w) || UpstreamFails(w)
  }

  /** The fault that runs, if one does. */
  function FaultOf(w: World): Option<FaultSpec> {
    if FaultsRequest(w) then Some(RequestActionOf(w).fault)
    else if FaultsReply(w) then Some(ResponseActionOf(w).fault)
    else None
  }

  // ---- the whole exchange in one place

  /** How the guarded part ends: what it did, its rule errors, and whether an exception comes before the log. */
  datatype Ending = Ending(deeds: Flags, errors: nat, grpcFault: bool, escapes: bool, delivered: Option<Bytes>)

  function EndingOf(w: World): Ending {
    Ending(Deed(Deeds(w)), (if MatcherFails(w) then 1 else 0) + (if ScriptFails(w) then 1 else 0),
           FaultOf(w).Some? && FaultOf(w).value.GrpcStatus? && !w.throws(AtFault), Escapes(w),
           if Relays(w) then Some(RelayedBytes(w)) else None)
  }

  /** An ending before the response stage. */
  function Early(flags: Flags, escapes: bool): Ending {
    Ending(flags, 0, false, escapes, None)
  }

  /** The ending after a reply for which `p` is the plan. */
  function ByPlan(flags: Flags, p: Plan, sendThrows: bool, reply: Bytes): Ending {
    Ending(WithPlan(flags, p), (if p.matcherFails then 1 else 0) + (if p.scriptFails then 1 else 0),
           p.grpcFault, p.escapes || (!p.faults && sendThrows),
           if p.escapes || p.faults || sendThrows then None else if p.newBody.Some? then p.newBody else Some(reply))
  }

  /** The ending as it looks once the request is forwarded. */
  function EndingFrom(w: World, flags: Flags, p: Plan): Ending {
    if w.upstream.Unreachable? then Early(flags.(upstreamError := true), w.throws(AtSend))
    else if w.throws(AtReply) then Early(flags, true)
    else if ReplyBroke(w) then Early(flags.(upstreamError := true), w.throws(AtSend))
    else ByPlan(flags, p, w.throws(AtSend), w.ReplyBytes())
  }

  lemma ErrorsCounted(w: World, errors: nat)
    requires errors == |w.evaluation.errors| + EndingOf(w).errors
                       + (if EndingOf(w).escapes && !w.gone(AtCatch) then 1 else 0)
    ensures errors > 0 <==> HasErrors(w)
  {
  }

  lemma EndingForwarded(w: World)
    requires Forwards(w)
    ensures EndingOf(w) == EndingFrom(w, RequestDeeds(w), PlanOf(w))
  {
    if !Replied(w) {
      assert !Matched(w) && !ActsOnReply(w);
    }
  }

  lemma EndingBefore(w: World)
    requires !Forwards(w)
    ensures EndingOf(w).(grpcFault := false) == Early(RequestDeeds(w), RequestEscapes(w) || GoesOn(w))
    ensures EndingOf(w).grpcFault <==>
              FaultsRequest(w) && RequestActionOf(w).fault.GrpcStatus? && !w.throws(AtFault)
  {
    assert !Replied(w) && !Matched(w) && !ActsOnReply(w) && !UpstreamFails(w) && !ReplyEscapes(w);
  }
}
