/**
 * What the outside decides of one unary call (src/grpc/grpc-listener.ts,
 * `handleUnary`), and what must come of it: which parts of the intercept rule
 * run, what reaches the upstream and the client, and what the traffic log
 * should say. The predicates from `RequestDelayed` on look at the outside only.
 */
module GrpcWorld {
  import opened Common
  import opened JsonModel
  import opened RuleTypes
  import opened Evaluate
  import opened Outcomes
  import Body
  import Frames

  /** Places at which the source may throw, or looks whether the stream is destroyed. */
  datatype Point =
    | AtRequestDelay | AtRewrite | AtUpstreamUrl | AtTrailers | AtResponseDelay | AtReplace | AtFaultSleep
    | AtLog | AtCatch

  datatype Request = Request(metadata: StringMap, body: Bytes)

  /** A reply but for its body; metadata and trailers are those left after the reserved names are taken out. */
  datatype Draft = Draft(status: int, message: Option<string>, metadata: StringMap, trailers: StringMap)

  datatype Reply = Reply(draft: Draft, body: Option<Bytes>)

  datatype Upstream = Unreachable | Replied(read: seq<Body.StreamEvent>, rest: Bytes, draft: Draft)

  /** What a manipulator script's patch made of the reply; `messages` are those it put in place of the reply's. */
  datatype Patched = Patched(changed: bool, messages: Option<seq<Json>>, draft: Draft)

  /** A patch that fails has edited metadata and trailers up to where it failed. */
  datatype HalfPatched = HalfPatched(metadata: StringMap, trailers: StringMap)

  /**
   * `rewrote` is the metadata that a rewrite changed, `replaced` the reply's
   * metadata that a replacement changed; both are absent if nothing changed.
   */
  datatype World = World(
    metadata: StringMap,
    read: seq<Body.StreamEvent>,
    rest: Bytes,
    requestLimit: nat,
    responseLimit: nat,
    evaluation: RequestEvaluation,
    abortEvaluation: RequestEvaluation,
    upstream: Upstream,
    encodeMessage: Json -> Option<Bytes>,
    decodeMessage: Bytes -> Option<Json>,
    rewrote: Option<StringMap>,
    replaced: Option<StringMap>,
    responseMatched: bool,
    responseMatchThrew: bool,
    hasRunner: bool,
    patch: Result<Patched, HalfPatched>,
    throws: Point -> bool,
    gone: Point -> bool)
  {
    function ClientBytes(): Bytes {
      Body.DataOf(read) + rest
    }

    /** How the read of the client's body settles. */
    function RequestRead(): Body.Settlement {
      Body.ReadAll(Body.START, read, requestLimit, true).outcome
    }

    function ReplyRead(): Body.Settlement
      requires upstream.Replied?
    {
      Body.ReadAll(Body.START, upstream.read, responseLimit, true).outcome
    }

    /** The reply's bytes. */
    function ReplyBytes(): Bytes
      requires upstream.Replied?
    {
      Body.DataOf(upstream.read) + upstream.rest
    }

    function RequestStageOf(): Option<RequestStage> {
      if evaluation.interceptRule.Some? then evaluation.interceptRule.value.request else None
    }

    function ResponseStageOf(): Option<ResponseStage> {
      if evaluation.interceptRule.Some? then evaluation.interceptRule.value.response else None
    }

    /** The streams deliver events up to the settlement of each read; a client that is gone stays gone. */
    predicate Plausible() {
      && RequestRead() != Body.Pending
      && Body.SettledBy([], Body.START, read, requestLimit, true).0 == read
      && (RequestRead().Complete? ==> rest == [])
      && (upstream.Replied? ==>
            && ReplyRead() != Body.Pending
            && Body.SettledBy([], Body.START, upstream.read, responseLimit, true).0 == upstream.read
            && (ReplyRead().Complete? ==> upstream.rest == []))
      && (gone(AtCatch) ==> gone(AtLog))
    }

    /** The request's body broke off, or ended inside a frame. */
    predicate Unusable() {
      match RequestRead()
      case Rejected => true
      case Complete(buffer) => Frames.Decode(buffer).Err?
      case _ => false
    }

    predicate UpstreamBroke() {
      upstream.Unreachable? || !ReplyRead().Complete?
    }

    /** The descriptor covers every message of the reply. */
    predicate ReplyReadable()
      requires upstream.Replied?
    {
      var frames := Frames.Decode(ReplyBytes());
      && frames.Ok?
      && forall i :: 0 <= i < |frames.value| ==>
           !frames.value[i].compressed && decodeMessage(frames.value[i].message).Some?
    }

    predicate AllEncode(messages: seq<Json>) {
      forall i :: 0 <= i < |messages| ==>
        encodeMessage(messages[i]).Some? && Frames.Encodable(FrameOf(messages[i]))
    }

    function FrameOf(message: Json): Frames.Frame {
      Frames.Frame(false, GetOr(encodeMessage(message), []))
    }

    function FramesOf(messages: seq<Json>): seq<Frames.Frame> {
      seq(|messages|, i requires 0 <= i < |messages| => FrameOf(messages[i]))
    }

    /** The messages in frames; a reply without messages has no body. */
    function Encoded(messages: seq<Json>): Option<Bytes>
      requires AllEncode(messages)
    {
      if messages == [] then None else Some(Frames.EncodeAll(FramesOf(messages)))
    }

    /** The message bytes are there, and reading them gives exactly the messages as encoded. */
    predicate Carries(body: Option<Bytes>, messages: seq<Json>) {
      if messages == [] then body == None
      else body.Some? && Frames.Decode(body.value) == Ok(FramesOf(messages))
    }
  }

  lemma EncodedCarries(w: World, messages: seq<Json>)
    requires w.AllEncode(messages)
    ensures w.Carries(w.Encoded(messages), messages)
  {
    forall f | f in w.FramesOf(messages) ensures Frames.Encodable(f) {
      var i :| 0 <= i < |messages| && w.FramesOf(messages)[i] == f;
    }
    Frames.DecodeEncoded(w.FramesOf(messages));
  }

  function MessagesOf(mock: Mock): seq<Json> {
    if mock.GrpcMock? then GetOr(mock.messages, []) else []
  }

  function DraftOf(mock: Mock): Draft {
    if mock.GrpcMock? then Draft(mock.grpcStatus, mock.grpcMessage, GetOr(mock.metadata, map[]), map[])
    else Draft(0, None, map[], map[])
  }

  /** The fault kinds of this protocol; the other one is passed over. */
  predicate FaultApplies(fault: FaultSpec) {
    !fault.HttpResponse?
  }

  // ---- the request stage

  predicate RequestDelayed(w: World) {
    w.RequestStageOf().Some? && w.RequestStageOf().value.delay.Some? && !w.throws(AtRequestDelay)
  }

  /** The delay of the request stage, if any, is over, and there is an action. */
  predicate ActsOnRequest(w: World) {
    && w.RequestStageOf().Some?
    && w.RequestStageOf().value.action.Some?
    && (w.RequestStageOf().value.delay.Some? ==> !w.throws(AtRequestDelay))
  }

  function RequestActionOf(w: World): RequestAction
    requires ActsOnRequest(w)
  {
    w.RequestStageOf().value.action.value
  }

  predicate MockDue(w: World) {
    ActsOnRequest(w) && RequestActionOf(w).MockResponse?
  }

  /** The mock is sent: its messages could be encoded. */
  predicate Mocks(w: World) {
    MockDue(w) && w.AllEncode(MessagesOf(RequestActionOf(w).response))
  }

  /** The reply of a mock that is sent. */
  function MockReply(w: World): Reply
    requires Mocks(w)
  {
    Reply(DraftOf(RequestActionOf(w).response), w.Encoded(MessagesOf(RequestActionOf(w).response)))
  }

  predicate FaultsRequest(w: World) {
    ActsOnRequest(w) && RequestActionOf(w).RequestFault? && FaultApplies(RequestActionOf(w).fault)
  }

  /** The rewrite changed the metadata. */
  predicate ChangesRequest(w: World) {
    ActsOnRequest(w) && RequestActionOf(w).RequestRewrite? && !w.throws(AtRewrite) && w.rewrote.Some?
  }

  /** The request stage throws before anything is logged. */
  predicate RequestEscapes(w: World) {
    || (w.RequestStageOf().Some? && w.RequestStageOf().value.delay.Some? && w.throws(AtRequestDelay))
    || (ActsOnRequest(w) && RequestActionOf(w).RequestRewrite? && w.throws(AtRewrite))
  }

  /** The request stage lets the request through. */
  predicate GoesOn(w: World) {
    !MockDue(w) && !FaultsRequest(w) && !RequestEscapes(w)
  }

  /** The request goes to the upstream. */
  predicate Forwards(w: World) {
    GoesOn(w) && !w.throws(AtUpstreamUrl)
  }

  /** The client's bytes as they came, and its metadata unless the rewrite changed it. */
  function ForwardedRequest(w: World): Request {
    Request(if ChangesRequest(w) then w.rewrote.value else w.metadata, w.ClientBytes())
  }

  // ---- the response stage

  predicate UpstreamFails(w: World) {
    Forwards(w) && w.UpstreamBroke()
  }

  predicate ReplyUsed(w: World) {
    Forwards(w) && !w.UpstreamBroke() && !w.throws(AtTrailers)
  }

  /** The response stage has no matcher, or its matcher holds. */
  predicate Matched(w: World) {
    && ReplyUsed(w)
    && w.ResponseStageOf().Some?
    && (w.ResponseStageOf().value.match_.Some? ==> w.responseMatched && !w.responseMatchThrew)
  }

  /** The matcher of the response stage threw. */
  predicate MatcherFails(w: World) {
    ReplyUsed(w) && w.ResponseStageOf().Some? && w.ResponseStageOf().value.match_.Some? && w.responseMatchThrew
  }

  predicate ReplyDelayed(w: World) {
    Matched(w) && w.ResponseStageOf().value.delay.Some? && !w.throws(AtResponseDelay)
  }

  predicate ActsOnReply(w: World) {
    && Matched(w)
    && w.ResponseStageOf().value.action.Some?
    && (w.ResponseStageOf().value.delay.Some? ==> !w.throws(AtResponseDelay))
  }

  function ResponseActionOf(w: World): ResponseAction
    requires ActsOnReply(w)
  {
    w.ResponseStageOf().value.action.value
  }

  predicate FaultsReply(w: World) {
    ActsOnReply(w) && ResponseActionOf(w).ResponseFault? && FaultApplies(ResponseActionOf(w).fault)
  }

  predicate ReplacesReply(w: World) {
    ActsOnReply(w) && ResponseActionOf(w).ResponseReplace? && !w.throws(AtReplace) && w.replaced.Some?
  }

  predicate ScriptDue(w: World) {
    ActsOnReply(w) && ResponseActionOf(w).ScriptManipulator?
  }

  /** There is no sandbox, or the script or its patch fails. */
  predicate ScriptFails(w: World) {
    ScriptDue(w) && (!w.hasRunner || w.patch.Err?)
  }

  predicate Patches(w: World) {
    ScriptDue(w) && w.hasRunner && w.patch.Ok?
  }

  /** The patch put messages in place of the reply's, which only a readable reply allows. */
  predicate PatchesMessages(w: World) {
    Patches(w) && w.patch.value.messages.Some? && w.ReplyReadable()
  }

  predicate PatchUnencodable(w: World) {
    PatchesMessages(w) && !w.AllEncode(w.patch.value.messages.value)
  }

  /** The response stage throws before anything is logged. */
  predicate StageEscapes(w: World) {
    || (Matched(w) && w.ResponseStageOf().value.delay.Some? && w.throws(AtResponseDelay))
    || (ActsOnReply(w) && ResponseActionOf(w).ResponseReplace? && w.throws(AtReplace))
  }

  /** A reply of the upstream is sent on. */
  predicate Relays(w: World) {
    ReplyUsed(w) && !StageEscapes(w) && !FaultsReply(w)
  }

  /** Status, message, metadata and trailers after the response stage. */
  function DraftAfter(w: World): Draft
    requires w.upstream.Replied?
  {
    var draft := w.upstream.draft;
    if ReplacesReply(w) then draft.(metadata := w.replaced.value)
    else if Patches(w) then w.patch.value.draft
    else if ScriptDue(w) && w.hasRunner then
      draft.(metadata := w.patch.error.metadata, trailers := w.patch.error.trailers)
    else draft
  }

  /**
   * The upstream's bytes, or the messages a script put in their place; if
   * those cannot be encoded, the upstream's bytes, status and message.
   */
  function RelayedReply(w: World): Reply
    requires w.upstream.Replied?
  {
    ReplyFrom(w, DraftAfter(w), if PatchesMessages(w) then w.patch.value.messages else None)
  }

  function ReplyFrom(w: World, draft: Draft, messages: Option<seq<Json>>): Reply
    requires w.upstream.Replied?
  {
    var body := if w.ReplyBytes() == [] then None else Some(w.ReplyBytes());
    if messages.None? then Reply(draft, body)
    else if w.AllEncode(messages.value) then Reply(draft, w.Encoded(messages.value))
    else Reply(draft.(status := w.upstream.draft.status, message := w.upstream.draft.message), body)
  }

  // ---- the record

  /** An exception reaches the catch clause before the log. */
  predicate Escapes(w: World) {
    || RequestEscapes(w)
    || (GoesOn(w) && w.throws(AtUpstreamUrl))
    || (Forwards(w) && !w.UpstreamBroke() && w.throws(AtTrailers))
    || StageEscapes(w)
  }

  predicate HasErrors(w: World) {
    || w.evaluation.errors != []
    || (MockDue(w) && !Mocks(w))
    || MatcherFails(w) || ScriptFails(w) || PatchUnencodable(w)
    || (Escapes(w) && !w.gone(AtCatch))
  }

  /** What was done by the end of the request stage. */
  function RequestDeeds(w: World): Flags {
    Flags(Mocks(w), FaultsRequest(w), ChangesRequest(w), RequestDelayed(w), false, false)
  }

  /**
   * Messages that cannot be encoded take the mark of a modification back, also
   * when it was the request's.
   */
  function Deeds(w: World): Flags {
    Flags(Mocks(w), FaultsRequest(w) || FaultsReply(w),
          (ChangesRequest(w) || ReplacesReply(w) || (Patches(w) && w.patch.value.changed)) && !PatchUnencodable(w),
          RequestDelayed(w) || ReplyDelayed(w), UpstreamFails(w), w.gone(AtLog))
  }

  function OutcomeOf(w: World): Outcome {
    DecideOutcome(Deeds(w), HasErrors(w))
  }

  /** Something engaged with the call. */
  predicate Engaged(w: World) {
    w.evaluation.interceptRule.Some? || w.evaluation.captureRules != [] || HasErrors(w) || UpstreamFails(w)
  }

  // ---- the response stage and the whole call, each in one place

  datatype Plan = Plan(
    matcherFails: bool, delays: bool, faults: bool, escapes: bool, changes: bool, scriptFails: bool,
    messages: Option<seq<Json>>, draft: Draft)

  function Idle(draft: Draft): Plan {
    Plan(false, false, false, false, false, false, None, draft)
  }

  function PlanOf(w: World): Plan
    requires w.upstream.Replied?
  {
    Plan(MatcherFails(w), ReplyDelayed(w), FaultsReply(w), StageEscapes(w),
         ReplacesReply(w) || (Patches(w) && w.patch.value.changed), ScriptFails(w),
         if PatchesMessages(w) then w.patch.value.messages else None, DraftAfter(w))
  }

  /** The plan as an action sees it whose turn it is. */
  predicate ActionFits(p: Plan, w: World, action: ResponseAction)
    requires w.upstream.Replied?
  {
    var idle := Idle(w.upstream.draft).(matcherFails := p.matcherFails, delays := p.delays);
    match action
    case ResponseFault(fault) => p == idle.(faults := FaultApplies(fault))
    case ResponseReplace(_, _, _) =>
      if w.throws(AtReplace) then p == idle.(escapes := true)
      else if w.replaced.Some? then p == idle.(changes := true, draft := w.upstream.draft.(metadata := w.replaced.value))
      else p == idle
    case ScriptManipulator(_, _) =>
      if !w.hasRunner then p == idle.(scriptFails := true)
      else if w.patch.Err? then
        p == idle.(scriptFails := true, draft := w.upstream.draft.(metadata := w.patch.error.metadata,
                                                                  trailers := w.patch.error.trailers))
      else
        p == idle.(changes := w.patch.value.changed, draft := w.patch.value.draft,
                   messages := if w.ReplyReadable() then w.patch.value.messages else None)
  }

  /** The plan as a stage sees it to which a reply has come. */
  predicate StageFits(p: Plan, w: World, stage: ResponseStage)
    requires w.upstream.Replied?
  {
    var matched := stage.match_.Some? ==> w.responseMatched && !w.responseMatchThrew;
    var slept := stage.delay.Some? ==> !w.throws(AtResponseDelay);
    && (p.matcherFails <==> stage.match_.Some? && w.responseMatchThrew)
    && (p.delays <==> matched && stage.delay.Some? && slept)
    && if matched && slept && stage.action.Some? then ActionFits(p, w, stage.action.value)
       else p == Idle(w.upstream.draft).(matcherFails := p.matcherFails, delays := p.delays,
                                         escapes := matched && !slept)
  }

  predicate PlanFor(p: Plan, w: World)
    requires w.upstream.Replied?
  {
    if w.ResponseStageOf().Some? then StageFits(p, w, w.ResponseStageOf().value) else p == Idle(w.upstream.draft)
  }

  lemma PlanFits(w: World)
    requires ReplyUsed(w)
    ensures PlanFor(PlanOf(w), w)
  {
    if w.ResponseStageOf().Some? {
      var stage := w.ResponseStageOf().value;
      if !(Matched(w) && (stage.delay.Some? ==> !w.throws(AtResponseDelay)) && stage.action.Some?) {
        assert !ActsOnReply(w);
      }
    }
  }

  /** How the guarded part ends: what it did, its rule errors, and whether an exception comes before the log. */
  datatype Ending = Ending(deeds: Flags, errors: nat, escapes: bool, relayed: Option<Reply>)

  function EndingOf(w: World): Ending {
    Ending(Deed(Deeds(w)),
           (if MockDue(w) && !Mocks(w) then 1 else 0) + (if MatcherFails(w) then 1 else 0)
           + (if ScriptFails(w) then 1 else 0) + (if PatchUnencodable(w) then 1 else 0),
           Escapes(w), if Relays(w) then Some(RelayedReply(w)) else None)
  }

  /** The ending after a reply for which `p` is the plan. */
  function ByPlan(w: World, flags: Flags, p: Plan): Ending
    requires w.upstream.Replied?
  {
    var spoilt := p.messages.Some? && !w.AllEncode(p.messages.value);
    Ending(WithPlan(flags, p, spoilt),
           (if p.matcherFails then 1 else 0) + (if p.scriptFails then 1 else 0) + (if spoilt then 1 else 0),
           p.escapes,
           if p.escapes || p.faults then None else Some(ReplyFrom(w, p.draft, p.messages)))
  }

  function WithPlan(flags: Flags, p: Plan, spoilt: bool): Flags {
    flags.(fault := flags.fault || p.faults, modified := (flags.modified || p.changes) && !spoilt,
           delayed := flags.delayed || p.delays)
  }

  /** The ending as it looks once the request is forwarded. */
  function EndingFrom(w: World, flags: Flags): Ending
    requires ReplyUsed(w) || w.UpstreamBroke() || w.throws(AtTrailers)
  {
    if w.UpstreamBroke() then Ending(flags.(upstreamError := true), 0, false, None)
    else if w.throws(AtTrailers) then Ending(flags, 0, true, None)
    else ByPlan(w, flags, PlanOf(w))
  }

  lemma EndingForwarded(w: World)
    requires Forwards(w)
    ensures EndingOf(w) == EndingFrom(w, RequestDeeds(w))
  {
    if !ReplyUsed(w) {
      assert !Matched(w) && !ActsOnReply(w);
    }
  }

  lemma EndingBefore(w: World)
    requires !Forwards(w)
    ensures EndingOf(w) == Ending(RequestDeeds(w), if MockDue(w) && !Mocks(w) then 1 else 0,
                                  RequestEscapes(w) || GoesOn(w), None)
  {
    assert !ReplyUsed(w) && !Matched(w) && !ActsOnReply(w) && !UpstreamFails(w);
  }

  lemma ErrorsCounted(w: World, errors: nat)
    requires errors == |w.evaluation.errors| + EndingOf(w).errors
                       + (if EndingOf(w).escapes && !w.gone(AtCatch) then 1 else 0)
    ensures errors > 0 <==> HasErrors(w)
  {
  }

  /** A relayed reply whose messages a script replaced carries exactly those. */
  lemma RelayedCarries(w: World)
    requires w.upstream.Replied? && PatchesMessages(w) && !PatchUnencodable(w)
    ensures w.Carries(RelayedReply(w).body, w.patch.value.messages.value)
  {
    EncodedCarries(w, w.patch.value.messages.value);
  }

  /** A rewritten request that was served is recorded as modified, unless the script's messages could not be encoded. */
  lemma RewriteRecordedIff(w: World)
    requires ChangesRequest(w) && !w.gone(AtLog) && !UpstreamFails(w) && !FaultsReply(w)
    ensures OutcomeOf(w) == Modified <==> !PatchUnencodable(w)
  {
  }

  /** Nothing but a script or a replacement changes the reply. */
  lemma OtherwiseUntouched(w: World)
    requires w.upstream.Replied? && !ScriptDue(w) && !ReplacesReply(w)
    ensures RelayedReply(w) == Reply(w.upstream.draft, if w.ReplyBytes() == [] then None else Some(w.ReplyBytes()))
  {
  }
}
