/**
 * The attempt of one streaming call (src/grpc/grpc-listener.ts, `handleStreaming`):
 * a procedure that is suspended at its awaits, three guards, and the event
 * handlers that run in between. `React` is one event, `StreamingAttempt` the
 * variables of the source that the handlers update.
 */
module GrpcStreaming {
  import opened Common
  import opened RuleTypes
  import opened Matchers
  import opened Evaluate
  import opened Outcomes

  /** Where the main procedure is suspended, or how it ended. */
  datatype Phase =
    | Evaluating | RequestDelay | FaultSleep | AwaitUpstream | HeaderMatch | HeaderDelay | HeaderScript
    | Relaying | Finished

  /** Where the asynchronous tail is that the upstream's `end` starts. */
  datatype Tail = NotStarted | TailMatch | TailScript | Done

  /** Who destroyed the client's stream first. */
  datatype Destroyer = Client | Relay | Proxy

  /** The call of `writeLog` that made the record. */
  datatype Site = InBranch | InOuterCatch | AtTailEnd | InTailCatch | InCloseHandler

  datatype Record = Record(
    tag: Label,
    entry: Option<LogRecord>,
    site: Site,
    destroyedBy: Option<Destroyer>,
    selfDestroyed: bool,
    unreachable: bool)

  datatype Event = Resume | Reject | ClientGone | StreamClosed | ReplyEnd | ReplyError

  datatype Point =
    | AtRewrite | AtUpstreamUrl | AtReplyHeaders | AtReplace | AtRespondGrpc | AtRespond | AtTrailers | AtEnd

  /** The answers of everything outside; each await happens at most once in an attempt. */
  datatype World = World(
    evaluation: RequestEvaluation,
    hasRunner: bool,
    matched: bool,
    matchError: bool,
    scriptChanges: bool,
    rewrote: bool,
    replaced: bool,
    throws: Point -> bool)
  {
    function RequestOf(): Option<RequestStage> {
      if evaluation.interceptRule.Some? then evaluation.interceptRule.value.request else None
    }

    function ResponseOf(): Option<ResponseStage> {
      if evaluation.interceptRule.Some? then evaluation.interceptRule.value.response else None
    }

    predicate NeedsTrailers() {
      ResponseOf().Some? && ResponseOf().value.match_.Some? && UsesTrailers(ResponseOf().value.match_.value)
    }

    function RequestActionOf(): Option<RequestAction> {
      if RequestOf().Some? then RequestOf().value.action else None
    }

    predicate RewriteThrows() {
      RequestActionOf().Some? && RequestActionOf().value.RequestRewrite? && throws(AtRewrite)
    }

    function ResponseActionOf(): Option<ResponseAction> {
      if ResponseOf().Some? then ResponseOf().value.action else None
    }
  }

  datatype State = State(
    phase: Phase,
    tail: Tail,
    logged: bool,
    selfDestroyed: bool,
    destroyedBy: Option<Destroyer>,
    closed: bool,
    flags: Flags,
    ruleErrors: nat,
    unreachable: bool,
    records: seq<Record>)

  const START := State(Evaluating, NotStarted, false, false, None, false, NO_FLAGS, 0, false, [])

  // ---- the pieces of the procedure

  function Destroy(s: State, who: Destroyer): (t: State)
    ensures t.phase == s.phase
  {
    if s.destroyedBy.Some? then s else s.(destroyedBy := Some(who))
  }

  function FlagsAtLog(s: State): Flags {
    if s.destroyedBy.Some? && !s.selfDestroyed then s.flags.(clientAborted := true) else s.flags
  }

  function RecordOf(s: State, w: World, site: Site): Record {
    var flags := FlagsAtLog(s);
    var outcome := DecideOutcome(flags, s.ruleErrors > 0);
    var shouldLog := ShouldLog(flags, s.ruleErrors, w.evaluation);
    Record(
      if shouldLog then Labelled(outcome) else Passthrough,
      if shouldLog then Some(LogRecord(outcome, DecideReason(outcome, s.ruleErrors, w.evaluation))) else None,
      site, s.destroyedBy, s.selfDestroyed, s.unreachable)
  }

  function WriteLog(s: State, w: World, site: Site): (t: State)
    ensures t.phase == s.phase
  {
    s.(logged := true, flags := FlagsAtLog(s), records := s.records + [RecordOf(s, w, site)])
  }

  /** A reply that cannot be sent destroys the stream. */
  function RespondGrpc(s: State, w: World): (t: State)
    ensures t.phase == s.phase
  {
    if s.destroyedBy.None? && w.throws(AtRespondGrpc) then Destroy(s, Proxy) else s
  }

  /** The first guard. */
  function OuterCatch(s: State, w: World): (t: State)
    ensures t.phase == Finished
  {
    if s.logged then s.(phase := Finished)
    else WriteLog(
        if s.destroyedBy.Some? then s.(phase := Finished, flags := s.flags.(clientAborted := true))
        else RespondGrpc(s.(phase := Finished, ruleErrors := s.ruleErrors + 1), w), w, InOuterCatch)
  }

  function StatusFault(s: State, w: World): (t: State)
    ensures t.phase == Finished
  {
    WriteLog(RespondGrpc(s.(phase := Finished, flags := s.flags.(fault := true)), w), w, InBranch)
  }

  /** A fault without a reply. */
  function SilentFault(s: State, w: World, next: Phase): (t: State)
    ensures t.phase == next
  {
    WriteLog(s.(phase := next, flags := s.flags.(fault := true)), w, InBranch)
  }

  function Forward(s: State, w: World): (t: State)
    ensures t.phase in {Finished, AwaitUpstream}
  {
    if w.throws(AtUpstreamUrl) then OuterCatch(s, w) else s.(phase := AwaitUpstream)
  }

  function FaultStep(s: State, w: World, fault: FaultSpec): (t: State)
    ensures t.phase in {Finished, FaultSleep, AwaitUpstream}
  {
    match fault
    case GrpcStatus(_, _, _) => StatusFault(s, w)
    case Connection(_) => Destroy(SilentFault(s, w, Finished), Proxy)
    case Timeout(durationMs) => SilentFault(s, w, if durationMs.Some? then FaultSleep else Finished)
    case HttpResponse(_, _, _) => Forward(s, w)
  }

  /** A mock response is not supported here: it is recorded as an error, and the call passes through. */
  function Prepared(s: State, w: World): State {
    match w.RequestActionOf()
    case Some(MockResponse(_)) => s.(ruleErrors := s.ruleErrors + 1)
    case Some(RequestRewrite(_)) => if w.rewrote then s.(flags := s.flags.(modified := true)) else s
    case _ => s
  }

  function PassOnStep(s: State, w: World): (t: State)
    ensures t.phase in {Finished, AwaitUpstream}
  {
    if w.RewriteThrows() then OuterCatch(s, w) else Forward(Prepared(s, w), w)
  }

  function RequestFaultOf(w: World): Option<FaultSpec> {
    if w.RequestActionOf().Some? && w.RequestActionOf().value.RequestFault? then
      Some(w.RequestActionOf().value.fault)
    else
      None
  }

  function RequestActionStep(s: State, w: World): (t: State)
    ensures t.phase in {Finished, FaultSleep, AwaitUpstream}
  {
    if RequestFaultOf(w).Some? then FaultStep(s, w, RequestFaultOf(w).value) else PassOnStep(s, w)
  }

  function Evaluated(s: State, w: World): State {
    var t := s.(ruleErrors := |w.evaluation.errors|);
    if w.RequestOf().Some? && w.RequestOf().value.delay.Some? then t.(phase := RequestDelay)
    else RequestActionStep(t, w)
  }

  function UpstreamFailedStep(s: State, w: World): State {
    var t := s.(phase := Finished, flags := s.flags.(upstreamError := true), unreachable := true);
    WriteLog(RespondGrpc(t, w), w, InBranch)
  }

  /** `stream.respond` throws on a destroyed stream; otherwise the handlers are in place. */
  function StartRelay(s: State, w: World): (t: State)
    ensures t.phase in {Finished, Relaying}
  {
    if s.destroyedBy.Some? || w.throws(AtRespond) then OuterCatch(s, w) else s.(phase := Relaying)
  }

  function Replied(s: State, w: World): State {
    if w.ResponseOf().None? || w.NeedsTrailers() then StartRelay(s, w)
    else if w.throws(AtReplyHeaders) then OuterCatch(s, w)
    else s.(phase := HeaderMatch)
  }

  function HeaderAction(s: State, w: World): (t: State)
    ensures t.phase in {Finished, Relaying, HeaderScript}
  {
    match w.ResponseActionOf()
    case Some(ResponseReplace(_, _, _)) =>
      if w.throws(AtReplace) then OuterCatch(s, w)
      else StartRelay(if w.replaced then s.(flags := s.flags.(modified := true)) else s, w)
    case Some(ScriptManipulator(_, _)) =>
      if w.hasRunner then s.(phase := HeaderScript) else StartRelay(s, w)
    case Some(ResponseFault(GrpcStatus(_, _, _))) => StatusFault(s, w)
    case _ => StartRelay(s, w)
  }

  /** A matcher that throws is a rule error. */
  function MatchAnswered(s: State, w: World): State {
    if w.matchError then s.(ruleErrors := s.ruleErrors + 1) else s
  }

  function HeaderMatched(s: State, w: World): State {
    AfterHeaderMatch(MatchAnswered(s, w), w)
  }

  function AfterHeaderMatch(s: State, w: World): State {
    if w.matchError || !w.matched then StartRelay(s, w)
    else if w.ResponseOf().Some? && w.ResponseOf().value.delay.Some? then s.(phase := HeaderDelay)
    else HeaderAction(s, w)
  }

  function ScriptDone(s: State, w: World, failed: bool): State {
    if failed then s.(ruleErrors := s.ruleErrors + 1)
    else if w.scriptChanges then s.(flags := s.flags.(modified := true))
    else s
  }

  function Slept(s: State): State {
    s.(flags := s.flags.(delayed := true))
  }

  // ---- the tail

  /** The second guard. */
  function TailCatch(s: State, w: World): (t: State)
    ensures t.phase == s.phase
  {
    var t := s.(tail := Done);
    if t.logged then Destroy(t, Proxy)
    else Destroy(WriteLog(
        if t.destroyedBy.None? then t.(ruleErrors := t.ruleErrors + 1)
        else if t.selfDestroyed then t.(flags := t.flags.(upstreamError := true))
        else t.(flags := t.flags.(clientAborted := true)), w, InTailCatch), Proxy)
  }

  function FinishTail(s: State, w: World): (t: State)
    ensures t.phase == s.phase
  {
    if s.logged then s.(tail := Done)
    else if w.throws(AtEnd) then TailCatch(s, w)
    else WriteLog(s.(tail := Done), w, AtTailEnd)
  }

  function StartTail(s: State, w: World): State {
    if s.logged then s.(tail := Done)
    else if w.throws(AtTrailers) then TailCatch(s, w)
    else if w.NeedsTrailers() then s.(tail := TailMatch)
    else FinishTail(s, w)
  }

  function TailMatched(s: State, w: World): (t: State)
    ensures t.phase == s.phase
  {
    if w.matchError || !w.matched then FinishTail(MatchAnswered(s, w), w) else TailAction(MatchAnswered(s, w), w)
  }

  function TailAction(s: State, w: World): (t: State)
    ensures t.phase == s.phase
  {
    match w.ResponseActionOf()
    case Some(ResponseFault(GrpcStatus(_, _, _))) => FinishTail(s.(flags := s.flags.(fault := true)), w)
    case Some(ScriptManipulator(_, _)) => if w.hasRunner then s.(tail := TailScript) else FinishTail(s, w)
    case _ => FinishTail(s, w)
  }

  /** The third guard. */
  function OnClose(s: State, w: World): State {
    var t := s.(closed := true);
    if t.phase != Relaying || t.logged then t
    else WriteLog(
        if !t.selfDestroyed then t.(flags := t.flags.(clientAborted := true))
        else t.(flags := t.flags.(upstreamError := true)), w, InCloseHandler)
  }

  function OnResume(s: State, w: World): State {
    match s.phase
    case Evaluating => Evaluated(s, w)
    case RequestDelay => RequestActionStep(Slept(s), w)
    case FaultSleep => Destroy(s.(phase := Finished), Proxy)
    case AwaitUpstream => Replied(s, w)
    case HeaderMatch => HeaderMatched(s, w)
    case HeaderDelay => HeaderAction(Slept(s), w)
    case HeaderScript => StartRelay(ScriptDone(s, w, false), w)
    case Finished => s
    case Relaying =>
      match s.tail
      case TailMatch => TailMatched(s, w)
      case TailScript => FinishTail(ScriptDone(s, w, false), w)
      case _ => s
  }

  /** `evaluateRequest` turns what its matchers throw into errors of its result, so it is not rejected. */
  function OnReject(s: State, w: World): State {
    match s.phase
    case Evaluating => s
    case AwaitUpstream => UpstreamFailedStep(s, w)
    case HeaderScript => StartRelay(ScriptDone(s, w, true), w)
    case Finished => s
    case Relaying =>
      (match s.tail
       case TailMatch => TailCatch(s, w)
       case TailScript => FinishTail(ScriptDone(s, w, true), w)
       case _ => s)
    case _ => OuterCatch(s, w)
  }

  /** The upstream's stream ends once, and never after it has failed. */
  predicate CanEnd(s: State) {
    s.phase == Relaying && s.tail == NotStarted && !s.selfDestroyed
  }

  /** An event that cannot happen in `s` changes nothing. */
  function React(s: State, w: World, ev: Event): State {
    match ev
    case Resume => OnResume(s, w)
    case Reject => OnReject(s, w)
    case ClientGone => Destroy(s, Client)
    case StreamClosed => if s.destroyedBy.Some? && !s.closed then OnClose(s, w) else s
    case ReplyEnd => if CanEnd(s) then StartTail(s, w) else s
    case ReplyError => if s.phase == Relaying then Destroy(s.(selfDestroyed := true), Relay) else s
  }

  function Run(s: State, w: World, events: seq<Event>): State
    decreases |events|
  {
    if events == [] then s else Run(React(s, w, events[0]), w, events[1..])
  }

  // ---- what every run keeps

  /** The attempt cannot be logged any more by an event to come. */
  predicate Settled(s: State) {
    || s.phase.Finished? || s.phase.FaultSleep?
    || (s.phase.Relaying? && (s.closed || s.tail.Done?))
  }

  /** The label agrees with the state of the stream at the time of logging. */
  predicate Sound(r: Record) {
    && (r.tag.Labelled? <==> r.entry.Some?)
    && (r.entry.Some? ==> r.entry.value.outcome == r.tag.outcome)
    && (r.tag.Labelled? ==> (r.tag.outcome == ClientAborted <==> r.destroyedBy.Some? && !r.selfDestroyed))
    && (r.destroyedBy == Some(Relay) ==> r.selfDestroyed)
    && (r.selfDestroyed ==> r.destroyedBy.Some?)
    && (r.tag == Labelled(UpstreamFailed) ==> r.selfDestroyed || r.unreachable)
    && (r.selfDestroyed && r.site != AtTailEnd ==> r.tag == Labelled(UpstreamFailed))
    && (r.selfDestroyed && r.site == AtTailEnd ==> r.tag != Labelled(UpstreamFailed))
    && (r.unreachable && r.destroyedBy.None? ==> r.tag == Labelled(UpstreamFailed))
  }

  predicate Inv(s: State) {
    && |s.records| == (if s.logged then 1 else 0)
    && (s.logged <==> Settled(s))
    && (s.selfDestroyed || s.tail != NotStarted ==> s.phase == Relaying)
    && (s.selfDestroyed || s.closed ==> s.destroyedBy.Some?)
    && (s.destroyedBy == Some(Relay) ==> s.selfDestroyed)
    && (!s.logged ==> !s.flags.clientAborted && !s.flags.upstreamError && !s.unreachable)
    && (forall r <- s.records :: Sound(r))
  }

  /** Ready to be logged: `Inv` but for the place the procedure has reached. */
  predicate Unlogged(s: State) {
    && s.records == [] && !s.logged
    && (s.selfDestroyed || s.closed ==> s.destroyedBy.Some?)
    && (s.destroyedBy == Some(Relay) ==> s.selfDestroyed)
  }

  lemma WriteLogSound(s: State, w: World, site: Site)
    requires Unlogged(s)
    requires s.flags.clientAborted ==> s.destroyedBy.Some? && !s.selfDestroyed
    requires s.flags.upstreamError ==> s.unreachable || (s.selfDestroyed && site != AtTailEnd)
    requires s.selfDestroyed && site != AtTailEnd ==> s.flags.upstreamError
    requires s.unreachable ==> s.flags.upstreamError && !s.selfDestroyed
    ensures var t := WriteLog(s, w, site);
            t.logged && |t.records| == 1 && Sound(t.records[0])
            && t == s.(logged := true, flags := t.flags, records := t.records)
  {
  }

  /** What a piece of the main procedure may assume, and what it must leave behind. */
  predicate InMain(s: State) {
    Unlogged(s) && !s.selfDestroyed && s.tail == NotStarted && !s.flags.clientAborted && !s.flags.upstreamError
    && !s.unreachable
  }

  lemma OuterCatchKeeps(s: State, w: World)
    requires InMain(s)
    ensures Inv(OuterCatch(s, w))
  {
    var f := s.(phase := Finished);
    if f.destroyedBy.Some? {
      WriteLogSound(f.(flags := f.flags.(clientAborted := true)), w, InOuterCatch);
    } else {
      WriteLogSound(RespondGrpc(f.(ruleErrors := f.ruleErrors + 1), w), w, InOuterCatch);
    }
  }

  lemma ForwardKeeps(s: State, w: World)
    requires InMain(s)
    ensures Inv(Forward(s, w))
  {
    OuterCatchKeeps(s, w);
  }

  /** A fault that only makes its record: the phase is set and the stream may go afterwards. */
  lemma SilentFaultKeeps(s: State, w: World, phase: Phase)
    requires InMain(s) && (phase.Finished? || phase.FaultSleep?)
    ensures var t := SilentFault(s, w, phase);
            Inv(t) && Inv(Destroy(t, Proxy))
  {
    WriteLogSound(s.(phase := phase, flags := s.flags.(fault := true)), w, InBranch);
  }

  lemma RequestActionKeeps(s: State, w: World)
    requires InMain(s)
    ensures Inv(RequestActionStep(s, w))
  {
    if RequestFaultOf(w).Some? {
      FaultKeeps(s, w, RequestFaultOf(w).value);
    } else {
      PassOnKeeps(s, w);
    }
  }

  lemma PassOnKeeps(s: State, w: World)
    requires InMain(s)
    ensures Inv(PassOnStep(s, w))
  {
    OuterCatchKeeps(s, w);
    ForwardKeeps(Prepared(s, w), w);
  }

  lemma FaultKeeps(s: State, w: World, fault: FaultSpec)
    requires InMain(s)
    ensures Inv(FaultStep(s, w, fault))
  {
    match fault
    case GrpcStatus(_, _, _) => StatusFaultKeeps(s, w);
    case Connection(_) => SilentFaultKeeps(s, w, Finished);
    case Timeout(durationMs) => SilentFaultKeeps(s, w, if durationMs.Some? then FaultSleep else Finished);
    case HttpResponse(_, _, _) => ForwardKeeps(s, w);
  }

  lemma StatusFaultKeeps(s: State, w: World)
    requires InMain(s)
    ensures Inv(StatusFault(s, w))
  {
    WriteLogSound(RespondGrpc(s.(phase := Finished, flags := s.flags.(fault := true)), w), w, InBranch);
  }

  lemma UpstreamFailedKeeps(s: State, w: World)
    requires InMain(s)
    ensures Inv(UpstreamFailedStep(s, w))
  {
    var t := s.(phase := Finished, flags := s.flags.(upstreamError := true), unreachable := true);
    WriteLogSound(RespondGrpc(t, w), w, InBranch);
  }

  lemma StartRelayKeeps(s: State, w: World)
    requires InMain(s)
    ensures Inv(StartRelay(s, w))
  {
    OuterCatchKeeps(s, w);
  }

  lemma HeaderActionKeeps(s: State, w: World)
    requires InMain(s)
    ensures Inv(HeaderAction(s, w))
  {
    OuterCatchKeeps(s, w);
    StartRelayKeeps(s, w);
    StartRelayKeeps(s.(flags := s.flags.(modified := true)), w);
    StatusFaultKeeps(s, w);
  }

  lemma TailCatchKeeps(s: State, w: World)
    requires Inv(s) && s.phase == Relaying && s.tail != Done
    ensures Inv(TailCatch(s, w))
  {
    if !s.logged {
      var t := s.(tail := Done);
      WriteLogSound(if t.destroyedBy.Some? && t.selfDestroyed then t.(flags := t.flags.(upstreamError := true))
                    else if t.destroyedBy.Some? then t.(flags := t.flags.(clientAborted := true))
                    else t.(ruleErrors := t.ruleErrors + 1), w, InTailCatch);
    }
  }

  lemma FinishTailKeeps(s: State, w: World)
    requires Inv(s) && s.phase == Relaying && s.tail != Done
    ensures Inv(FinishTail(s, w))
  {
    TailCatchKeeps(s, w);
    if !s.logged {
      WriteLogSound(s.(tail := Done), w, AtTailEnd);
    }
  }

  lemma TailMatchedKeeps(s: State, w: World)
    requires Inv(s) && s.phase == Relaying && s.tail == TailMatch
    ensures Inv(TailMatched(s, w))
  {
    var t := MatchAnswered(s, w);
    if w.matchError || !w.matched {
      FinishTailKeeps(t, w);
    } else {
      TailActionKeeps(t, w);
    }
  }

  lemma TailActionKeeps(s: State, w: World)
    requires Inv(s) && s.phase == Relaying && s.tail == TailMatch
    ensures Inv(TailAction(s, w))
  {
    match w.ResponseActionOf()
    case Some(ResponseFault(GrpcStatus(_, _, _))) => FinishTailKeeps(s.(flags := s.flags.(fault := true)), w);
    case _ => FinishTailKeeps(s, w);
  }

  lemma CloseKeeps(s: State, w: World)
    requires Inv(s) && s.destroyedBy.Some? && !s.closed
    ensures Inv(OnClose(s, w))
  {
    var t := s.(closed := true);
    if t.phase == Relaying && !t.logged {
      WriteLogSound(if t.selfDestroyed then t.(flags := t.flags.(upstreamError := true))
                    else t.(flags := t.flags.(clientAborted := true)), w, InCloseHandler);
    }
  }

  lemma AfterHeaderMatchKeeps(s: State, w: World)
    requires InMain(s)
    ensures Inv(AfterHeaderMatch(s, w))
  {
    StartRelayKeeps(s, w);
    HeaderActionKeeps(s, w);
  }

  lemma ResumeKeeps(s: State, w: World)
    requires Inv(s)
    ensures Inv(OnResume(s, w))
  {
    match s.phase
    case Evaluating => RequestActionKeeps(s.(ruleErrors := |w.evaluation.errors|), w);
    case RequestDelay => RequestActionKeeps(Slept(s), w);
    case FaultSleep =>
    case AwaitUpstream => OuterCatchKeeps(s, w); StartRelayKeeps(s, w);
    case HeaderMatch => AfterHeaderMatchKeeps(MatchAnswered(s, w), w);
    case HeaderDelay => HeaderActionKeeps(Slept(s), w);
    case HeaderScript => StartRelayKeeps(ScriptDone(s, w, false), w);
    case Finished =>
    case Relaying =>
      match s.tail
      case TailMatch => TailMatchedKeeps(s, w);
      case TailScript => FinishTailKeeps(ScriptDone(s, w, false), w);
      case _ =>
  }

  lemma RejectKeeps(s: State, w: World)
    requires Inv(s)
    ensures Inv(OnReject(s, w))
  {
    match s.phase
    case AwaitUpstream => UpstreamFailedKeeps(s, w);
    case HeaderScript => StartRelayKeeps(ScriptDone(s, w, true), w);
    case Relaying =>
      if s.tail == TailMatch {
        TailCatchKeeps(s, w);
      } else if s.tail == TailScript {
        FinishTailKeeps(ScriptDone(s, w, true), w);
      }
    case Evaluating =>
    case Finished =>
    case FaultSleep =>
    case _ => OuterCatchKeeps(s, w);
  }

  lemma StepKeeps(s: State, w: World, ev: Event)
    requires Inv(s)
    ensures Inv(React(s, w, ev))
  {
    match ev
    case Resume => ResumeKeeps(s, w);
    case Reject => RejectKeeps(s, w);
    case StreamClosed => if s.destroyedBy.Some? && !s.closed { CloseKeeps(s, w); }
    case ReplyEnd =>
      if CanEnd(s) {
        TailCatchKeeps(s, w);
        FinishTailKeeps(s, w);
      }
    case _ =>
  }

  lemma {:induction false} RunKeeps(s: State, w: World, events: seq<Event>)
    requires Inv(s)
    ensures Inv(Run(s, w, events))
    decreases |events|
  {
    if events != [] {
      StepKeeps(s, w, events[0]);
      RunKeeps(React(s, w, events[0]), w, events[1..]);
    }
  }

  // ---- the main results

  /**
   * Under every schedule the attempt is logged at most once, and it has been
   * logged exactly when it is settled. Records are never changed afterwards.
   */
  lemma LoggedOnce(w: World, events: seq<Event>)
    ensures var s := Run(START, w, events);
            |s.records| <= 1 && (|s.records| == 1 <==> Settled(s))
  {
    RunKeeps(START, w, events);
  }

  /** Once the client's stream has closed and the main procedure is not suspended, there is one record. */
  lemma ClosedIsLogged(w: World, events: seq<Event>)
    requires var s := Run(START, w, events); s.closed && (s.phase.Relaying? || s.phase.Finished?)
    ensures |Run(START, w, events).records| == 1
  {
    LoggedOnce(w, events);
  }

  lemma {:induction false} RunSplit(s: State, w: World, first: seq<Event>, second: seq<Event>)
    ensures Run(s, w, first + second) == Run(Run(s, w, first), w, second)
    decreases |first|
  {
    if first == [] {
      assert first + second == second;
    } else {
      assert (first + second)[0] == first[0] && (first + second)[1..] == first[1..] + second;
      RunSplit(React(s, w, first[0]), w, first[1..], second);
    }
  }

  /** The awaits still ahead of the main procedure. */
  function Ahead(s: State): nat {
    match s.phase
    case Evaluating => 6
    case RequestDelay => 5
    case AwaitUpstream => 4
    case HeaderMatch => 3
    case HeaderDelay => 2
    case HeaderScript => 1
    case FaultSleep => 1
    case _ => 0
  }

  lemma ResumeAdvances(s: State, w: World)
    requires Ahead(s) > 0
    ensures Ahead(OnResume(s, w)) < Ahead(s)
  {
  }

  lemma ResumeStays(s: State, w: World)
    requires Ahead(s) == 0
    ensures Ahead(OnResume(s, w)) == 0
  {
  }

  function Resumes(n: nat): seq<Event> {
    if n == 0 then [] else [Resume] + Resumes(n - 1)
  }

  lemma RunCons(s: State, w: World, ev: Event, rest: seq<Event>)
    ensures Run(s, w, [ev] + rest) == Run(React(s, w, ev), w, rest)
  {
    assert ([ev] + rest)[1..] == rest;
  }

  lemma {:induction false} ResumesFinish(s: State, w: World, n: nat)
    requires Ahead(s) <= n
    ensures Ahead(Run(s, w, Resumes(n))) == 0
    decreases n
  {
    if n > 0 {
      if Ahead(s) > 0 {
        ResumeAdvances(s, w);
      } else {
        ResumeStays(s, w);
      }
      var t := OnResume(s, w);
      ResumesFinish(t, w, n - 1);
      RunCons(s, w, Resume, Resumes(n - 1));
    }
  }

  lemma GoneAndClosed(s: State, w: World)
    requires Inv(s) && Ahead(s) == 0
    ensures |Run(s, w, [ClientGone] + [StreamClosed]).records| == 1
  {
    var gone := Destroy(s, Client);
    RunCons(s, w, ClientGone, [StreamClosed]);
    RunCons(gone, w, StreamClosed, []);
    assert [StreamClosed] + [] == [StreamClosed];
    StepKeeps(s, w, ClientGone);
    StepKeeps(gone, w, StreamClosed);
  }

  /** No schedule gets the attempt stuck: let the awaits return and the stream close, and it is logged. */
  lemma CanAlwaysBeLogged(w: World, events: seq<Event>)
    ensures |Run(START, w, events + Resumes(6) + ([ClientGone] + [StreamClosed])).records| == 1
  {
    var s := Run(START, w, events);
    RunKeeps(START, w, events);
    ResumesFinish(s, w, 6);
    RunKeeps(s, w, Resumes(6));
    RunSplit(START, w, events, Resumes(6));
    GoneAndClosed(Run(s, w, Resumes(6)), w);
    RunSplit(START, w, events + Resumes(6), [ClientGone] + [StreamClosed]);
  }

  /**
   * The record says "client aborted" exactly when the stream was destroyed and
   * the upstream's error handler had not run.
   */
  lemma AbortLabel(w: World, events: seq<Event>)
    requires |Run(START, w, events).records| == 1 && Run(START, w, events).records[0].tag.Labelled?
    ensures var r := Run(START, w, events).records[0];
            r.tag.outcome == ClientAborted <==> r.destroyedBy.Some? && !r.selfDestroyed
  {
    RunKeeps(START, w, events);
    assert Sound(Run(START, w, events).records[0]);
  }

  // ---- the variables and handlers of the source

  /**
   * `records` lists the calls of `writeLog`; `destroyedBy` is `stream.destroyed`
   * with a note of the reason, which the code itself never looks at.
   */
  class StreamingAttempt {
    const w: World
    var phase: Phase
    var tail: Tail
    var logged: bool
    var selfDestroyed: bool
    var destroyedBy: Option<Destroyer>
    var closed: bool
    var flags: Flags
    var ruleErrors: nat
    var unreachable: bool
    var records: seq<Record>

    ghost function Abs(): State
      reads this
    {
      State(phase, tail, logged, selfDestroyed, destroyedBy, closed, flags, ruleErrors, unreachable, records)
    }

    constructor (world: World)
      ensures Abs() == START && w == world
    {
      w := world;
      phase, tail, logged, selfDestroyed, destroyedBy, closed := Evaluating, NotStarted, false, false, None, false;
      flags, ruleErrors, unreachable, records := NO_FLAGS, 0, false, [];
    }

    method DestroyStream(who: Destroyer)
      modifies this
      ensures Abs() == Destroy(old(Abs()), who)
    {
      if destroyedBy.None? {
        destroyedBy := Some(who);
      }
    }

    method Log(site: Site)
      modifies this
      ensures Abs() == WriteLog(old(Abs()), w, site)
    {
      logged := true;
      if destroyedBy.Some? && !selfDestroyed {
        flags := flags.(clientAborted := true);
      }
      var shouldLog := ShouldLog(flags, ruleErrors, w.evaluation);
      var outcome := DecideOutcome(flags, ruleErrors > 0);
      var tag, entry := Passthrough, None;
      if shouldLog {
        tag := Labelled(outcome);
        entry := Some(LogRecord(outcome, DecideReason(outcome, ruleErrors, w.evaluation)));
      }
      records := records + [Record(tag, entry, site, destroyedBy, selfDestroyed, unreachable)];
    }

    method Respond()
      modifies this
      ensures Abs() == RespondGrpc(old(Abs()), w)
    {
      if destroyedBy.Some? {
        return;
      }
      if w.throws(AtRespondGrpc) {
        DestroyStream(Proxy);
      }
    }

    method Catch()
      modifies this
      ensures Abs() == OuterCatch(old(Abs()), w)
    {
      phase := Finished;
      if logged {
        return;
      }
      if destroyedBy.Some? {
        flags := flags.(clientAborted := true);
        ghost var gone := old(Abs()).(phase := Finished, flags := flags);
        assert Abs() == gone;
        Log(InOuterCatch);
      } else {
        ruleErrors := ruleErrors + 1;
        ghost var failed := old(Abs()).(phase := Finished, ruleErrors := ruleErrors);
        assert Abs() == failed;
        Respond();
        assert Abs() == RespondGrpc(failed, w);
        Log(InOuterCatch);
      }
    }

    method AnswerStatus()
      modifies this
      ensures Abs() == StatusFault(old(Abs()), w)
    {
      phase, flags := Finished, flags.(fault := true);
      ghost var faulted := old(Abs()).(phase := Finished, flags := flags);
      assert Abs() == faulted;
      Respond();
      assert Abs() == RespondGrpc(faulted, w);
      Log(InBranch);
    }

    method LogFault(next: Phase)
      modifies this
      ensures Abs() == SilentFault(old(Abs()), w, next)
    {
      phase, flags := next, flags.(fault := true);
      Log(InBranch);
    }

    method SendUpstream()
      modifies this
      ensures Abs() == Forward(old(Abs()), w)
    {
      if w.throws(AtUpstreamUrl) {
        Catch();
      } else {
        phase := AwaitUpstream;
      }
    }

    method Prepare()
      modifies this
      ensures Abs() == Prepared(old(Abs()), w)
    {
      match w.RequestActionOf()
      case Some(MockResponse(_)) => ruleErrors := ruleErrors + 1;
      case Some(RequestRewrite(_)) =>
        if w.rewrote {
          flags := flags.(modified := true);
        }
      case _ =>
    }

    method PassOn()
      modifies this
      ensures Abs() == PassOnStep(old(Abs()), w)
    {
      if w.RewriteThrows() {
        Catch();
      } else {
        Prepare();
        SendUpstream();
      }
    }

    method RunFault(fault: FaultSpec)
      modifies this
      ensures Abs() == FaultStep(old(Abs()), w, fault)
    {
      match fault
      case GrpcStatus(_, _, _) => AnswerStatus();
      case Connection(_) =>
        LogFault(Finished);
        DestroyStream(Proxy);
      case Timeout(durationMs) => LogFault(if durationMs.Some? then FaultSleep else Finished);
      case HttpResponse(_, _, _) => SendUpstream();
    }

    method RunRequestAction()
      modifies this
      ensures Abs() == RequestActionStep(old(Abs()), w)
    {
      var fault := RequestFaultOf(w);
      if fault.Some? {
        RunFault(fault.value);
      } else {
        PassOn();
      }
    }

    method StartRelaying()
      modifies this
      ensures Abs() == StartRelay(old(Abs()), w)
    {
      if destroyedBy.Some? || w.throws(AtRespond) {
        Catch();
      } else {
        phase := Relaying;
      }
    }

    method RunHeaderAction()
      modifies this
      ensures Abs() == HeaderAction(old(Abs()), w)
    {
      match w.ResponseActionOf()
      case Some(ResponseReplace(_, _, _)) =>
        if w.throws(AtReplace) {
          Catch();
          return;
        }
        if w.replaced {
          flags := flags.(modified := true);
        }
        StartRelaying();
      case Some(ScriptManipulator(_, _)) =>
        if w.hasRunner {
          phase := HeaderScript;
        } else {
          StartRelaying();
        }
      case Some(ResponseFault(GrpcStatus(_, _, _))) => AnswerStatus();
      case _ => StartRelaying();
    }

    method ApplyScript(failed: bool)
      modifies this
      ensures Abs() == ScriptDone(old(Abs()), w, failed)
    {
      if failed {
        ruleErrors := ruleErrors + 1;
      } else if w.scriptChanges {
        flags := flags.(modified := true);
      }
    }

    method CatchTail()
      modifies this
      ensures Abs() == TailCatch(old(Abs()), w)
    {
      tail := Done;
      if logged {
      } else if destroyedBy.Some? && selfDestroyed {
        flags := flags.(upstreamError := true);
        Log(InTailCatch);
      } else if destroyedBy.Some? {
        flags := flags.(clientAborted := true);
        Log(InTailCatch);
      } else {
        ruleErrors := ruleErrors + 1;
        Log(InTailCatch);
      }
      DestroyStream(Proxy);
    }

    method EndTail()
      modifies this
      ensures Abs() == FinishTail(old(Abs()), w)
    {
      if logged {
        tail := Done;
      } else if w.throws(AtEnd) {
        CatchTail();
      } else {
        tail := Done;
        Log(AtTailEnd);
      }
    }

    method OnReplyEnd()
      modifies this
      ensures Abs() == React(old(Abs()), w, ReplyEnd)
    {
      if phase != Relaying || tail != NotStarted || selfDestroyed {
        return;
      }
      if logged {
        tail := Done;
      } else if w.throws(AtTrailers) {
        CatchTail();
      } else if w.NeedsTrailers() {
        tail := TailMatch;
      } else {
        EndTail();
      }
    }

    method TailAfterMatch()
      modifies this
      ensures Abs() == TailMatched(old(Abs()), w)
    {
      CountMatchError();
      if w.matchError || !w.matched {
        EndTail();
      } else {
        RunTailAction();
      }
    }

    method CountMatchError()
      modifies this`ruleErrors
      ensures Abs() == MatchAnswered(old(Abs()), w)
    {
      if w.matchError {
        ruleErrors := ruleErrors + 1;
      }
    }

    method RunTailAction()
      modifies this
      ensures Abs() == TailAction(old(Abs()), w)
    {
      match w.ResponseActionOf()
      case Some(ResponseFault(GrpcStatus(_, _, _))) =>
        flags := flags.(fault := true);
        EndTail();
      case Some(ScriptManipulator(_, _)) =>
        if w.hasRunner {
          tail := TailScript;
        } else {
          EndTail();
        }
      case _ => EndTail();
    }

    method OnStreamClosed()
      modifies this
      ensures Abs() == React(old(Abs()), w, StreamClosed)
    {
      if !destroyedBy.Some? || closed {
        return;
      }
      closed := true;
      if phase != Relaying || logged {
        return;
      }
      if !selfDestroyed {
        flags := flags.(clientAborted := true);
      } else {
        flags := flags.(upstreamError := true);
      }
      Log(InCloseHandler);
    }

    method OnReplyError()
      modifies this
      ensures Abs() == React(old(Abs()), w, ReplyError)
    {
      if phase == Relaying {
        selfDestroyed := true;
        DestroyStream(Relay);
      }
    }

    method AfterReply()
      modifies this
      ensures Abs() == Replied(old(Abs()), w)
    {
      if w.ResponseOf().None? || w.NeedsTrailers() {
        StartRelaying();
      } else if w.throws(AtReplyHeaders) {
        Catch();
      } else {
        phase := HeaderMatch;
      }
    }

    method OnHeaderVerdict()
      modifies this
      ensures Abs() == HeaderMatched(old(Abs()), w)
    {
      CountMatchError();
      AfterVerdict();
    }

    method AfterVerdict()
      modifies this
      ensures Abs() == AfterHeaderMatch(old(Abs()), w)
    {
      if w.matchError || !w.matched {
        StartRelaying();
      } else if w.ResponseOf().Some? && w.ResponseOf().value.delay.Some? {
        phase := HeaderDelay;
      } else {
        RunHeaderAction();
      }
    }

    /** The pending await returns. */
    method ResumeAwait()
      modifies this
      ensures Abs() == OnResume(old(Abs()), w)
    {
      match phase
      case Evaluating =>
        ruleErrors := |w.evaluation.errors|;
        if w.RequestOf().Some? && w.RequestOf().value.delay.Some? {
          phase := RequestDelay;
        } else {
          RunRequestAction();
        }
      case RequestDelay =>
        flags := flags.(delayed := true);
        RunRequestAction();
      case FaultSleep =>
        phase := Finished;
        DestroyStream(Proxy);
      case AwaitUpstream => AfterReply();
      case HeaderMatch => OnHeaderVerdict();
      case HeaderDelay =>
        flags := flags.(delayed := true);
        RunHeaderAction();
      case HeaderScript =>
        ApplyScript(false);
        StartRelaying();
      case Finished =>
      case Relaying =>
        if tail == TailMatch {
          TailAfterMatch();
        } else if tail == TailScript {
          ApplyScript(false);
          EndTail();
        }
    }

    /** The pending await throws. */
    method RejectAwait()
      modifies this
      ensures Abs() == OnReject(old(Abs()), w)
    {
      match phase
      case Evaluating =>
      case AwaitUpstream =>
        phase, flags, unreachable := Finished, flags.(upstreamError := true), true;
        Respond();
        Log(InBranch);
      case HeaderScript =>
        ApplyScript(true);
        StartRelaying();
      case Finished =>
      case Relaying =>
        if tail == TailMatch {
          CatchTail();
        } else if tail == TailScript {
          ApplyScript(true);
          EndTail();
        }
      case _ => Catch();
    }
  }

  /**
   * Any schedule, played to the handlers: at most one metrics record and one
   * entry, and the metrics record is there exactly when the attempt is settled.
   */
  method Serve(w: World, events: seq<Event>) returns (attempt: StreamingAttempt)
    ensures attempt.Abs() == Run(START, w, events)
    ensures |attempt.records| <= 1 && (|attempt.records| == 1 <==> Settled(attempt.Abs()))
    ensures forall r <- attempt.records :: Sound(r)
  {
    attempt := new StreamingAttempt(w);
    for i := 0 to |events|
      invariant attempt.w == w && attempt.Abs() == Run(START, w, events[..i])
      invariant fresh(attempt)
    {
      RunSplit(START, w, events[..i], [events[i]]);
      assert events[..i + 1] == events[..i] + [events[i]];
      RunCons(Run(START, w, events[..i]), w, events[i], []);
      assert [events[i]] + [] == [events[i]];
      match events[i]
      case Resume => attempt.ResumeAwait();
      case Reject => attempt.RejectAwait();
      case ClientGone => attempt.DestroyStream(Client);
      case StreamClosed => attempt.OnStreamClosed();
      case ReplyEnd => attempt.OnReplyEnd();
      case ReplyError => attempt.OnReplyError();
    }
    assert events[..|events|] == events;
    RunKeeps(START, w, events);
  }

  /** A record once made stays as it is. */
  lemma {:induction false} RecordsStand(s: State, w: World, events: seq<Event>)
    requires Inv(s) && s.logged
    ensures Run(s, w, events).records == s.records
    decreases |events|
  {
    if events != [] {
      StepKeeps(s, w, events[0]);
      LoggedStays(s, w, events[0]);
      RecordsStand(React(s, w, events[0]), w, events[1..]);
    }
  }

  lemma LoggedStays(s: State, w: World, ev: Event)
    requires Inv(s) && s.logged
    ensures React(s, w, ev).records == s.records
  {
    assert s.phase.Finished? || s.phase.FaultSleep? || s.phase.Relaying?;
    match ev
    case Resume =>
      assert s.phase == Relaying && s.tail == TailMatch ==> TailMatched(s, w).records == s.records;
    case Reject =>
      assert TailCatch(s, w).records == s.records;
      assert OuterCatch(s, w).records == s.records;
    case _ =>
  }
}
