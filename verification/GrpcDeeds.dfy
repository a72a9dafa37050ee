/**
 * The outcome of a streaming call's record (src/grpc/grpc-listener.ts), read
 * off the schedule: what ran before the record was made, not what the rule asks for.
 */
module GrpcDeeds {
  import opened Common
  import opened RuleTypes
  import opened Outcomes
  import opened GrpcStreaming
  import opened GrpcBlame

  // ---- what runs in a step

  /** The rule's request action has its turn. */
  predicate RequestTurn(s: State, w: World, ev: Event) {
    && ev == Resume && !s.logged
    && (s.phase == RequestDelay
        || (s.phase == Evaluating && !(w.RequestOf().Some? && w.RequestOf().value.delay.Some?)))
  }

  predicate MatchHolds(w: World) {
    !w.matchError && w.matched
  }

  /** The rule's response action has its turn before the headers are relayed. */
  predicate HeaderTurn(s: State, w: World, ev: Event) {
    && ev == Resume && !s.logged
    && (s.phase == HeaderDelay
        || (s.phase == HeaderMatch && MatchHolds(w) && !(w.ResponseOf().Some? && w.ResponseOf().value.delay.Some?)))
  }

  /** It has its turn when the trailers are there. */
  predicate TailTurn(s: State, w: World, ev: Event) {
    ev == Resume && !s.logged && s.phase == Relaying && s.tail == TailMatch && MatchHolds(w)
  }

  predicate RequestFaults(w: World) {
    RequestFaultOf(w).Some? && !RequestFaultOf(w).value.HttpResponse?
  }

  predicate StatusFaults(w: World) {
    match w.ResponseActionOf()
    case Some(ResponseFault(GrpcStatus(_, _, _))) => true
    case _ => false
  }

  predicate FaultRuns(s: State, w: World, ev: Event) {
    || (RequestTurn(s, w, ev) && RequestFaults(w))
    || ((HeaderTurn(s, w, ev) || TailTurn(s, w, ev)) && StatusFaults(w))
  }

  predicate DelayRuns(s: State, w: World, ev: Event) {
    ev == Resume && !s.logged && (s.phase == RequestDelay || s.phase == HeaderDelay)
  }

  predicate RequestChanges(w: World) {
    w.RequestActionOf().Some? && w.RequestActionOf().value.RequestRewrite? && !w.throws(AtRewrite) && w.rewrote
  }

  predicate HeaderChanges(w: World) {
    w.ResponseActionOf().Some? && w.ResponseActionOf().value.ResponseReplace? && !w.throws(AtReplace) && w.replaced
  }

  /** The script that was awaited answers. */
  predicate ScriptTurn(s: State) {
    !s.logged && (s.phase == HeaderScript || (s.phase == Relaying && s.tail == TailScript))
  }

  predicate ChangeRuns(s: State, w: World, ev: Event) {
    || (RequestTurn(s, w, ev) && RequestChanges(w))
    || (HeaderTurn(s, w, ev) && HeaderChanges(w))
    || (ev == Resume && ScriptTurn(s) && w.scriptChanges)
  }

  predicate RequestMocks(w: World) {
    w.RequestActionOf().Some? && w.RequestActionOf().value.MockResponse?
  }

  predicate RequestThrows(w: World) {
    !RequestFaults(w) && (w.RewriteThrows() || w.throws(AtUpstreamUrl))
  }

  /** The response action's own step throws, or the relay it leads to does. */
  predicate HeaderActionThrows(w: World) {
    match w.ResponseActionOf()
    case Some(ResponseReplace(_, _, _)) => w.throws(AtReplace) || w.throws(AtRespond)
    case Some(ScriptManipulator(_, _)) => !w.hasRunner && w.throws(AtRespond)
    case Some(ResponseFault(GrpcStatus(_, _, _))) => false
    case _ => w.throws(AtRespond)
  }

  /** The step throws and a guard catches it. */
  predicate Throws(s: State, w: World, ev: Event) {
    match ev
    case Resume =>
      || (RequestTurn(s, w, ev) && RequestThrows(w))
      || (s.phase == AwaitUpstream
          && if w.ResponseOf().None? || w.NeedsTrailers() then w.throws(AtRespond) else w.throws(AtReplyHeaders))
      || (s.phase == HeaderMatch && !MatchHolds(w) && w.throws(AtRespond))
      || (HeaderTurn(s, w, ev) && HeaderActionThrows(w))
      || (s.phase == HeaderScript && w.throws(AtRespond))
      || (s.phase == Relaying && s.tail == TailMatch && !TailRunsScript(w) && w.throws(AtEnd))
      || (s.phase == Relaying && s.tail == TailScript && w.throws(AtEnd))
    case Reject =>
      || s.phase == RequestDelay || s.phase == HeaderMatch || s.phase == HeaderDelay
      || (s.phase == HeaderScript && w.throws(AtRespond))
      || (s.phase == Relaying && s.tail == TailMatch)
      || (s.phase == Relaying && s.tail == TailScript && w.throws(AtEnd))
    case ReplyEnd => CanEnd(s) && (w.throws(AtTrailers) || (!w.NeedsTrailers() && w.throws(AtEnd)))
    case _ => false
  }

  /** An error is counted: an unsupported mock, a matcher or script that fails, a step that throws with the stream open. */
  predicate ErrorRuns(s: State, w: World, ev: Event) {
    !s.logged &&
    (|| (RequestTurn(s, w, ev) && RequestMocks(w))
     || (ev == Resume && w.matchError && (s.phase == HeaderMatch || (s.phase == Relaying && s.tail == TailMatch)))
     || (ev == Reject && ScriptTurn(s))
     || (Throws(s, w, ev) && s.destroyedBy.None?))
  }

  // ---- what a step marks

  /** The outcome follows from the flags as they stand. */
  predicate Decided(t: State) {
    |t.records| == 1
    && (t.records[0].tag == Passthrough || t.records[0].tag == Labelled(DecideOutcome(t.flags, t.ruleErrors > 0)))
  }

  /** From `s` to `t` exactly these things have been marked. */
  predicate Marks(s: State, t: State, fault: bool, delay: bool, change: bool, error: bool) {
    && t.flags.mock == s.flags.mock
    && t.flags.fault == (s.flags.fault || fault)
    && t.flags.delayed == (s.flags.delayed || delay)
    && t.flags.modified == (s.flags.modified || change)
    && s.ruleErrors <= t.ruleErrors && (s.ruleErrors < t.ruleErrors <==> error)
    && (t.logged ==> Decided(t))
  }

  lemma OuterCatchMarks(s: State, w: World)
    requires InMain(s)
    ensures Marks(s, OuterCatch(s, w), false, false, false, s.destroyedBy.None?)
  {
  }

  lemma StatusFaultMarks(s: State, w: World)
    requires InMain(s)
    ensures Marks(s, StatusFault(s, w), true, false, false, false)
  {
  }

  lemma UpstreamFailedMarks(s: State, w: World)
    requires InMain(s)
    ensures Marks(s, UpstreamFailedStep(s, w), false, false, false, false)
  {
  }

  lemma ForwardMarks(s: State, w: World)
    requires InMain(s)
    ensures Marks(s, Forward(s, w), false, false, false, w.throws(AtUpstreamUrl) && s.destroyedBy.None?)
  {
    OuterCatchMarks(s, w);
  }

  lemma FaultMarks(s: State, w: World, fault: FaultSpec)
    requires InMain(s)
    ensures Marks(s, FaultStep(s, w, fault), !fault.HttpResponse?, false, false,
                  fault.HttpResponse? && w.throws(AtUpstreamUrl) && s.destroyedBy.None?)
  {
    match fault
    case GrpcStatus(_, _, _) => StatusFaultMarks(s, w);
    case Connection(_) =>
    case Timeout(_) =>
    case HttpResponse(_, _, _) => ForwardMarks(s, w);
  }

  lemma PassOnMarks(s: State, w: World)
    requires InMain(s) && RequestFaultOf(w).None?
    ensures Marks(s, PassOnStep(s, w), false, false, RequestChanges(w),
                  RequestMocks(w) || ((w.RewriteThrows() || w.throws(AtUpstreamUrl)) && s.destroyedBy.None?))
  {
    if w.RewriteThrows() {
      OuterCatchMarks(s, w);
    } else {
      PreparedMarks(s, w);
      ForwardMarks(Prepared(s, w), w);
      MarksThen(s, Prepared(s, w), PassOnStep(s, w), w, RequestMocks(w), w.throws(AtUpstreamUrl) && s.destroyedBy.None?);
    }
  }

  lemma PreparedMarks(s: State, w: World)
    requires InMain(s) && !w.RewriteThrows()
    ensures InMain(Prepared(s, w)) && Prepared(s, w).destroyedBy == s.destroyedBy
    ensures Marks(s, Prepared(s, w), false, false, RequestChanges(w), RequestMocks(w))
  {
  }

  lemma MarksThen(s: State, m: State, t: State, w: World, before: bool, after: bool)
    requires Marks(s, m, false, false, RequestChanges(w), before) && Marks(m, t, false, false, false, after)
    ensures Marks(s, t, false, false, RequestChanges(w), before || after)
  {
  }

  lemma RequestActionMarks(s: State, w: World)
    requires InMain(s)
    ensures Marks(s, RequestActionStep(s, w), RequestFaults(w), false, RequestChanges(w),
                  RequestMocks(w) || (RequestThrows(w) && s.destroyedBy.None?))
  {
    if RequestFaultOf(w).Some? {
      FaultMarks(s, w, RequestFaultOf(w).value);
    } else {
      PassOnMarks(s, w);
    }
  }

  lemma StartRelayMarks(s: State, w: World)
    requires InMain(s)
    ensures Marks(s, StartRelay(s, w), false, false, false, w.throws(AtRespond) && s.destroyedBy.None?)
  {
    OuterCatchMarks(s, w);
  }

  lemma HeaderActionMarks(s: State, w: World)
    requires InMain(s)
    ensures Marks(s, HeaderAction(s, w), StatusFaults(w), false, HeaderChanges(w),
                  HeaderActionThrows(w) && s.destroyedBy.None?)
  {
    match w.ResponseActionOf()
    case Some(ResponseReplace(_, _, _)) =>
      if w.throws(AtReplace) {
        OuterCatchMarks(s, w);
      } else {
        StartRelayMarks(if w.replaced then s.(flags := s.flags.(modified := true)) else s, w);
      }
    case Some(ScriptManipulator(_, _)) => StartRelayMarks(s, w);
    case Some(ResponseFault(_)) =>
      StatusFaultMarks(s, w);
      StartRelayMarks(s, w);
    case None => StartRelayMarks(s, w);
  }

  lemma TailCatchMarks(s: State, w: World)
    requires Inv(s) && !s.logged && s.phase == Relaying
    ensures Marks(s, TailCatch(s, w), false, false, false, s.destroyedBy.None?)
  {
  }

  lemma FinishTailMarks(s: State, w: World)
    requires Inv(s) && !s.logged && s.phase == Relaying
    ensures Marks(s, FinishTail(s, w), false, false, false, w.throws(AtEnd) && s.destroyedBy.None?)
  {
    TailCatchMarks(s, w);
  }

  lemma TailActionMarks(s: State, w: World)
    requires Inv(s) && !s.logged && s.phase == Relaying && s.tail == TailMatch && MatchHolds(w)
    ensures Marks(s, TailAction(s, w), StatusFaults(w), false, false,
                  !TailRunsScript(w) && w.throws(AtEnd) && s.destroyedBy.None?)
  {
    FinishTailMarks(s, w);
    FinishTailMarks(s.(flags := s.flags.(fault := true)), w);
  }

  // ---- a step of an open attempt

  /** The errors counted once the evaluation is in. */
  function Counted(s: State, w: World): nat {
    if s.phase == Evaluating then |w.evaluation.errors| else s.ruleErrors
  }

  /** The step marks exactly what ran in it. */
  predicate Does(s: State, t: State, w: World, ev: Event) {
    Marks(s.(ruleErrors := Counted(s, w)), t.(ruleErrors := Counted(t, w)),
          FaultRuns(s, w, ev), DelayRuns(s, w, ev), ChangeRuns(s, w, ev), ErrorRuns(s, w, ev))
  }

  lemma RequestTurnDoes(s: State, w: World)
    requires Inv(s) && RequestTurn(s, w, Resume)
    ensures Does(s, OnResume(s, w), w, Resume)
  {
    if s.phase == Evaluating {
      RequestActionMarks(s.(ruleErrors := |w.evaluation.errors|), w);
    } else {
      SleptTurnDoes(s, w);
    }
  }

  lemma SleptTurnDoes(s: State, w: World)
    requires Inv(s) && !s.logged && s.phase == RequestDelay
    ensures Does(s, OnResume(s, w), w, Resume)
  {
    RequestActionMarks(Slept(s), w);
  }

  /** At these awaits nothing but a throw can run. */
  lemma OnlyThrows(s: State, w: World, ev: Event)
    requires !s.logged && s.phase == AwaitUpstream
    ensures !FaultRuns(s, w, ev) && !DelayRuns(s, w, ev) && !ChangeRuns(s, w, ev)
    ensures ErrorRuns(s, w, ev) <==> Throws(s, w, ev) && s.destroyedBy.None?
  {
  }

  lemma AwaitUpstreamDoes(s: State, w: World)
    requires Inv(s) && !s.logged && s.phase == AwaitUpstream
    ensures Does(s, OnResume(s, w), w, Resume)
  {
    OnlyThrows(s, w, Resume);
    RepliedMarks(s, w);
  }

  lemma RepliedMarks(s: State, w: World)
    requires InMain(s) && s.phase == AwaitUpstream
    ensures Marks(s, Replied(s, w), false, false, false, Throws(s, w, Resume) && s.destroyedBy.None?)
    ensures Replied(s, w).phase != Evaluating
  {
    if w.ResponseOf().None? || w.NeedsTrailers() {
      StartRelayMarks(s, w);
    } else if w.throws(AtReplyHeaders) {
      OuterCatchMarks(s, w);
    }
  }

  /** What runs when the matcher of the headers answers. */
  lemma RunsAtHeaderMatch(s: State, w: World)
    requires !s.logged && s.phase == HeaderMatch
    ensures var acts := MatchHolds(w) && !(w.ResponseOf().Some? && w.ResponseOf().value.delay.Some?);
            && (FaultRuns(s, w, Resume) <==> acts && StatusFaults(w)) && !DelayRuns(s, w, Resume)
            && (ChangeRuns(s, w, Resume) <==> acts && HeaderChanges(w))
            && (ErrorRuns(s, w, Resume) <==>
                  w.matchError
                  || ((if MatchHolds(w) then acts && HeaderActionThrows(w) else w.throws(AtRespond)) && s.destroyedBy.None?))
  {
  }

  lemma AfterHeaderMatchMarks(s: State, w: World)
    requires InMain(s) && s.phase == HeaderMatch
    ensures var acts := MatchHolds(w) && !(w.ResponseOf().Some? && w.ResponseOf().value.delay.Some?);
            Marks(s, AfterHeaderMatch(s, w), acts && StatusFaults(w), false, acts && HeaderChanges(w),
                  (if MatchHolds(w) then acts && HeaderActionThrows(w) else w.throws(AtRespond)) && s.destroyedBy.None?)
    ensures AfterHeaderMatch(s, w).phase != Evaluating
  {
    if !MatchHolds(w) {
      StartRelayMarks(s, w);
    } else if !(w.ResponseOf().Some? && w.ResponseOf().value.delay.Some?) {
      HeaderActionMarks(s, w);
    }
  }

  lemma HeaderMatchDoes(s: State, w: World)
    requires Inv(s) && !s.logged && s.phase == HeaderMatch
    ensures Does(s, OnResume(s, w), w, Resume)
  {
    RunsAtHeaderMatch(s, w);
    AfterHeaderMatchMarks(MatchAnswered(s, w), w);
  }

  lemma HeaderDelayDoes(s: State, w: World)
    requires Inv(s) && !s.logged && s.phase == HeaderDelay
    ensures Does(s, OnResume(s, w), w, Resume)
  {
    HeaderActionMarks(Slept(s), w);
  }

  /** What runs when an awaited script answers or fails. */
  lemma RunsAtScript(s: State, w: World, ev: Event)
    requires ScriptTurn(s) && (ev == Resume || ev == Reject)
    ensures !FaultRuns(s, w, ev) && !DelayRuns(s, w, ev)
    ensures ChangeRuns(s, w, ev) <==> ev == Resume && w.scriptChanges
    ensures ErrorRuns(s, w, ev) <==>
            ev == Reject || (w.throws(if s.phase == HeaderScript then AtRespond else AtEnd) && s.destroyedBy.None?)
  {
  }

  lemma HeaderScriptDoes(s: State, w: World, ev: Event)
    requires Inv(s) && !s.logged && s.phase == HeaderScript && (ev == Resume || ev == Reject)
    ensures Does(s, React(s, w, ev), w, ev)
  {
    RunsAtScript(s, w, ev);
    HeaderScriptMarks(s, w, ev == Reject);
  }

  lemma HeaderScriptMarks(s: State, w: World, failed: bool)
    requires InMain(s)
    ensures Marks(s, StartRelay(ScriptDone(s, w, failed), w), false, false, !failed && w.scriptChanges,
                  failed || (w.throws(AtRespond) && s.destroyedBy.None?))
  {
    StartRelayMarks(ScriptDone(s, w, failed), w);
  }

  lemma MainResumeDoes(s: State, w: World)
    requires Inv(s) && !s.logged && s.phase != Relaying
    ensures Does(s, OnResume(s, w), w, Resume)
  {
    match s.phase
    case Evaluating => if RequestTurn(s, w, Resume) { RequestTurnDoes(s, w); }
    case RequestDelay => RequestTurnDoes(s, w);
    case AwaitUpstream => AwaitUpstreamDoes(s, w);
    case HeaderMatch => HeaderMatchDoes(s, w);
    case HeaderDelay => HeaderDelayDoes(s, w);
    case HeaderScript => HeaderScriptDoes(s, w, Resume);
  }

  lemma MainRejectDoes(s: State, w: World)
    requires Inv(s) && !s.logged && s.phase != Relaying
    ensures Does(s, OnReject(s, w), w, Reject)
  {
    match s.phase
    case Evaluating =>
    case AwaitUpstream => UpstreamFailedMarks(s, w);
    case HeaderScript => HeaderScriptDoes(s, w, Reject);
    case _ => OuterCatchMarks(s, w);
  }

  /** What runs when the tail's matcher answers or fails. */
  lemma RunsAtTailMatch(s: State, w: World, ev: Event)
    requires !s.logged && s.phase == Relaying && s.tail == TailMatch && (ev == Resume || ev == Reject)
    ensures FaultRuns(s, w, ev) <==> ev == Resume && MatchHolds(w) && StatusFaults(w)
    ensures !DelayRuns(s, w, ev) && !ChangeRuns(s, w, ev)
    ensures ErrorRuns(s, w, ev) <==>
            if ev == Reject then s.destroyedBy.None?
            else w.matchError || (!TailRunsScript(w) && w.throws(AtEnd) && s.destroyedBy.None?)
  {
  }

  lemma TailMatchedMarks(s: State, w: World)
    requires Inv(s) && !s.logged && s.phase == Relaying && s.tail == TailMatch
    ensures Marks(s, TailMatched(s, w), MatchHolds(w) && StatusFaults(w), false, false,
                  w.matchError || (!TailRunsScript(w) && w.throws(AtEnd) && s.destroyedBy.None?))
  {
    if MatchHolds(w) {
      TailActionMarks(s, w);
    } else {
      FinishTailMarks(MatchAnswered(s, w), w);
    }
  }

  lemma TailMatchDoes(s: State, w: World, ev: Event)
    requires Inv(s) && !s.logged && s.phase == Relaying && s.tail == TailMatch && (ev == Resume || ev == Reject)
    ensures Does(s, React(s, w, ev), w, ev)
  {
    RunsAtTailMatch(s, w, ev);
    if ev == Reject {
      TailCatchMarks(s, w);
    } else {
      TailMatchedMarks(s, w);
    }
  }

  lemma TailScriptMarks(s: State, w: World, failed: bool)
    requires Inv(s) && !s.logged && s.phase == Relaying
    ensures Marks(s, FinishTail(ScriptDone(s, w, failed), w), false, false, !failed && w.scriptChanges,
                  failed || (w.throws(AtEnd) && s.destroyedBy.None?))
  {
    FinishTailMarks(ScriptDone(s, w, failed), w);
  }

  lemma TailScriptDoes(s: State, w: World, ev: Event)
    requires Inv(s) && !s.logged && s.phase == Relaying && s.tail == TailScript && (ev == Resume || ev == Reject)
    ensures Does(s, React(s, w, ev), w, ev)
  {
    RunsAtScript(s, w, ev);
    TailScriptMarks(s, w, ev == Reject);
  }

  lemma RunsAtReplyEnd(s: State, w: World)
    requires !s.logged
    ensures !FaultRuns(s, w, ReplyEnd) && !DelayRuns(s, w, ReplyEnd) && !ChangeRuns(s, w, ReplyEnd)
    ensures ErrorRuns(s, w, ReplyEnd) <==>
            CanEnd(s) && (w.throws(AtTrailers) || (!w.NeedsTrailers() && w.throws(AtEnd))) && s.destroyedBy.None?
  {
  }

  lemma StartTailMarks(s: State, w: World)
    requires Inv(s) && !s.logged && s.phase == Relaying
    ensures Marks(s, StartTail(s, w), false, false, false,
                  (w.throws(AtTrailers) || (!w.NeedsTrailers() && w.throws(AtEnd))) && s.destroyedBy.None?)
  {
    if w.throws(AtTrailers) {
      TailCatchMarks(s, w);
    } else if !w.NeedsTrailers() {
      FinishTailMarks(s, w);
    }
  }

  lemma ReplyEndDoes(s: State, w: World)
    requires Inv(s) && !s.logged
    ensures Does(s, React(s, w, ReplyEnd), w, ReplyEnd)
  {
    RunsAtReplyEnd(s, w);
    if CanEnd(s) {
      StartTailMarks(s, w);
    }
  }

  lemma StepDoes(s: State, w: World, ev: Event)
    requires Inv(s) && !s.logged
    ensures Does(s, React(s, w, ev), w, ev)
  {
    match ev
    case Resume =>
      if s.phase != Relaying {
        MainResumeDoes(s, w);
      } else if s.tail == TailMatch {
        TailMatchDoes(s, w, ev);
      } else if s.tail == TailScript {
        TailScriptDoes(s, w, ev);
      }
    case Reject =>
      if s.phase != Relaying {
        MainRejectDoes(s, w);
      } else if s.tail == TailMatch {
        TailMatchDoes(s, w, ev);
      } else if s.tail == TailScript {
        TailScriptDoes(s, w, ev);
      }
    case ReplyEnd => ReplyEndDoes(s, w);
    case _ =>
  }

  // ---- the outcome of a record

  /** What has run by the time of the record, from an open state on. */
  predicate Ran(before: bool, s: State, w: World, events: seq<Event>, what: (State, World, Event) -> bool) {
    before || Happens(s, w, events, what)
  }

  /** The outcome is decided by what has run, after the labels that come first. */
  predicate OutcomeIs(outcome: Outcome, fault: bool, change: bool, delay: bool, error: bool) {
    match outcome
    case ClientAborted => true
    case UpstreamFailed => true
    case Mocked => false
    case Faulted => fault
    case Modified => !fault && change
    case Delayed => !fault && !change && delay
    case RuleFailed => !fault && !change && !delay && error
    case CapturedOnly => !fault && !change && !delay && !error
  }

  lemma {:induction false} NothingRunsLater(s: State, w: World, events: seq<Event>)
    requires Inv(s) && s.logged
    ensures !Happens(s, w, events, FaultRuns) && !Happens(s, w, events, ChangeRuns)
    ensures !Happens(s, w, events, DelayRuns) && !Happens(s, w, events, ErrorRuns)
    decreases |events|
  {
    if events != [] {
      StepKeeps(s, w, events[0]);
      LoggedStays(s, w, events[0]);
      NothingRunsLater(React(s, w, events[0]), w, events[1..]);
    }
  }

  lemma {:induction false} OutcomeFrom(s: State, w: World, events: seq<Event>)
    requires Inv(s) && !s.logged && !s.flags.mock
    requires |Run(s, w, events).records| == 1 && Run(s, w, events).records[0].tag.Labelled?
    ensures OutcomeIs(Run(s, w, events).records[0].tag.outcome,
                      Ran(s.flags.fault, s, w, events, FaultRuns),
                      Ran(s.flags.modified, s, w, events, ChangeRuns),
                      Ran(s.flags.delayed, s, w, events, DelayRuns),
                      Ran(Counted(s, w) > 0, s, w, events, ErrorRuns))
    decreases |events|
  {
    var ev, t := events[0], React(s, w, events[0]);
    StepKeeps(s, w, ev);
    StepDoes(s, w, ev);
    if t.logged {
      RecordsStand(t, w, events[1..]);
      NothingRunsLater(t, w, events[1..]);
    } else {
      OutcomeFrom(t, w, events[1..]);
    }
  }

  /**
   * The exact outcome: once neither the client's leaving nor the upstream's
   * failing decides it, a record says that a fault ran iff one did, else that
   * something was changed iff it was, else that the call was delayed iff it
   * was, else that a rule failed iff an error was counted.
   */
  lemma OutcomeExact(w: World, events: seq<Event>)
    requires |Run(START, w, events).records| == 1 && Run(START, w, events).records[0].tag.Labelled?
    ensures OutcomeIs(Run(START, w, events).records[0].tag.outcome,
                      Happens(START, w, events, FaultRuns),
                      Happens(START, w, events, ChangeRuns),
                      Happens(START, w, events, DelayRuns),
                      w.evaluation.errors != [] || Happens(START, w, events, ErrorRuns))
  {
    OutcomeFrom(START, w, events);
  }
}
