/** What a reader of the log may conclude from the record of a streaming call. */
module GrpcLabels {
  import opened Common
  import opened RuleTypes
  import Evaluate
  import opened Outcomes
  import opened GrpcStreaming
  import opened GrpcBlame
  import opened GrpcDeeds

  /** A rule, a capture or a failed matcher engaged with the call. */
  predicate Engaged(evaluation: Evaluate.RequestEvaluation) {
    evaluation.interceptRule.Some? || evaluation.captureRules != [] || evaluation.errors != []
  }

  /** The outcome names something that did happen; only a call nothing engaged with goes unlabelled. */
  ghost predicate Tells(r: Record, w: World) {
    match r.tag
    case Passthrough => !Engaged(w.evaluation) && !r.unreachable && (r.selfDestroyed ==> r.site == AtTailEnd)
    case Labelled(outcome) =>
      match outcome
      case ClientAborted => r.destroyedBy.Some? && !r.selfDestroyed
      case UpstreamFailed => r.selfDestroyed || r.unreachable
      case Mocked => false
      case Faulted => RuleFaults(w.evaluation)
      case Modified => w.evaluation.interceptRule.Some? && (w.rewrote || w.replaced || w.scriptChanges)
      case Delayed => RuleDelays(w.evaluation)
      case RuleFailed => true
      case CapturedOnly => w.evaluation.errors == [] && (w.evaluation.interceptRule.Some? || w.evaluation.captureRules != [])
  }

  /** Each flag was raised by the thing it is named after, and rule errors are not forgotten. */
  ghost predicate Grounded(s: State, w: World) {
    && !s.flags.mock
    && (s.flags.fault ==> RuleFaults(w.evaluation))
    && (s.flags.delayed ==> RuleDelays(w.evaluation))
    && (s.flags.modified ==> w.evaluation.interceptRule.Some? && (w.rewrote || w.replaced || w.scriptChanges))
    && s.ruleErrors >= |w.evaluation.errors|
  }

  /** The places only an intercept rule leads to. */
  predicate Placed(s: State, w: World) {
    && (s.phase == RequestDelay || s.phase == HeaderDelay ==> RuleDelays(w.evaluation))
    && (s.phase == HeaderScript || s.tail == TailScript ==> w.evaluation.interceptRule.Some?)
  }

  ghost predicate Reliable(s: State, w: World) {
    && (if s.phase == Evaluating then s.flags == NO_FLAGS else Grounded(s, w))
    && Placed(s, w)
    && forall r <- s.records :: Tells(r, w)
  }

  /** The record that is being made names the truth, given that the flags do. */
  lemma WriteLogTells(s: State, w: World, site: Site)
    requires Unlogged(s) && Grounded(s, w) && Placed(s, w) && s.phase != Evaluating
    requires s.flags.clientAborted ==> s.destroyedBy.Some? && !s.selfDestroyed
    requires s.flags.upstreamError ==> s.unreachable || (s.selfDestroyed && site != AtTailEnd)
    requires s.selfDestroyed && site != AtTailEnd ==> s.flags.upstreamError
    requires s.unreachable ==> s.flags.upstreamError && !s.selfDestroyed
    ensures Reliable(WriteLog(s, w, site), w)
  {
    var r := RecordOf(s, w, site);
    assert r.tag == Labelled(CapturedOnly) ==> s.ruleErrors == 0;
    assert Tells(r, w);
  }

  // ---- every event keeps it

  lemma OuterCatchTells(s: State, w: World)
    requires InMain(s) && Grounded(s, w)
    ensures Reliable(OuterCatch(s, w), w)
  {
    if s.destroyedBy.Some? {
      GoneCaughtTells(s, w);
    } else {
      OpenCaughtTells(s, w);
    }
  }

  lemma GoneCaughtTells(s: State, w: World)
    requires InMain(s) && Grounded(s, w) && s.destroyedBy.Some?
    ensures Reliable(OuterCatch(s, w), w)
  {
    WriteLogTells(s.(phase := Finished, flags := s.flags.(clientAborted := true)), w, InOuterCatch);
  }

  lemma OpenCaughtTells(s: State, w: World)
    requires InMain(s) && Grounded(s, w) && s.destroyedBy.None?
    ensures Reliable(OuterCatch(s, w), w)
  {
    WriteLogTells(RespondGrpc(s.(phase := Finished, ruleErrors := s.ruleErrors + 1), w), w, InOuterCatch);
  }

  lemma FaultTells(s: State, w: World, fault: FaultSpec)
    requires InMain(s) && Grounded(s, w) && RuleFaults(w.evaluation)
    ensures Reliable(FaultStep(s, w, fault), w)
  {
    var faulted := s.(flags := s.flags.(fault := true));
    match fault
    case GrpcStatus(_, _, _) => StatusFaultTells(s, w);
    case Connection(_) => WriteLogTells(faulted.(phase := Finished), w, InBranch);
    case Timeout(durationMs) =>
      WriteLogTells(faulted.(phase := if durationMs.Some? then FaultSleep else Finished), w, InBranch);
    case HttpResponse(_, _, _) => OuterCatchTells(s, w);
  }

  lemma StatusFaultTells(s: State, w: World)
    requires InMain(s) && Grounded(s, w) && RuleFaults(w.evaluation)
    ensures Reliable(StatusFault(s, w), w)
  {
    WriteLogTells(RespondGrpc(s.(phase := Finished, flags := s.flags.(fault := true)), w), w, InBranch);
  }

  lemma RequestActionTells(s: State, w: World)
    requires InMain(s) && Grounded(s, w)
    ensures Reliable(RequestActionStep(s, w), w)
  {
    if RequestFaultOf(w).Some? {
      var fault := RequestFaultOf(w).value;
      assert HasRequestAction(w.evaluation, RequestFault(fault));
      FaultTells(s, w, fault);
    } else {
      PassOnTells(s, w);
    }
  }

  lemma ForwardTells(s: State, w: World)
    requires InMain(s) && Grounded(s, w)
    ensures Reliable(Forward(s, w), w)
  {
    OuterCatchTells(s, w);
  }

  lemma PreparedGrounded(s: State, w: World)
    requires InMain(s) && Grounded(s, w)
    ensures InMain(Prepared(s, w)) && Grounded(Prepared(s, w), w)
  {
  }

  lemma PassOnTells(s: State, w: World)
    requires InMain(s) && Grounded(s, w)
    ensures Reliable(PassOnStep(s, w), w)
  {
    OuterCatchTells(s, w);
    PreparedGrounded(s, w);
    ForwardTells(Prepared(s, w), w);
  }

  lemma StartRelayTells(s: State, w: World)
    requires InMain(s) && Grounded(s, w)
    ensures Reliable(StartRelay(s, w), w)
  {
    OuterCatchTells(s, w);
  }

  lemma ReplaceTells(s: State, w: World)
    requires InMain(s) && Grounded(s, w) && w.evaluation.interceptRule.Some?
    ensures Reliable(if w.throws(AtReplace) then OuterCatch(s, w)
                     else StartRelay(if w.replaced then s.(flags := s.flags.(modified := true)) else s, w), w)
  {
    if w.throws(AtReplace) {
      OuterCatchTells(s, w);
    } else {
      StartRelayTells(if w.replaced then s.(flags := s.flags.(modified := true)) else s, w);
    }
  }

  lemma HeaderActionTells(s: State, w: World)
    requires InMain(s) && Grounded(s, w)
    ensures Reliable(HeaderAction(s, w), w)
  {
    match w.ResponseActionOf()
    case Some(ResponseReplace(_, _, _)) =>
      ReplaceTells(s, w);
    case Some(ScriptManipulator(_, _)) => StartRelayTells(s, w);
    case Some(ResponseFault(fault)) =>
      assert HasResponseAction(w.evaluation, ResponseFault(fault));
      StatusFaultTells(s, w);
      StartRelayTells(s, w);
    case None => StartRelayTells(s, w);
  }

  lemma ScriptTells(s: State, w: World, failed: bool)
    requires Grounded(s, w) && w.evaluation.interceptRule.Some?
    ensures Grounded(ScriptDone(s, w, failed), w)
  {
  }

  lemma UpstreamFailedTells(s: State, w: World)
    requires InMain(s) && Grounded(s, w)
    ensures Reliable(UpstreamFailedStep(s, w), w)
  {
    var t := s.(phase := Finished, flags := s.flags.(upstreamError := true), unreachable := true);
    WriteLogTells(RespondGrpc(t, w), w, InBranch);
  }

  lemma TailCatchTells(s: State, w: World)
    requires Inv(s) && Reliable(s, w) && s.phase == Relaying && s.tail != Done
    ensures Reliable(TailCatch(s, w), w)
  {
    if !s.logged {
      var t := s.(tail := Done);
      WriteLogTells(if t.destroyedBy.None? then t.(ruleErrors := t.ruleErrors + 1)
                    else if t.selfDestroyed then t.(flags := t.flags.(upstreamError := true))
                    else t.(flags := t.flags.(clientAborted := true)), w, InTailCatch);
    }
  }

  lemma FinishTailTells(s: State, w: World)
    requires Inv(s) && Reliable(s, w) && s.phase == Relaying && s.tail != Done
    ensures Reliable(FinishTail(s, w), w)
  {
    TailCatchTells(s, w);
    if !s.logged {
      WriteLogTells(s.(tail := Done), w, AtTailEnd);
    }
  }

  lemma TailActionTells(s: State, w: World)
    requires Inv(s) && Reliable(s, w) && s.phase == Relaying && s.tail == TailMatch
    ensures Reliable(TailAction(s, w), w)
  {
    match w.ResponseActionOf()
    case Some(ResponseFault(fault)) =>
      assert HasResponseAction(w.evaluation, ResponseFault(fault));
      FinishTailTells(s, w);
      FinishTailTells(s.(flags := s.flags.(fault := true)), w);
    case Some(ScriptManipulator(_, _)) => FinishTailTells(s, w);
    case _ => FinishTailTells(s, w);
  }

  lemma AnsweredKeeps(s: State, w: World)
    requires Inv(s) && Reliable(s, w) && s.phase == Relaying
    ensures Inv(MatchAnswered(s, w)) && Reliable(MatchAnswered(s, w), w)
  {
  }

  lemma TailMatchedTells(s: State, w: World)
    requires Inv(s) && Reliable(s, w) && s.phase == Relaying && s.tail == TailMatch
    ensures Reliable(TailMatched(s, w), w)
  {
    var t := MatchAnswered(s, w);
    AnsweredKeeps(s, w);
    if w.matchError || !w.matched {
      FinishTailTells(t, w);
    } else {
      TailActionTells(t, w);
    }
  }

  lemma CloseTells(s: State, w: World)
    requires Inv(s) && Reliable(s, w) && s.destroyedBy.Some? && !s.closed
    ensures Reliable(OnClose(s, w), w)
  {
    var t := s.(closed := true);
    if t.phase == Relaying && !t.logged {
      WriteLogTells(if t.selfDestroyed then t.(flags := t.flags.(upstreamError := true))
                    else t.(flags := t.flags.(clientAborted := true)), w, InCloseHandler);
    }
  }

  lemma RepliedTells(s: State, w: World)
    requires InMain(s) && Grounded(s, w)
    ensures Reliable(Replied(s, w), w)
  {
    StartRelayTells(s, w);
    OuterCatchTells(s, w);
  }

  lemma MatchGrounded(s: State, w: World)
    requires InMain(s) && Grounded(s, w)
    ensures InMain(MatchAnswered(s, w)) && Grounded(MatchAnswered(s, w), w)
  {
  }

  lemma HeaderMatchedTells(s: State, w: World)
    requires InMain(s) && Grounded(s, w)
    ensures Reliable(HeaderMatched(s, w), w)
  {
    MatchGrounded(s, w);
    AfterHeaderMatchTells(MatchAnswered(s, w), w);
  }

  lemma AfterHeaderMatchTells(s: State, w: World)
    requires InMain(s) && Grounded(s, w)
    ensures Reliable(AfterHeaderMatch(s, w), w)
  {
    if w.matchError || !w.matched {
      StartRelayTells(s, w);
    } else if w.ResponseOf().Some? && w.ResponseOf().value.delay.Some? {
      DelayTells(s, w);
    } else {
      HeaderActionTells(s, w);
    }
  }

  lemma DelayTells(s: State, w: World)
    requires InMain(s) && Grounded(s, w) && w.ResponseOf().Some? && w.ResponseOf().value.delay.Some?
    ensures Reliable(s.(phase := HeaderDelay), w)
  {
  }

  lemma ResumeTells(s: State, w: World)
    requires Inv(s) && Reliable(s, w)
    ensures Reliable(OnResume(s, w), w)
  {
    match s.phase
    case Evaluating => RequestActionTells(s.(ruleErrors := |w.evaluation.errors|), w);
    case RequestDelay => RequestActionTells(Slept(s), w);
    case FaultSleep =>
    case AwaitUpstream => RepliedTells(s, w);
    case HeaderMatch => HeaderMatchedTells(s, w);
    case HeaderDelay => HeaderActionTells(Slept(s), w);
    case HeaderScript =>
      ScriptTells(s, w, false);
      StartRelayTells(ScriptDone(s, w, false), w);
    case Finished =>
    case Relaying =>
      if s.tail == TailMatch {
        TailMatchedTells(s, w);
      } else if s.tail == TailScript {
        ScriptTells(s, w, false);
        FinishTailTells(ScriptDone(s, w, false), w);
      }
  }

  lemma RejectTells(s: State, w: World)
    requires Inv(s) && Reliable(s, w)
    ensures Reliable(OnReject(s, w), w)
  {
    match s.phase
    case AwaitUpstream => UpstreamFailedTells(s, w);
    case HeaderScript =>
      ScriptTells(s, w, true);
      StartRelayTells(ScriptDone(s, w, true), w);
    case Relaying =>
      if s.tail == TailMatch {
        TailCatchTells(s, w);
      } else if s.tail == TailScript {
        ScriptTells(s, w, true);
        FinishTailTells(ScriptDone(s, w, true), w);
      }
    case Evaluating =>
    case Finished =>
    case FaultSleep =>
    case _ => OuterCatchTells(s, w);
  }

  lemma ReactTells(s: State, w: World, ev: Event)
    requires Inv(s) && Reliable(s, w)
    ensures Reliable(React(s, w, ev), w)
  {
    match ev
    case Resume => ResumeTells(s, w);
    case Reject => RejectTells(s, w);
    case StreamClosed => if s.destroyedBy.Some? && !s.closed { CloseTells(s, w); }
    case ReplyEnd =>
      if CanEnd(s) {
        TailCatchTells(s, w);
        FinishTailTells(s, w);
      }
    case _ =>
  }

  lemma {:induction false} RunTells(s: State, w: World, events: seq<Event>)
    requires Inv(s) && Reliable(s, w)
    ensures forall r <- Run(s, w, events).records :: Tells(r, w)
    decreases |events|
  {
    if events != [] {
      StepKeeps(s, w, events[0]);
      ReactTells(s, w, events[0]);
      RunTells(React(s, w, events[0]), w, events[1..]);
    }
  }

  /** Under every schedule the record tells what happened to the call, and its outcome is what ran. */
  lemma LabelsAreTruthful(w: World, events: seq<Event>)
    ensures forall r <- Run(START, w, events).records ::
              Tells(r, w)
              && (r.tag.Labelled? ==>
                    OutcomeIs(r.tag.outcome,
                              Happens(START, w, events, FaultRuns),
                              Happens(START, w, events, ChangeRuns),
                              Happens(START, w, events, DelayRuns),
                              w.evaluation.errors != [] || Happens(START, w, events, ErrorRuns)))
  {
    RunTells(START, w, events);
    LoggedOnce(w, events);
    var records := Run(START, w, events).records;
    if records != [] && records[0].tag.Labelled? {
      OutcomeExact(w, events);
    }
  }
}
