/**
 * One unary call end to end (src/grpc/grpc-listener.ts, `handleUnary`). The
 * local variables of the source are the fields of an `Attempt` that the methods
 * update step by step; `GrpcWorld` says what must come of it.
 */
module GrpcUnary {
  import opened Common
  import opened JsonModel
  import opened RuleTypes
  import opened Evaluate
  import opened Outcomes
  import opened GrpcWorld
  import Body
  import Frames

  datatype Attempt = Attempt(
    flags: Flags,
    logged: bool,
    ruleErrors: nat,
    requests: seq<Label>,
    entries: seq<LogRecord>,
    exhausted: bool,
    aborted: bool,
    mocked: Option<Reply>,
    forwarded: Option<Request>,
    relayed: Option<Reply>)

  const BEGIN := Attempt(NO_FLAGS, false, 0, [], [], false, false, None, None, None)

  // ---- what is promised of an attempt

  /** The books agree: one record, made when `logged` was set, and an entry iff something engaged. */
  predicate Tallied(a: Attempt, w: World) {
    if !a.logged then a.requests == [] && a.entries == []
    else Booked(a.requests, a.entries, a.flags, a.ruleErrors, w.evaluation)
  }

  /** Still to be logged. */
  predicate Open(a: Attempt) {
    !a.logged && a.requests == [] && a.entries == [] && !a.aborted && !a.exhausted && !a.flags.clientAborted
  }

  /** Only the record is new, and it says what the flags and errors say. */
  predicate LoggedFrom(a: Attempt, b: Attempt, w: World) {
    && b == a.(logged := true, flags := a.flags.(clientAborted := w.gone(AtLog)), requests := b.requests,
               entries := b.entries)
    && Tallied(b, w)
  }

  // ---- the steps

  method WriteLog(a: Attempt, w: World) returns (b: Attempt)
    requires !a.logged && a.requests == [] && a.entries == [] && (a.flags.clientAborted ==> w.gone(AtLog))
    ensures LoggedFrom(a, b, w)
  {
    b := a.(logged := true);
    if w.gone(AtLog) {
      b := b.(flags := b.flags.(clientAborted := true));
    }
    var shouldLog := ShouldLog(b.flags, b.ruleErrors, w.evaluation);
    var outcome := DecideOutcome(b.flags, b.ruleErrors > 0);
    b := b.(requests := b.requests + [if shouldLog then Labelled(outcome) else Passthrough]);
    if !shouldLog {
      return;
    }
    b := b.(entries := b.entries + [LogRecord(outcome, DecideReason(outcome, b.ruleErrors, w.evaluation))]);
  }

  lemma OneMoreFrame(w: World, messages: seq<Json>, i: nat)
    requires i < |messages|
    ensures w.FramesOf(messages[..i + 1]) == w.FramesOf(messages[..i]) + [w.FrameOf(messages[i])]
    ensures w.AllEncode(messages[..i + 1]) <==>
            w.AllEncode(messages[..i]) && w.encodeMessage(messages[i]).Some? && Frames.Encodable(w.FrameOf(messages[i]))
  {
    var front := messages[..i];
    assert messages[..i + 1] == front + [messages[i]];
  }

  /** Encodes and frames messages; one that cannot be encoded stops it. */
  method EncodeMessages(w: World, messages: seq<Json>) returns (body: Option<Bytes>, ok: bool)
    ensures ok <==> w.AllEncode(messages)
    ensures ok ==> body == w.Encoded(messages) && w.Carries(body, messages)
  {
    var bytes: Bytes := [];
    for i := 0 to |messages|
      invariant w.AllEncode(messages[..i])
      invariant forall f <- w.FramesOf(messages[..i]) :: Frames.Encodable(f)
      invariant bytes == Frames.EncodeAll(w.FramesOf(messages[..i]))
    {
      var encoded := w.encodeMessage(messages[i]);
      if encoded.None? {
        return None, false;
      }
      var frame := Frames.EncodeGrpcFrame(encoded.value, false);
      if frame.Err? {
        return None, false;
      }
      OneMoreFrame(w, messages, i);
      Frames.EncodeAllAppend(w.FramesOf(messages[..i]), w.FrameOf(messages[i]));
      bytes := bytes + frame.value[..];
    }
    assert messages[..|messages|] == messages;
    EncodedCarries(w, messages);
    return if messages == [] then None else Some(bytes), true;
  }

  /** Answers with the mock, or with an internal error if its messages cannot be encoded. */
  method AnswerMock(a: Attempt, w: World, response: Mock) returns (b: Attempt)
    requires Open(a) && a.mocked == None && !a.flags.mock
    ensures if w.AllEncode(MessagesOf(response)) then
              LoggedFrom(a.(flags := a.flags.(mock := true),
                            mocked := Some(Reply(DraftOf(response), w.Encoded(MessagesOf(response))))), b, w)
            else LoggedFrom(a.(ruleErrors := a.ruleErrors + 1), b, w)
  {
    b := a.(flags := a.flags.(mock := true));
    var body, ok := EncodeMessages(w, MessagesOf(response));
    if !ok {
      b := b.(flags := b.flags.(mock := false), ruleErrors := b.ruleErrors + 1);
    } else {
      b := b.(mocked := Some(Reply(DraftOf(response), body)));
    }
    b := WriteLog(b, w);
  }

  /** The fault kinds of this protocol; the other falls through to the relay. */
  method ExecuteFault(a: Attempt, w: World, fault: FaultSpec) returns (b: Attempt, answered: bool, threw: bool)
    requires Open(a)
    ensures answered <==> FaultApplies(fault)
    ensures if answered then LoggedFrom(a.(flags := a.flags.(fault := true)), b, w) else b == a
    ensures threw <==> fault.Timeout? && fault.durationMs.Some? && w.throws(AtFaultSleep)
  {
    b, answered, threw := a, false, false;
    if fault.HttpResponse? {
      return;
    }
    answered := true;
    b := b.(flags := b.flags.(fault := true));
    b := WriteLog(b, w);
    if fault.Timeout? && fault.durationMs.Some? {
      threw := w.throws(AtFaultSleep);
    }
  }

  /** What the request stage may do to an attempt. */
  predicate StageDone(a: Attempt, b: Attempt, w: World) {
    && b == BEGIN.(flags := b.flags, logged := b.logged, requests := b.requests, entries := b.entries,
                   ruleErrors := a.ruleErrors + (if MockDue(w) && !Mocks(w) then 1 else 0),
                   mocked := if Mocks(w) then Some(MockReply(w)) else None)
    && Tallied(b, w) && b.flags.clientAborted == (b.logged && w.gone(AtLog))
    && (b.logged <==> MockDue(w) || FaultsRequest(w))
    && Deed(b.flags) == RequestDeeds(w)
  }

  method RunRequestAction(a: Attempt, w: World)
    returns (b: Attempt, metadata: StringMap, answered: bool, threw: bool)
    requires ActsOnRequest(w)
    requires a == BEGIN.(flags := NO_FLAGS.(delayed := RequestDelayed(w)), ruleErrors := a.ruleErrors)
    ensures StageDone(a, b, w)
    ensures threw && !b.logged <==> RequestEscapes(w)
    ensures !threw && !answered <==> GoesOn(w)
    ensures metadata == if ChangesRequest(w) then w.rewrote.value else w.metadata
  {
    b, metadata, answered, threw := a, w.metadata, false, false;
    match RequestActionOf(w)
    case MockResponse(response) =>
      b := AnswerMock(b, w, response);
      answered := true;
    case RequestFault(fault) =>
      b, answered, threw := ExecuteFault(b, w, fault);
    case RequestRewrite(_) =>
      if w.throws(AtRewrite) {
        threw := true;
      } else if w.rewrote.Some? {
        metadata := w.rewrote.value;
        b := b.(flags := b.flags.(modified := true));
      }
  }

  /** The request stage. */
  method RequestSide(a: Attempt, w: World)
    returns (b: Attempt, metadata: StringMap, answered: bool, threw: bool)
    requires a == BEGIN.(ruleErrors := a.ruleErrors)
    ensures StageDone(a, b, w)
    ensures threw && !b.logged <==> RequestEscapes(w)
    ensures !threw && !answered <==> GoesOn(w)
    ensures metadata == if ChangesRequest(w) then w.rewrote.value else w.metadata
  {
    b, metadata, answered, threw := a, w.metadata, false, false;
    if w.RequestStageOf().None? {
      return;
    }
    var stage := w.RequestStageOf().value;
    if stage.delay.Some? {
      if w.throws(AtRequestDelay) {
        threw := true;
        return;
      }
      b := b.(flags := b.flags.(delayed := true));
    }
    if stage.action.Some? {
      b, metadata, answered, threw := RunRequestAction(b, w);
    }
  }

  /** The manipulator's patch; new messages count only if the reply's could be read. */
  method ApplyPatch(a: Attempt, w: World) returns (b: Attempt, draft: Draft, messages: Option<seq<Json>>)
    requires w.upstream.Replied?
    ensures !w.hasRunner || w.patch.Err? ==>
              b == a.(ruleErrors := a.ruleErrors + 1) && messages == None
              && draft == if w.hasRunner then w.upstream.draft.(metadata := w.patch.error.metadata,
                                                                trailers := w.patch.error.trailers)
                          else w.upstream.draft
    ensures w.hasRunner && w.patch.Ok? ==>
              && b == a.(flags := a.flags.(modified := a.flags.modified || w.patch.value.changed))
              && draft == w.patch.value.draft
              && messages == (if w.ReplyReadable() then w.patch.value.messages else None)
  {
    b, draft, messages := a, w.upstream.draft, None;
    if !w.hasRunner {
      b := b.(ruleErrors := b.ruleErrors + 1);
      return;
    }
    if w.patch.Err? {
      draft := draft.(metadata := w.patch.error.metadata, trailers := w.patch.error.trailers);
      b := b.(ruleErrors := b.ruleErrors + 1);
      return;
    }
    var patched := w.patch.value;
    draft := patched.draft;
    if patched.messages.Some? && w.ReplyReadable() {
      messages := patched.messages;
    }
    if patched.changed {
      b := b.(flags := b.flags.(modified := true));
    }
  }

  /** The plan for the response stage is carried out on `a`, and nothing else is. */
  predicate Staged(a: Attempt, b: Attempt, w: World, p: Plan) {
    && b == a.(flags := b.flags, logged := p.faults, requests := b.requests, entries := b.entries,
               ruleErrors := a.ruleErrors + (if p.matcherFails then 1 else 0) + (if p.scriptFails then 1 else 0))
    && Tallied(b, w) && b.flags.clientAborted == (b.logged && w.gone(AtLog))
    && Deed(b.flags) == WithPlan(a.flags, p, false)
    && !(p.faults && p.escapes)
  }

  /** The action of a response stage whose matcher holds and whose delay is over. */
  method RunResponseAction(a: Attempt, w: World, action: ResponseAction, ghost p: Plan)
    returns (b: Attempt, draft: Draft, messages: Option<seq<Json>>, answered: bool, threw: bool)
    requires Open(a) && w.upstream.Replied? && ActionFits(p, w, action) && !p.matcherFails && !p.delays
    ensures Staged(a, b, w, p)
    ensures threw && !b.logged <==> p.escapes
    ensures !threw && !answered <==> !p.escapes && !p.faults
    ensures draft == p.draft && messages == p.messages
  {
    b, draft, messages, answered, threw := a, w.upstream.draft, None, false, false;
    match action
    case ResponseFault(fault) =>
      b, answered, threw := ExecuteFault(b, w, fault);
    case ResponseReplace(_, _, _) =>
      if w.throws(AtReplace) {
        threw := true;
      } else if w.replaced.Some? {
        draft := draft.(metadata := w.replaced.value);
        b := b.(flags := b.flags.(modified := true));
      }
    case ScriptManipulator(_, _) =>
      b, draft, messages := ApplyPatch(b, w);
  }

  /** The response stage. */
  method RunResponseStage(a: Attempt, w: World, stage: ResponseStage, ghost p: Plan)
    returns (b: Attempt, draft: Draft, messages: Option<seq<Json>>, answered: bool, threw: bool)
    requires Open(a) && w.upstream.Replied? && StageFits(p, w, stage)
    ensures Staged(a, b, w, p)
    ensures threw && !b.logged <==> p.escapes
    ensures !threw && !answered <==> !p.escapes && !p.faults
    ensures draft == p.draft && messages == p.messages
  {
    b, draft, messages, answered, threw := a, w.upstream.draft, None, false, false;
    if stage.match_.Some? && w.responseMatchThrew {
      b := b.(ruleErrors := b.ruleErrors + 1);
      return;
    }
    if stage.match_.Some? && !w.responseMatched {
      return;
    }
    if stage.delay.Some? {
      if w.throws(AtResponseDelay) {
        threw := true;
        return;
      }
      b := b.(flags := b.flags.(delayed := true));
    }
    if stage.action.Some? {
      b, draft, messages, answered, threw :=
        RunResponseAction(b, w, stage.action.value, p.(matcherFails := false, delays := false));
    }
  }

  /** Sends the reply: the upstream's bytes unless patched messages take their place. */
  method Relay(a: Attempt, w: World, draft: Draft, messages: Option<seq<Json>>) returns (b: Attempt)
    requires Open(a) && w.upstream.Replied?
    ensures var spoilt := messages.Some? && !w.AllEncode(messages.value);
            LoggedFrom(a.(ruleErrors := a.ruleErrors + (if spoilt then 1 else 0),
                          flags := a.flags.(modified := a.flags.modified && !spoilt),
                          relayed := Some(ReplyFrom(w, draft, messages))), b, w)
  {
    b := a;
    var sent := draft;
    var outBody := if w.ReplyBytes() == [] then None else Some(w.ReplyBytes());
    if messages.Some? {
      var body, ok := EncodeMessages(w, messages.value);
      if ok {
        outBody := body;
      } else {
        b := b.(ruleErrors := b.ruleErrors + 1, flags := b.flags.(modified := false));
        sent := sent.(status := w.upstream.draft.status, message := w.upstream.draft.message);
      }
    }
    b := b.(relayed := Some(Reply(sent, outBody)));
    b := WriteLog(b, w);
  }

  /** `e` is how it ends for `a`, up to the record. */
  predicate Ended(a: Attempt, b: Attempt, w: World, e: Ending) {
    && b == a.(flags := b.flags, logged := !e.escapes, ruleErrors := a.ruleErrors + e.errors, requests := b.requests,
               entries := b.entries, relayed := e.relayed)
    && Tallied(b, w) && b.flags.clientAborted == (b.logged && w.gone(AtLog))
    && Deed(b.flags) == e.deeds
  }

  lemma StagedEnds(a: Attempt, b: Attempt, w: World, p: Plan)
    requires w.upstream.Replied? && Staged(a, b, w, p) && a.relayed == None && (p.escapes || p.faults)
    requires p.messages == None
    ensures Ended(a, b, w, ByPlan(w, a.flags, p))
  {
  }

  lemma RelayedEnds(a: Attempt, c: Attempt, b: Attempt, w: World, p: Plan)
    requires w.upstream.Replied? && Staged(a, c, w, p) && !p.escapes && !p.faults
    requires var spoilt := p.messages.Some? && !w.AllEncode(p.messages.value);
             LoggedFrom(c.(ruleErrors := c.ruleErrors + (if spoilt then 1 else 0),
                           flags := c.flags.(modified := c.flags.modified && !spoilt),
                           relayed := Some(ReplyFrom(w, p.draft, p.messages))), b, w)
    ensures Ended(a, b, w, ByPlan(w, a.flags, p))
  {
  }

  /** The rule's response stage, and the reply if nothing came in between. */
  method Respond(a: Attempt, w: World, ghost p: Plan) returns (b: Attempt, threw: bool)
    requires Open(a) && a.relayed == None && w.upstream.Replied? && PlanFor(p, w)
    requires p.escapes || p.faults ==> p.messages == None
    ensures Ended(a, b, w, ByPlan(w, a.flags, p))
    ensures threw && !b.logged <==> p.escapes
  {
    b, threw := a, false;
    var draft, messages, answered := w.upstream.draft, None, false;
    if w.ResponseStageOf().Some? {
      b, draft, messages, answered, threw := RunResponseStage(b, w, w.ResponseStageOf().value, p);
    }
    if answered || threw {
      StagedEnds(a, b, w, p);
      return;
    }
    ghost var staged := b;
    b := Relay(b, w, draft, messages);
    RelayedEnds(a, staged, b, w, p);
  }

  /** From the upstream's answer to the end. */
  method ResponseSide(a: Attempt, w: World) returns (b: Attempt, threw: bool)
    requires Open(a) && a.relayed == None && Deed(a.flags) == a.flags && Forwards(w) && w.Plausible()
    ensures Ended(a, b, w, EndingFrom(w, a.flags))
    ensures threw && !b.logged <==> EndingFrom(w, a.flags).escapes
  {
    b, threw := a, false;
    if w.UpstreamBroke() {
      b := b.(flags := b.flags.(upstreamError := true));
      b := WriteLog(b, w);
      return;
    }
    if w.throws(AtTrailers) {
      return b, true;
    }
    PlanFits(w);
    b, threw := Respond(b, w, PlanOf(w));
  }

  /** Exactly what should be sent was sent, to either side. */
  predicate Sent(a: Attempt, w: World) {
    && a.mocked == (if Mocks(w) then Some(MockReply(w)) else None)
    && a.forwarded == (if Forwards(w) then Some(ForwardedRequest(w)) else None)
    && a.relayed == (if Relays(w) then Some(RelayedReply(w)) else None)
  }

  lemma UnforwardedEnds(a: Attempt, b: Attempt, w: World)
    requires a == BEGIN.(ruleErrors := a.ruleErrors) && !Forwards(w) && StageDone(a, b, w)
    ensures Ended(a.(mocked := b.mocked, forwarded := b.forwarded), b, w, EndingOf(w)) && Sent(b, w)
  {
    EndingBefore(w);
    assert !Relays(w);
  }

  lemma ForwardedEnds(a: Attempt, c: Attempt, b: Attempt, w: World)
    requires Forwards(w) && a == BEGIN.(ruleErrors := a.ruleErrors)
    requires c == a.(flags := RequestDeeds(w), forwarded := Some(ForwardedRequest(w)))
    requires Ended(c, b, w, EndingFrom(w, c.flags))
    ensures Ended(a.(mocked := b.mocked, forwarded := b.forwarded), b, w, EndingOf(w)) && Sent(b, w)
    ensures EndingFrom(w, c.flags).escapes == EndingOf(w).escapes
  {
    EndingForwarded(w);
  }

  /** `handleUnaryBody`. */
  method Serve(a: Attempt, w: World, rawBody: Bytes) returns (b: Attempt, threw: bool)
    requires a == BEGIN.(ruleErrors := a.ruleErrors) && w.Plausible() && rawBody == w.ClientBytes()
    ensures Ended(a.(mocked := b.mocked, forwarded := b.forwarded), b, w, EndingOf(w)) && Sent(b, w)
    ensures threw && !b.logged <==> EndingOf(w).escapes
  {
    var metadata, answered;
    b, metadata, answered, threw := RequestSide(a, w);
    if answered || threw {
      UnforwardedEnds(a, b, w);
      return;
    }
    if w.throws(AtUpstreamUrl) {
      UnforwardedEnds(a, b, w);
      return b, true;
    }
    b := b.(forwarded := Some(Request(metadata, rawBody)));
    ghost var sent := b;
    b, threw := ResponseSide(b, w);
    ForwardedEnds(a, sent, b, w);
  }

  /** An exception is a rule error unless the client is gone. */
  function Caught(a: Attempt, w: World): Attempt {
    a.(ruleErrors := a.ruleErrors + (if w.gone(AtCatch) then 0 else 1))
  }

  /** The catch clause around `handleUnaryBody`: logs exactly the attempts that are not logged yet. */
  method Guard(a: Attempt, w: World) returns (b: Attempt, rethrown: bool)
    requires (a.logged || Open(a)) && w.Plausible()
    ensures rethrown <==> a.logged
    ensures if a.logged then b == a else LoggedFrom(Caught(a, w), b, w)
  {
    b, rethrown := a, false;
    if b.logged {
      rethrown := true;
      return;
    }
    if w.gone(AtCatch) {
      b := b.(flags := b.flags.(clientAborted := true));
    } else {
      b := b.(ruleErrors := b.ruleErrors + 1);
    }
    b := WriteLog(b, w);
  }

  /** `logAbortedUnaryRequest`. */
  method LogAborted(w: World) returns (a: Attempt)
    ensures a == BEGIN.(aborted := true, logged := true, requests := a.requests, entries := a.entries)
    ensures AbortRecorded(a, w)
  {
    a := BEGIN.(aborted := true, logged := true, requests := [AbortLabel(w.abortEvaluation)]);
    if a.requests[0] != Passthrough {
      a := a.(entries := [LogRecord(ClientAborted, ClientAbortedReason)]);
    }
  }

  /** One record, and an entry iff the evaluation without the body engaged anything. */
  predicate AbortRecorded(a: Attempt, w: World) {
    var e := w.abortEvaluation;
    if e.interceptRule.Some? || e.captureRules != [] || e.errors != [] then
      a.requests == [Labelled(ClientAborted)] && a.entries == [LogRecord(ClientAborted, ClientAbortedReason)]
    else
      a.requests == [Passthrough] && a.entries == []
  }

  /** One record, and an entry iff something engaged; it says what was done and nothing else. */
  predicate Recorded(a: Attempt, w: World) {
    && a.requests == [if Engaged(w) then Labelled(OutcomeOf(w)) else Passthrough]
    && |a.entries| == (if Engaged(w) then 1 else 0)
    && (Engaged(w) ==> a.entries[0].outcome == OutcomeOf(w)
                       && a.entries[0].reason == DecideReason(OutcomeOf(w), a.ruleErrors, w.evaluation))
  }

  predicate Closed(a: Attempt, w: World, e: Ending) {
    && a.logged && Tallied(a, w) && a.flags == e.deeds.(clientAborted := w.gone(AtLog))
    && a.ruleErrors == |w.evaluation.errors| + e.errors + (if e.escapes && !w.gone(AtCatch) then 1 else 0)
  }

  /** What the books say once the catch clause is through, given how the guarded part ended. */
  lemma BooksClosed(a: Attempt, b: Attempt, w: World, e: Ending)
    requires w.Plausible() && Deed(a.flags) == e.deeds && a.ruleErrors == |w.evaluation.errors| + e.errors
    requires if a.logged then !e.escapes && b == a && a.flags.clientAborted == w.gone(AtLog) && Tallied(a, w)
             else e.escapes && LoggedFrom(Caught(a, w), b, w)
    ensures Closed(b, w, e)
  {
  }

  lemma ClosedRecords(a: Attempt, w: World)
    requires Closed(a, w, EndingOf(w))
    ensures Recorded(a, w)
  {
    ErrorsCounted(w, a.ruleErrors);
    TalliedRecords(a, w);
  }

  lemma TalliedRecords(a: Attempt, w: World)
    requires a.logged && Tallied(a, w) && a.flags == Deeds(w) && (a.ruleErrors > 0 <==> HasErrors(w))
    ensures Recorded(a, w)
  {
    assert ShouldLog(a.flags, a.ruleErrors, w.evaluation) <==> Engaged(w);
    assert DecideOutcome(a.flags, a.ruleErrors > 0) == OutcomeOf(w);
  }

  /** What follows once the body is there in whole frames. */
  method HandleWhole(w: World, rawBody: Bytes) returns (a: Attempt, rethrown: bool)
    requires w.Plausible() && rawBody == w.ClientBytes()
    ensures Sent(a, w) && Recorded(a, w) && !a.exhausted && !a.aborted
  {
    rethrown := false;
    var threw;
    a, threw := Serve(BEGIN.(ruleErrors := |w.evaluation.errors|), w, rawBody);
    ghost var served := a;
    if threw {
      a, rethrown := Guard(a, w);
    }
    BooksClosed(served, a, w, EndingOf(w));
    ClosedRecords(a, w);
  }

  /** The whole call; `rethrown` is an exception that leaves `handleUnary`. */
  method HandleUnary(w: World) returns (a: Attempt, rethrown: bool)
    requires w.Plausible()
    ensures a.exhausted <==> w.RequestRead().Overflow?
    ensures a.exhausted ==> a == BEGIN.(exhausted := true)
    ensures a.aborted <==> w.Unusable()
    ensures a.aborted ==> AbortRecorded(a, w) && a.mocked == None && a.forwarded == None && a.relayed == None
    ensures !a.exhausted && !a.aborted ==> Sent(a, w) && Recorded(a, w) && Frames.Decode(w.ClientBytes()).Ok?
  {
    a, rethrown := BEGIN, false;
    Body.ReadExplained(w.read, w.requestLimit, true);
    match w.RequestRead()
    case Rejected => a := LogAborted(w);
    case Overflow(_) => a := a.(exhausted := true);
    case Complete(rawBody) =>
      var frames := Frames.DecodeGrpcFrames(rawBody);
      if frames.Err? {
        a := LogAborted(w);
      } else {
        a, rethrown := HandleWhole(w, rawBody);
      }
  }
}
