/**
 * One HTTP exchange end to end (src/proxy/pipeline.ts). The local variables of
 * the source are the fields of an `Attempt` that the methods update step by
 * step; `HttpWorld` says what must come of it.
 */
module Pipeline {
  import opened Common
  import opened RuleTypes
  import opened Evaluate
  import opened Body
  import opened Outcomes
  import opened HttpWorld

  /**
   * `requests` are the calls of `recordRequest`, `entries` those of
   * `trafficLog.add`; `mocked` says that a mock was sent.
   */
  datatype Attempt = Attempt(
    flags: Flags,
    logged: bool,
    ruleErrors: nat,
    requests: seq<Label>,
    entries: seq<LogRecord>,
    answered413: bool,
    grpcFault: bool,
    aborted: bool,
    mocked: bool,
    forwarded: Option<Bytes>,
    delivered: Option<Bytes>)

  const BEGIN := Attempt(NO_FLAGS, false, 0, [], [], false, false, false, false, None, None)

  // ---- what is promised of an attempt

  /** The books agree: one record, made when `logged` was set, and an entry iff something engaged. */
  predicate Tallied(a: Attempt, w: World) {
    if !a.logged then a.requests == [] && a.entries == []
    else Booked(a.requests, a.entries, a.flags, a.ruleErrors, w.evaluation)
  }

  /** Still to be logged. */
  predicate Open(a: Attempt) {
    !a.logged && a.requests == [] && a.entries == [] && !a.aborted && !a.answered413 && !a.grpcFault
    && !a.flags.clientAborted
  }

  /** `executeFault` has no record for a gRPC status fault: validation keeps it away from here. */
  predicate FaultsAllowed(rule: Rule) {
    && (rule.request.Some? && rule.request.value.action.Some? && rule.request.value.action.value.RequestFault? ==>
          !rule.request.value.action.value.fault.GrpcStatus?)
    && (rule.response.Some? && rule.response.value.action.Some? && rule.response.value.action.value.ResponseFault? ==>
          !rule.response.value.action.value.fault.GrpcStatus?)
  }

  /** Only the record is new, and it says what the flags and errors say. */
  predicate LoggedFrom(a: Attempt, b: Attempt, w: World) {
    && b == a.(logged := true, flags := a.flags.(clientAborted := w.gone(AtLog)), requests := b.requests,
               entries := b.entries)
    && Tallied(b, w)
  }

  // ---- the steps

  method WriteLog(a: Attempt, w: World) returns (b: Attempt)
    requires !a.logged && a.requests == [] && a.entries == [] && (a.flags.clientAborted ==> w.gone(AtLog))
    ensures LoggedFrom(a, b, w)
  {
    b := a.(logged := true);
    if w.gone(AtLog) {
      b := b.(flags := b.flags.(clientAborted := true));
    }
    var shouldLog := ShouldLog(b.flags, b.ruleErrors, w.evaluation);
    var outcome := DecideOutcome(b.flags, b.ruleErrors > 0);
    b := b.(requests := b.requests + [if shouldLog then Labelled(outcome) else Passthrough]);
    if !shouldLog {
      return;
    }
    b := b.(entries := b.entries + [LogRecord(outcome, DecideReason(outcome, b.ruleErrors, w.evaluation))]);
  }

  /**
   * `threw` is an exception on its way to the catch clause: with nothing logged
   * if the fault itself threw, after the record if the sleep did.
   */
  method ExecuteFault(a: Attempt, w: World, fault: FaultSpec) returns (b: Attempt, threw: bool)
    requires Open(a)
    ensures var faulted := a.(flags := a.flags.(fault := true));
            if w.throws(AtFault) then b == faulted
            else if fault.GrpcStatus? then b == faulted.(grpcFault := true)
            else LoggedFrom(faulted, b, w)
    ensures threw <==> w.throws(AtFault) || (fault.Timeout? && fault.durationMs.Some? && w.throws(AtFaultSleep))
  {
    b := a.(flags := a.flags.(fault := true));
    threw := false;
    if w.throws(AtFault) {
      return b, true;
    }
    match fault
    case HttpResponse(_, _, _) =>
      b := WriteLog(b, w);
    case Connection(_) =>
      b := WriteLog(b, w);
    case Timeout(durationMs) =>
      b := WriteLog(b, w);
      if durationMs.Some? {
        threw := w.throws(AtFaultSleep);
      }
    case GrpcStatus(_, _, _) =>
      b := b.(grpcFault := true);
  }

  /** The body half of `applyRewriteOperations`. */
  method RewriteBody(operations: seq<RewriteOperation>, body: Option<Bytes>, w: World)
    returns (after: Option<Bytes>, bodyModified: bool)
    ensures bodyModified <==> body.Some? && Rewrites(operations, body.value, w)
    ensures after == if body.Some? then Some(Rewritten(operations, body.value, w)) else None
    ensures !bodyModified ==> after == body
  {
    after, bodyModified := body, false;
    for i := 0 to |operations|
      invariant after.Some? <==> body.Some?
      invariant body.Some? ==> Rewritten(operations[i..], after.value, w) == Rewritten(operations, body.value, w)
      invariant body.Some? ==>
                  (bodyModified || Rewrites(operations[i..], after.value, w) <==> Rewrites(operations, body.value, w))
      invariant !bodyModified ==> after == body
      invariant body.None? ==> !bodyModified
    {
      assert operations[i..][1..] == operations[i + 1..];
      if operations[i].ReplaceBody? && after.Some? {
        var replaced := w.replaceBody(after.value, operations[i].from, operations[i].to);
        if replaced != after.value {
          after := Some(replaced);
          bodyModified := true;
        }
      }
    }
  }

  /** The action of the request stage. `answered` means that the exchange is over. */
  method RunRequestAction(a: Attempt, w: World, requestBody: Option<Bytes>)
    returns (b: Attempt, forwardBody: Option<Bytes>, answered: bool, threw: bool)
    requires Open(a) && ActsOnRequest(w) && requestBody == RequestBody(w)
    requires a == BEGIN.(flags := NO_FLAGS.(delayed := RequestDelayed(w)), ruleErrors := a.ruleErrors)
    ensures StageDone(a, b, w) && Deed(b.flags) == RequestDeeds(w)
    ensures threw && !b.logged <==> RequestEscapes(w)
    ensures !threw && !answered <==> GoesOn(w)
    ensures GoesOn(w) ==> Open(b) && Forwardable(w, requestBody, forwardBody)
  {
    b, forwardBody, answered, threw := a, requestBody, false, false;
    match RequestActionOf(w)
    case MockResponse(_) =>
      b := b.(flags := b.flags.(mock := true));
      if w.throws(AtMock) {
        threw := true;
        return;
      }
      b := b.(mocked := true);
      b := WriteLog(b, w);
      answered := true;
    case RequestFault(fault) =>
      b, threw := ExecuteFault(b, w, fault);
      answered := true;
    case RequestRewrite(operations) =>
      if w.throws(AtRewrite) {
        threw := true;
        return;
      }
      var rewritten, bodyModified := RewriteBody(operations, forwardBody, w);
      forwardBody := if rewritten.Some? then rewritten else forwardBody;
      if bodyModified || w.otherRewrites {
        b := b.(flags := b.flags.(modified := true));
      }
  }

  /** The body to be sent on is the client's, or what the rewrite made of it. */
  predicate Forwardable(w: World, requestBody: Option<Bytes>, forwardBody: Option<Bytes>) {
    if RewritesBody(w) then forwardBody == Some(ForwardedBytes(w)) else forwardBody == requestBody
  }

  /** What the request stage may do to an attempt. */
  predicate StageDone(a: Attempt, b: Attempt, w: World) {
    && b == BEGIN.(flags := b.flags, logged := b.logged, ruleErrors := a.ruleErrors, requests := b.requests,
                   entries := b.entries, grpcFault := b.grpcFault, mocked := Mocks(w) && !w.throws(AtMock))
    && Tallied(b, w) && b.flags.clientAborted == (b.logged && w.gone(AtLog))
    && (b.grpcFault <==> FaultsRequest(w) && RequestActionOf(w).fault.GrpcStatus? && !w.throws(AtFault))
    && (b.logged <==> (Mocks(w) || FaultsRequest(w)) && !RequestEscapes(w) && !b.grpcFault)
  }

  /** The request stage. */
  method RequestSide(a: Attempt, w: World, requestBody: Option<Bytes>)
    returns (b: Attempt, forwardBody: Option<Bytes>, answered: bool, threw: bool)
    requires a == BEGIN.(ruleErrors := a.ruleErrors) && requestBody == RequestBody(w)
    ensures StageDone(a, b, w) && Deed(b.flags) == RequestDeeds(w)
    ensures threw && !b.logged <==> RequestEscapes(w)
    ensures !threw && !answered <==> GoesOn(w)
    ensures GoesOn(w) ==> Open(b) && Forwardable(w, requestBody, forwardBody)
  {
    b, forwardBody, answered, threw := a, requestBody, false, false;
    var rule := w.evaluation.interceptRule;
    if rule.None? || rule.value.request.None? {
      return;
    }
    var stage := rule.value.request.value;
    if stage.delay.Some? {
      if w.throws(AtRequestDelay) {
        threw := true;
        return;
      }
      b := b.(flags := b.flags.(delayed := true));
    }
    if stage.action.Some? {
      b, forwardBody, answered, threw := RunRequestAction(b, w, requestBody);
    }
  }

  /** What is sent on: the buffer, the spliced stream, or the client's own stream. */
  function Outgoing(forwardBody: Option<Bytes>, requestTail: Option<Bytes>, requestBody: Option<Bytes>, unread: Bytes):
    Bytes
  {
    if forwardBody.Some? then forwardBody.value
    else if requestTail.Some? then requestTail.value
    else if requestBody.None? then unread
    else []
  }

  /** The reply's bytes as the client should get them: the patched or buffered body, the splice, or the stream. */
  function ReplyBytes(body: Option<Bytes>, tail: Option<Bytes>, stream: Bytes): Bytes {
    if body.Some? then body.value else if tail.Some? then tail.value else stream
  }

  /** Decides on and performs the buffering of the reply. */
  method BufferReply(w: World, interest: BodyInterest)
    returns (body: Option<Bytes>, tail: Option<Bytes>, skipped: bool, broke: bool)
    requires w.upstream.Reply? && w.Plausible()
    requires interest == ResponseBodyInterest(w.evaluation.interceptRule, w.evaluation.captureRules)
    ensures broke <==> ReplyBroke(w)
    ensures !broke ==> ReplyBytes(body, tail, w.ReplyBytes()) == w.ReplyBytes()
    ensures !broke && interest.want ==> (skipped <==> !(BuffersReply(w) && w.ReplyRead().Complete?))
    ensures !skipped && !broke && interest.want ==> body.Some?
    ensures skipped ==> body.None?
  {
    body, tail, skipped, broke := None, None, false, false;
    var upstream := w.upstream;
    if (interest.want || interest.need) && !upstream.eventStream {
      if upstream.contentLength.Some? && upstream.contentLength.value > w.responseLimit {
        skipped := true;
      } else {
        ReadExplained(upstream.read, w.responseLimit, upstream.http2);
        match w.ReplyRead()
        case Rejected => broke := true;
        case Complete(buffer) => body := Some(buffer);
        case Overflow(prefix) =>
          skipped := true;
          tail := Some(prefix + upstream.rest);
      }
    } else if interest.want && upstream.eventStream {
      skipped := true;
    }
  }

  /** The plan for the response stage is carried out on `a`, and nothing else is. */
  predicate Staged(a: Attempt, b: Attempt, w: World, p: Plan) {
    && b == a.(flags := b.flags, logged := b.logged, ruleErrors := b.ruleErrors, requests := b.requests,
               entries := b.entries, grpcFault := p.grpcFault)
    && Tallied(b, w) && b.flags.clientAborted == (b.logged && w.gone(AtLog))
    && (b.logged <==> p.faults && !p.escapes && !p.grpcFault)
    && b.ruleErrors == a.ruleErrors + (if p.matcherFails then 1 else 0) + (if p.scriptFails then 1 else 0)
    && Deed(b.flags) == WithPlan(a.flags, p)
    && (p.grpcFault ==> p.faults && !p.escapes)
  }

  /** The action of a response stage whose matcher holds and whose delay is over. */
  method RunResponseAction(a: Attempt, w: World, action: ResponseAction, body: Option<Bytes>, skipped: bool, ghost p: Plan)
    returns (b: Attempt, newBody: Option<Bytes>, answered: bool, threw: bool)
    requires Open(a) && ActionFits(p, w, action, skipped) && (skipped <==> body.None?)
    requires !p.matcherFails && !p.delays
    ensures Staged(a, b, w, p)
    ensures threw && !b.logged <==> p.escapes
    ensures !threw && !answered <==> !p.escapes && !p.faults
    ensures newBody == if p.newBody.Some? then p.newBody else body
  {
    b, newBody, answered, threw := a, body, false, false;
    match action
    case ResponseFault(fault) =>
      b, threw := ExecuteFault(b, w, fault);
      answered := true;
    case ResponseReplace(_, _, _) =>
      if w.throws(AtResponseAction) {
        threw := true;
      } else if w.headerReplaced {
        b := b.(flags := b.flags.(modified := true));
      }
    case ScriptManipulator(_, _) =>
      if body.Some? || !skipped {
        b, newBody := ApplyPatch(b, w, body);
      }
  }

  /** The manipulator's patch: a failure is a rule error and leaves the body alone. */
  method ApplyPatch(a: Attempt, w: World, body: Option<Bytes>) returns (b: Attempt, newBody: Option<Bytes>)
    ensures if w.patch.None? || w.patch.value.Err? then b == a.(ruleErrors := a.ruleErrors + 1) && newBody == body
            else
              && b == a.(flags := a.flags.(modified := a.flags.modified || w.patch.value.value.changed))
              && newBody == (if w.patch.value.value.body.Some? then w.patch.value.value.body else body)
  {
    b, newBody := a, body;
    if w.patch.None? || w.patch.value.Err? {
      b := b.(ruleErrors := b.ruleErrors + 1);
    } else {
      var patched := w.patch.value.value;
      if patched.body.Some? {
        newBody := patched.body;
      }
      if patched.changed {
        b := b.(flags := b.flags.(modified := true));
      }
    }
  }

  /** The response stage of the intercept rule. Without a match, only the matcher's own failure leaves a trace. */
  method RunResponseStage(a: Attempt, w: World, stage: ResponseStage, body: Option<Bytes>, skipped: bool, ghost p: Plan)
    returns (b: Attempt, newBody: Option<Bytes>, answered: bool, threw: bool)
    requires Open(a) && StageFits(p, w, stage, skipped) && (skipped <==> body.None?)
    ensures Staged(a, b, w, p)
    ensures threw && !b.logged <==> p.escapes
    ensures !threw && !answered <==> !p.escapes && !p.faults
    ensures newBody == if p.newBody.Some? then p.newBody else body
    ensures stage.match_.Some? && (!w.responseMatched || w.responseMatchThrew) ==>
              !threw && !answered && newBody == body
              && b == a.(ruleErrors := a.ruleErrors + (if w.responseMatchThrew then 1 else 0))
  {
    b, newBody, answered, threw := a, body, false, false;
    if stage.match_.Some? && w.responseMatchThrew {
      b := b.(ruleErrors := b.ruleErrors + 1);
    }
    if stage.match_.Some? && (!w.responseMatched || w.responseMatchThrew) {
      return;
    }
    if stage.delay.Some? {
      if w.throws(AtResponseDelay) {
        threw := true;
        return;
      }
      b := b.(flags := b.flags.(delayed := true));
    }
    if stage.action.Some? {
      b, newBody, answered, threw :=
        RunResponseAction(b, w, stage.action.value, body, skipped, p.(matcherFails := false, delays := false));
    }
  }

  /** The response stage, if the rule has one. */
  method RespondByRule(a: Attempt, w: World, body: Option<Bytes>, skipped: bool, ghost p: Plan)
    returns (b: Attempt, newBody: Option<Bytes>, answered: bool, threw: bool)
    requires Open(a)
    requires if w.ResponseStageOf().Some? then
               StageFits(p, w, w.ResponseStageOf().value, skipped) && (skipped <==> body.None?)
             else p == IDLE
    ensures Staged(a, b, w, p)
    ensures threw && !b.logged <==> p.escapes
    ensures !threw && !answered <==> !p.escapes && !p.faults
    ensures newBody == if p.newBody.Some? then p.newBody else body
  {
    b, newBody, answered, threw := a, body, false, false;
    if w.ResponseStageOf().Some? {
      b, newBody, answered, threw := RunResponseStage(b, w, w.ResponseStageOf().value, body, skipped, p);
    }
  }

  /** Sends the reply. */
  method SendReply(a: Attempt, w: World, reply: Bytes) returns (b: Attempt, threw: bool)
    requires Open(a)
    ensures threw <==> w.throws(AtSend)
    ensures if threw then b == a else LoggedFrom(a.(delivered := Some(reply)), b, w)
  {
    if w.throws(AtSend) {
      return a, true;
    }
    b := WriteLog(a.(delivered := Some(reply)), w);
    threw := false;
  }

  /** `e` is how it ends for `a`, up to the record. */
  predicate Ended(a: Attempt, b: Attempt, w: World, e: Ending) {
    && b == a.(flags := b.flags, logged := b.logged, ruleErrors := a.ruleErrors + e.errors, requests := b.requests,
               entries := b.entries, grpcFault := e.grpcFault, delivered := e.delivered)
    && Tallied(b, w) && b.flags.clientAborted == (b.logged && w.gone(AtLog))
    && (b.logged <==> !e.escapes && !e.grpcFault)
    && Deed(b.flags) == e.deeds
  }

  lemma StagedEnds(a: Attempt, b: Attempt, w: World, p: Plan, sendThrows: bool, reply: Bytes)
    requires Staged(a, b, w, p) && a.delivered == None && (p.escapes || p.faults)
    ensures Ended(a, b, w, ByPlan(a.flags, p, sendThrows, reply))
  {
  }

  lemma RepliedEnds(a: Attempt, c: Attempt, b: Attempt, w: World, p: Plan, sendThrows: bool, reply: Bytes, sent: Bytes)
    requires Staged(a, c, w, p) && a.delivered == None && !p.escapes && !p.faults
    requires if sendThrows then b == c else LoggedFrom(c.(delivered := Some(sent)), b, w)
    requires sent == if p.newBody.Some? then p.newBody.value else reply
    ensures Ended(a, b, w, ByPlan(a.flags, p, sendThrows, reply))
  {
    var e := ByPlan(a.flags, p, sendThrows, reply);
    assert e.delivered == if sendThrows then None else Some(sent);
    assert c.delivered == None && c.ruleErrors == a.ruleErrors + e.errors;
  }

  /** The rule's response stage, and the reply if nothing came in between. */
  method Respond(a: Attempt, w: World, body: Option<Bytes>, tail: Option<Bytes>, skipped: bool, ghost p: Plan)
    returns (b: Attempt, threw: bool)
    requires Open(a) && a.delivered == None && w.upstream.Reply?
    requires if w.ResponseStageOf().Some? then
               StageFits(p, w, w.ResponseStageOf().value, skipped) && (skipped <==> body.None?)
             else p == IDLE
    requires ReplyBytes(body, tail, w.ReplyBytes()) == w.ReplyBytes()
    ensures Ended(a, b, w, ByPlan(a.flags, p, w.throws(AtSend), w.ReplyBytes()))
    ensures threw && !b.logged <==> p.escapes || (!p.faults && w.throws(AtSend))
  {
    var newBody, answered;
    b, newBody, answered, threw := RespondByRule(a, w, body, skipped, p);
    if threw || answered {
      StagedEnds(a, b, w, p, w.throws(AtSend), w.ReplyBytes());
      return;
    }
    ghost var staged := b;
    var reply := ReplyBytes(newBody, tail, w.ReplyBytes());
    b, threw := SendReply(b, w, reply);
    RepliedEnds(a, staged, b, w, p, w.throws(AtSend), w.ReplyBytes(), reply);
  }

  /** From the reply's arrival to the end of the exchange. */
  method ResponseSide(a: Attempt, w: World, ghost p: Plan) returns (b: Attempt, threw: bool)
    requires Open(a) && a.delivered == None && Deed(a.flags) == a.flags
    requires w.upstream.Reply? && w.Plausible() && (w.throws(AtReply) || ReplyBroke(w) || PlanFor(p, w))
    ensures Ended(a, b, w, EndingFrom(w, a.flags, p))
    ensures threw && !b.logged <==> EndingFrom(w, a.flags, p).escapes
  {
    b, threw := a, false;
    if w.throws(AtReply) {
      return b, true;
    }
    var interest := ResponseBodyInterest(w.evaluation.interceptRule, w.evaluation.captureRules);
    var body, tail, skipped, broke := BufferReply(w, interest);
    if broke {
      b := b.(flags := b.flags.(upstreamError := true));
      if w.throws(AtSend) {
        return b, true;
      }
      b := WriteLog(b, w);
      return;
    }
    b, threw := Respond(b, w, body, tail, skipped, p);
  }

  /** The upstream is asked, and what follows from its answer. */
  method Forward(a: Attempt, w: World, ghost p: Plan) returns (b: Attempt, threw: bool)
    requires Open(a) && a.delivered == None && Deed(a.flags) == a.flags && w.Plausible()
    requires w.upstream.Unreachable? || w.throws(AtReply) || ReplyBroke(w) || PlanFor(p, w)
    ensures Ended(a, b, w, EndingFrom(w, a.flags, p))
    ensures threw && !b.logged <==> EndingFrom(w, a.flags, p).escapes
  {
    b, threw := a, false;
    if w.upstream.Unreachable? {
      b := b.(flags := b.flags.(upstreamError := true));
      if w.throws(AtSend) {
        return b, true;
      }
      b := WriteLog(b, w);
      return;
    }
    b, threw := ResponseSide(b, w, p);
  }

  /** Exactly what should be sent was sent, both ways. */
  predicate Sent(a: Attempt, w: World) {
    && (a.mocked <==> Mocks(w) && !w.throws(AtMock))
    && a.forwarded == (if Forwards(w) then Some(ForwardedBytes(w)) else None)
    && a.delivered == (if Relays(w) then Some(RelayedBytes(w)) else None)
  }

  lemma UnforwardedEnds(a: Attempt, b: Attempt, w: World)
    requires a == BEGIN.(ruleErrors := a.ruleErrors) && !Forwards(w)
    requires StageDone(a, b, w) && Deed(b.flags) == RequestDeeds(w)
    ensures Ended(a.(mocked := b.mocked, forwarded := b.forwarded), b, w, EndingOf(w)) && Sent(b, w)
  {
    EndingBefore(w);
    assert !Relays(w);
  }

  lemma ForwardedEnds(a: Attempt, c: Attempt, b: Attempt, w: World)
    requires Forwards(w) && a == BEGIN.(ruleErrors := a.ruleErrors)
    requires c == a.(flags := RequestDeeds(w), forwarded := Some(ForwardedBytes(w)))
    requires Ended(c, b, w, EndingFrom(w, c.flags, PlanOf(w)))
    ensures Ended(a.(mocked := b.mocked, forwarded := b.forwarded), b, w, EndingOf(w)) && Sent(b, w)
    ensures EndingFrom(w, c.flags, PlanOf(w)).escapes == EndingOf(w).escapes
  {
    EndingForwarded(w);
  }

  /** Everything inside the try block. */
  method Serve(a: Attempt, w: World, requestBody: Option<Bytes>, requestTail: Option<Bytes>, unread: Bytes)
    returns (b: Attempt, threw: bool)
    requires a == BEGIN.(ruleErrors := a.ruleErrors) && w.Plausible() && requestBody == RequestBody(w)
    requires Outgoing(requestBody, requestTail, requestBody, unread) == w.ClientBytes()
    ensures Ended(a.(mocked := b.mocked, forwarded := b.forwarded), b, w, EndingOf(w)) && Sent(b, w)
    ensures threw && !b.logged <==> EndingOf(w).escapes
  {
    var forwardBody, answered;
    b, forwardBody, answered, threw := RequestSide(a, w, requestBody);
    if threw || answered {
      UnforwardedEnds(a, b, w);
      return;
    }
    if w.throws(AtUpstreamUrl) {
      UnforwardedEnds(a, b, w);
      return b, true;
    }
    PlanFits(w);
    b := b.(forwarded := Some(Outgoing(forwardBody, requestTail, requestBody, unread)));
    ghost var sent := b;
    b, threw := Forward(b, w, PlanOf(w));
    ForwardedEnds(a, sent, b, w);
  }

  /** A body that never became usable: evaluated without it, logged once, never forwarded. */
  method LogAborted(w: World) returns (a: Attempt)
    ensures a == BEGIN.(aborted := true, logged := true, requests := a.requests, entries := a.entries)
    ensures AbortRecorded(a, w)
  {
    a := BEGIN.(aborted := true, logged := true, requests := [AbortLabel(w.abortEvaluation)]);
    if a.requests[0] == Passthrough {
      return;
    }
    a := a.(entries := [LogRecord(ClientAborted, ClientAbortedReason)]);
  }

  /** One record, and an entry iff the evaluation without the body engaged anything. */
  predicate AbortRecorded(a: Attempt, w: World) {
    var e := w.abortEvaluation;
    if e.interceptRule.Some? || e.captureRules != [] || e.errors != [] then
      a.requests == [Labelled(ClientAborted)] && a.entries == [LogRecord(ClientAborted, ClientAbortedReason)]
    else
      a.requests == [Passthrough] && a.entries == []
  }

  /** The buffering decision for the request body; `answered` means that the exchange is over. */
  method BufferRequest(w: World)
    returns (a: Attempt, requestBody: Option<Bytes>, requestTail: Option<Bytes>, unread: Bytes, answered: bool)
    requires w.Plausible()
    ensures answered <==> EndsEarly(w)
    ensures !answered ==> a == BEGIN && requestBody == RequestBody(w)
                          && Outgoing(requestBody, requestTail, requestBody, unread) == w.ClientBytes()
    ensures BrokenOff(w) ==> AbortRecorded(a, w)
                             && a == BEGIN.(aborted := true, logged := true, requests := a.requests, entries := a.entries)
    ensures answered && !BrokenOff(w) ==> a == BEGIN.(answered413 := true)
  {
    a, requestBody, requestTail, unread, answered := BEGIN, None, None, w.ClientBytes(), false;
    var active := w.Active();
    var interest := RequestBodyInterest(active);
    assert interest.need <==> Needed(w);
    assert interest.want <==> BuffersBody(w);
    if |active| == 0 || (!interest.need && !interest.want) {
    } else if w.contentLength.Some? && w.contentLength.value > w.requestLimit {
      if interest.need {
        a := a.(answered413 := true);
        answered := true;
      }
    } else {
      ReadExplained(w.read, w.requestLimit, w.http2);
      match w.RequestRead()
      case Rejected =>
        a := LogAborted(w);
        answered := true;
      case Complete(buffer) =>
        if w.contentLength.Some? && |buffer| < w.contentLength.value {
          a := LogAborted(w);
          answered := true;
          return;
        }
        unread := [];
        if |buffer| > 0 {
          requestBody := Some(buffer);
        }
      case Overflow(prefix) =>
        if interest.need {
          a := a.(answered413 := true);
          answered := true;
          return;
        }
        requestTail := Some(prefix + w.rest);
        unread := w.rest;
    }
  }

  /** An exception is a rule error unless the client is gone. */
  function Caught(a: Attempt, w: World): Attempt {
    a.(ruleErrors := a.ruleErrors + (if w.gone(AtCatch) then 0 else 1))
  }

  /** The catch clause around the exchange: logs exactly the attempts that are not logged yet. */
  method Guard(a: Attempt, w: World) returns (b: Attempt, rethrown: bool)
    requires a.logged || Open(a)
    requires w.Plausible()
    ensures rethrown <==> a.logged
    ensures a.logged ==> b == a
    ensures !a.logged ==> LoggedFrom(Caught(a, w), b, w)
  {
    b, rethrown := a, false;
    if b.logged {
      rethrown := true;
      return;
    }
    if w.gone(AtCatch) {
      b := b.(flags := b.flags.(clientAborted := true));
    } else {
      b := b.(ruleErrors := b.ruleErrors + 1);
    }
    b := WriteLog(b, w);
  }

  /** One record, and an entry iff something engaged; it says what was done and nothing else. */
  predicate Recorded(a: Attempt, w: World) {
    && a.requests == [if Engaged(w) then Labelled(OutcomeOf(w)) else Passthrough]
    && |a.entries| == (if Engaged(w) then 1 else 0)
    && (Engaged(w) ==> a.entries[0].outcome == OutcomeOf(w)
                       && a.entries[0].reason == DecideReason(OutcomeOf(w), a.ruleErrors, w.evaluation))
  }

  /** What the books say once the catch clause is through, given how the guarded part ended. */
  lemma BooksClosed(a: Attempt, b: Attempt, w: World, e: Ending)
    requires w.Plausible() && Deed(a.flags) == e.deeds && a.ruleErrors == |w.evaluation.errors| + e.errors
    requires if a.logged then !e.escapes && b == a && a.flags.clientAborted == w.gone(AtLog) && Tallied(a, w)
             else e.escapes && LoggedFrom(Caught(a, w), b, w)
    ensures Closed(b, w, e)
  {
    if !a.logged {
      LoggedCloses(Caught(a, w), b, w, e);
    }
  }

  lemma LoggedCloses(a: Attempt, b: Attempt, w: World, e: Ending)
    requires LoggedFrom(a, b, w) && Deed(a.flags) == e.deeds
    requires a.ruleErrors == |w.evaluation.errors| + e.errors + (if e.escapes && !w.gone(AtCatch) then 1 else 0)
    ensures Closed(b, w, e)
  {
    assert b.flags == e.deeds.(clientAborted := w.gone(AtLog));
  }

  predicate Closed(a: Attempt, w: World, e: Ending) {
    && a.logged && Tallied(a, w) && a.flags == e.deeds.(clientAborted := w.gone(AtLog))
    && a.ruleErrors == |w.evaluation.errors| + e.errors + (if e.escapes && !w.gone(AtCatch) then 1 else 0)
  }

  lemma ClosedRecords(a: Attempt, w: World)
    requires Closed(a, w, EndingOf(w))
    ensures Recorded(a, w)
  {
    ErrorsCounted(w, a.ruleErrors);
    TalliedRecords(a, w);
  }

  lemma TalliedRecords(a: Attempt, w: World)
    requires a.logged && Tallied(a, w) && a.flags == Deeds(w) && (a.ruleErrors > 0 <==> HasErrors(w))
    ensures Recorded(a, w)
  {
    assert ShouldLog(a.flags, a.ruleErrors, w.evaluation) <==> Engaged(w);
    assert DecideOutcome(a.flags, a.ruleErrors > 0) == OutcomeOf(w);
  }

  /** The whole exchange; `rethrown` is an exception that leaves `handleHttpExchange`. */
  method HandleHttpExchange(w: World) returns (a: Attempt, rethrown: bool)
    requires w.Plausible()
    ensures a.answered413 <==> TooLarge(w) && Needed(w) && !BrokenOff(w)
    ensures a.answered413 ==> a == BEGIN.(answered413 := true)
    ensures a.aborted <==> BrokenOff(w)
    ensures a.aborted ==> AbortRecorded(a, w) && !a.mocked && a.forwarded == None && a.delivered == None
    ensures !EndsEarly(w) ==> Sent(a, w)
    ensures a.grpcFault <==> !EndsEarly(w) && FaultOf(w).Some? && FaultOf(w).value.GrpcStatus? && !w.throws(AtFault)
    ensures a.grpcFault ==> a.requests == [] && a.entries == []
    ensures !EndsEarly(w) && !a.grpcFault ==> Recorded(a, w)
  {
    rethrown := false;
    var requestBody, requestTail, unread, answered;
    a, requestBody, requestTail, unread, answered := BufferRequest(w);
    if answered {
      return;
    }
    a := a.(ruleErrors := |w.evaluation.errors|);
    var threw;
    a, threw := Serve(a, w, requestBody, requestTail, unread);
    ghost var served := a;
    if threw {
      a, rethrown := Guard(a, w);
    }
    if !a.grpcFault {
      BooksClosed(served, a, w, EndingOf(w));
      ClosedRecords(a, w);
    }
  }

  /** A rule without a gRPC status fault leaves no exchange without a record. */
  lemma NoGrpcFault(w: World)
    requires w.evaluation.interceptRule.Some? ==> FaultsAllowed(w.evaluation.interceptRule.value)
    ensures FaultOf(w).Some? ==> !FaultOf(w).value.GrpcStatus?
  {
  }
}
