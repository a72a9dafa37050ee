/**
 * Whom the record of a streaming call blames (src/grpc/grpc-listener.ts),
 * measured by the schedule of events: who really left, and who really failed.
 */
module GrpcBlame {
  import opened Common
  import opened RuleTypes
  import opened Matchers
  import opened Outcomes
  import opened GrpcStreaming
  import opened Text
  import opened Validate
  import opened NormalRules
  import Evaluate

  // ---- what happens in a run

  /** Some event of the schedule arrives in a state in which `what` holds of the two. */
  predicate Happens(s: State, w: World, events: seq<Event>, what: (State, World, Event) -> bool)
    decreases |events|
  {
    events != [] && (what(s, w, events[0]) || Happens(React(s, w, events[0]), w, events[1..], what))
  }

  /** The client leaves while the stream is open and the attempt is not logged. */
  predicate ClientLeaves(s: State, w: World, ev: Event) {
    ev == ClientGone && !s.logged && s.destroyedBy.None?
  }

  /** The upstream fails in mid-relay, after the client has left and before the attempt is logged. */
  predicate UpstreamFailsAfterClient(s: State, w: World, ev: Event) {
    ev == ReplyError && s.phase == Relaying && !s.logged && s.destroyedBy == Some(Client)
  }

  /** `respondGrpc` is called on an open stream and throws. */
  predicate ReplyUnsent(s: State, w: World, ev: Event) {
    !s.logged && s.destroyedBy.None? && w.throws(AtRespondGrpc) && Answers(s, w, ev)
  }

  /** With the stream open, this step has the proxy answer the call itself. */
  predicate Answers(s: State, w: World, ev: Event) {
    match ev
    case Resume =>
      (match s.phase
       case Evaluating => !(w.RequestOf().Some? && w.RequestOf().value.delay.Some?) && RequestAnswers(w)
       case RequestDelay => RequestAnswers(w)
       case AwaitUpstream =>
         if w.ResponseOf().None? || w.NeedsTrailers() then w.throws(AtRespond) else w.throws(AtReplyHeaders)
       case HeaderMatch => HeaderMatchAnswers(w)
       case HeaderDelay => HeaderActionAnswers(w)
       case HeaderScript => w.throws(AtRespond)
       case _ => false)
    case Reject =>
      s.phase == RequestDelay || s.phase == AwaitUpstream || s.phase == HeaderMatch || s.phase == HeaderDelay
      || (s.phase == HeaderScript && w.throws(AtRespond))
    case _ => false
  }

  /** A status fault, or a step of the request stage that throws. */
  predicate RequestAnswers(w: World) {
    match RequestFaultOf(w)
    case Some(GrpcStatus(_, _, _)) => true
    case Some(Connection(_)) => false
    case Some(Timeout(_)) => false
    case Some(HttpResponse(_, _, _)) => w.throws(AtUpstreamUrl)
    case None => w.RewriteThrows() || w.throws(AtUpstreamUrl)
  }

  predicate HeaderMatchAnswers(w: World) {
    if w.matchError || !w.matched then w.throws(AtRespond)
    else !(w.ResponseOf().Some? && w.ResponseOf().value.delay.Some?) && HeaderActionAnswers(w)
  }

  predicate HeaderActionAnswers(w: World) {
    match w.ResponseActionOf()
    case Some(ResponseReplace(_, _, _)) => w.throws(AtReplace) || w.throws(AtRespond)
    case Some(ScriptManipulator(_, _)) => !w.hasRunner && w.throws(AtRespond)
    case Some(ResponseFault(GrpcStatus(_, _, _))) => true
    case _ => w.throws(AtRespond)
  }

  // ---- what one step does to the stream

  /** Who has destroyed the stream when the step makes its record. */
  function Breaker(s: State, w: World, answers: bool): Option<Destroyer> {
    if answers && s.destroyedBy.None? && w.throws(AtRespondGrpc) then Some(Proxy) else s.destroyedBy
  }

  /** The step from `s` to `t` either makes the record or leaves the stream alone. */
  predicate Follows(s: State, t: State, w: World, answers: bool) {
    if t.logged then
      |t.records| == 1 && t.records[0].destroyedBy == Breaker(s, w, answers)
      && t.records[0].selfDestroyed == s.selfDestroyed
    else !answers && t.destroyedBy == s.destroyedBy && t.selfDestroyed == s.selfDestroyed
  }

  lemma OuterCatchFollows(s: State, w: World)
    requires InMain(s)
    ensures Follows(s, OuterCatch(s, w), w, true)
  {
  }

  lemma StatusFaultFollows(s: State, w: World)
    requires InMain(s)
    ensures Follows(s, StatusFault(s, w), w, true)
  {
  }

  lemma UpstreamFailedFollows(s: State, w: World)
    requires InMain(s)
    ensures Follows(s, UpstreamFailedStep(s, w), w, true)
  {
  }

  lemma ForwardFollows(s: State, w: World)
    requires InMain(s)
    ensures Follows(s, Forward(s, w), w, w.throws(AtUpstreamUrl))
  {
    OuterCatchFollows(s, w);
  }

  lemma FaultFollows(s: State, w: World, fault: FaultSpec)
    requires InMain(s) && RequestFaultOf(w) == Some(fault)
    ensures Follows(s, FaultStep(s, w, fault), w, RequestAnswers(w))
  {
    match fault
    case GrpcStatus(_, _, _) => StatusFaultFollows(s, w);
    case Connection(_) =>
    case Timeout(_) =>
    case HttpResponse(_, _, _) => ForwardFollows(s, w);
  }

  lemma RequestActionFollows(s: State, w: World)
    requires InMain(s)
    ensures Follows(s, RequestActionStep(s, w), w, RequestAnswers(w))
  {
    if RequestFaultOf(w).Some? {
      FaultFollows(s, w, RequestFaultOf(w).value);
    } else if w.RewriteThrows() {
      OuterCatchFollows(s, w);
    } else {
      ForwardFollows(Prepared(s, w), w);
    }
  }

  lemma StartRelayFollows(s: State, w: World)
    requires InMain(s)
    ensures Follows(s, StartRelay(s, w), w, w.throws(AtRespond))
  {
    OuterCatchFollows(s, w);
  }

  lemma HeaderActionFollows(s: State, w: World)
    requires InMain(s)
    ensures Follows(s, HeaderAction(s, w), w, HeaderActionAnswers(w))
  {
    match w.ResponseActionOf()
    case Some(ResponseReplace(_, _, _)) =>
      if w.throws(AtReplace) {
        OuterCatchFollows(s, w);
      } else {
        StartRelayFollows(if w.replaced then s.(flags := s.flags.(modified := true)) else s, w);
      }
    case Some(ScriptManipulator(_, _)) => StartRelayFollows(s, w);
    case Some(ResponseFault(_)) =>
      StatusFaultFollows(s, w);
      StartRelayFollows(s, w);
    case None => StartRelayFollows(s, w);
  }

  lemma HeaderMatchFollows(s: State, w: World)
    requires InMain(s)
    ensures Follows(s, AfterHeaderMatch(s, w), w, HeaderMatchAnswers(w))
  {
    StartRelayFollows(s, w);
    HeaderActionFollows(s, w);
  }

  lemma MainResumeFollows(s: State, w: World)
    requires Inv(s) && !s.logged && s.phase != Relaying
    ensures Follows(s, OnResume(s, w), w, Answers(s, w, Resume))
  {
    match s.phase
    case Evaluating => RequestActionFollows(s.(ruleErrors := |w.evaluation.errors|), w);
    case RequestDelay => RequestActionFollows(Slept(s), w);
    case AwaitUpstream =>
      StartRelayFollows(s, w);
      OuterCatchFollows(s, w);
    case HeaderMatch => HeaderMatchFollows(MatchAnswered(s, w), w);
    case HeaderDelay => HeaderActionFollows(Slept(s), w);
    case HeaderScript => StartRelayFollows(ScriptDone(s, w, false), w);
  }

  lemma MainRejectFollows(s: State, w: World)
    requires Inv(s) && !s.logged && s.phase != Relaying
    ensures Follows(s, OnReject(s, w), w, Answers(s, w, Reject))
  {
    match s.phase
    case Evaluating =>
    case AwaitUpstream => UpstreamFailedFollows(s, w);
    case HeaderScript => StartRelayFollows(ScriptDone(s, w, true), w);
    case _ => OuterCatchFollows(s, w);
  }

  /** While relaying, a step that makes the record finds the stream as it was. */
  lemma TailCatchFollows(s: State, w: World)
    requires Inv(s) && !s.logged && s.phase == Relaying
    ensures Follows(s, TailCatch(s, w), w, false)
  {
  }

  lemma FinishTailFollows(s: State, w: World)
    requires Inv(s) && !s.logged && s.phase == Relaying
    ensures Follows(s, FinishTail(s, w), w, false)
  {
    TailCatchFollows(s, w);
  }

  lemma TailMatchedFollows(s: State, w: World)
    requires Inv(s) && !s.logged && s.phase == Relaying && s.tail == TailMatch
    ensures Follows(s, TailMatched(s, w), w, false)
  {
    var t := MatchAnswered(s, w);
    FinishTailFollows(t, w);
    FinishTailFollows(t.(flags := t.flags.(fault := true)), w);
  }

  lemma RelayFollows(s: State, w: World, ev: Event)
    requires Inv(s) && !s.logged && s.phase == Relaying && (ev == Resume || ev == Reject)
    ensures Follows(s, React(s, w, ev), w, false)
  {
    if s.tail == TailMatch {
      TailMatchedFollows(s, w);
      TailCatchFollows(s, w);
    } else if s.tail == TailScript {
      FinishTailFollows(ScriptDone(s, w, ev == Reject), w);
    }
  }

  /** Of an open attempt, only the client's leaving and the upstream's failing touch the stream without a record. */
  lemma StepFollows(s: State, w: World, ev: Event)
    requires Inv(s) && !s.logged && ev != ClientGone && ev != ReplyError
    ensures Follows(s, React(s, w, ev), w, Answers(s, w, ev))
  {
    match ev
    case Resume => if s.phase == Relaying { RelayFollows(s, w, ev); } else { MainResumeFollows(s, w); }
    case Reject => if s.phase == Relaying { RelayFollows(s, w, ev); } else { MainRejectFollows(s, w); }
    case StreamClosed =>
    case ReplyEnd =>
      if CanEnd(s) {
        TailCatchFollows(s, w);
        FinishTailFollows(s, w);
      }
  }

  // ---- "client aborted"

  /** Nothing that counts happens once the attempt is logged. */
  lemma {:induction false} NothingLater(s: State, w: World, events: seq<Event>)
    requires Inv(s) && s.logged
    ensures !Happens(s, w, events, ClientLeaves) && !Happens(s, w, events, UpstreamFailsAfterClient)
    ensures !Happens(s, w, events, ReplyUnsent)
    decreases |events|
  {
    if events != [] {
      StepKeeps(s, w, events[0]);
      LoggedStays(s, w, events[0]);
      NothingLater(React(s, w, events[0]), w, events[1..]);
    }
  }

  /** Still to be logged; the proxy itself destroys the stream of such an attempt only in the step that logs it. */
  predicate Open(s: State) {
    Inv(s) && !s.logged && (s.destroyedBy == None || s.destroyedBy == Some(Client) || s.destroyedBy == Some(Relay))
  }

  lemma StepOpen(s: State, w: World, ev: Event)
    requires Open(s)
    ensures Inv(React(s, w, ev)) && (Open(React(s, w, ev)) || React(s, w, ev).logged)
  {
    StepKeeps(s, w, ev);
    if ev != ClientGone && ev != ReplyError {
      StepFollows(s, w, ev);
    }
  }

  /** An upstream can fail after a client only if a client left; a reply fails to be sent only if none had. */
  lemma {:induction false} Exclusive(s: State, w: World, events: seq<Event>)
    requires Open(s)
    ensures Happens(s, w, events, UpstreamFailsAfterClient) ==>
              s.destroyedBy == Some(Client) || Happens(s, w, events, ClientLeaves)
    ensures Happens(s, w, events, ClientLeaves) ==> s.destroyedBy == None
    ensures Happens(s, w, events, ReplyUnsent) ==>
              s.destroyedBy == None && !Happens(s, w, events, ClientLeaves)
              && !Happens(s, w, events, UpstreamFailsAfterClient)
    decreases |events|
  {
    if events != [] {
      var ev, t := events[0], React(s, w, events[0]);
      StepOpen(s, w, ev);
      if ev != ClientGone && ev != ReplyError {
        StepFollows(s, w, ev);
      }
      if t.logged {
        NothingLater(t, w, events[1..]);
      } else {
        Exclusive(t, w, events[1..]);
      }
    }
  }

  /** Who the record names as the one that destroyed the stream first, from any open state on. */
  predicate ClientFrom(s: State, w: World, events: seq<Event>) {
    s.destroyedBy == Some(Client) || Happens(s, w, events, ClientLeaves)
  }

  /** The abort label, from any open state on. */
  predicate AbortedFrom(s: State, w: World, events: seq<Event>) {
    || (ClientFrom(s, w, events) && !s.selfDestroyed && !Happens(s, w, events, UpstreamFailsAfterClient))
    || Happens(s, w, events, ReplyUnsent)
  }

  /** A step without a record passes both questions on to the rest of the schedule. */
  lemma PassedOn(s: State, w: World, events: seq<Event>)
    requires Open(s) && events != [] && !React(s, w, events[0]).logged
    ensures var t := React(s, w, events[0]);
            && (ClientFrom(s, w, events) <==> ClientFrom(t, w, events[1..]))
            && (AbortedFrom(s, w, events) <==> AbortedFrom(t, w, events[1..]))
  {
    var ev, t := events[0], React(s, w, events[0]);
    StepOpen(s, w, ev);
    Exclusive(s, w, events);
    Exclusive(t, w, events[1..]);
    if ev == ClientGone {
      assert !UpstreamFailsAfterClient(s, w, ev) && !ReplyUnsent(s, w, ev);
    } else if ev == ReplyError {
      assert !ClientLeaves(s, w, ev) && !ReplyUnsent(s, w, ev);
    } else {
      StepFollows(s, w, ev);
      assert !ClientLeaves(s, w, ev) && !UpstreamFailsAfterClient(s, w, ev) && !ReplyUnsent(s, w, ev);
    }
  }

  /** A step that makes the record settles both questions. */
  lemma RecordedNow(s: State, w: World, events: seq<Event>)
    requires Open(s) && events != [] && React(s, w, events[0]).logged
    ensures ClientFrom(s, w, events) <==> s.destroyedBy == Some(Client)
    ensures AbortedFrom(s, w, events) <==>
            (s.destroyedBy == Some(Client) && !s.selfDestroyed) || ReplyUnsent(s, w, events[0])
  {
    var ev, t := events[0], React(s, w, events[0]);
    StepOpen(s, w, ev);
    NothingLater(t, w, events[1..]);
    assert !ClientLeaves(s, w, ev) && !UpstreamFailsAfterClient(s, w, ev);
    assert Happens(s, w, events, ReplyUnsent) <==> ReplyUnsent(s, w, ev);
    assert !Happens(s, w, events, ClientLeaves) && !Happens(s, w, events, UpstreamFailsAfterClient);
  }

  lemma {:induction false} LabelFrom(s: State, w: World, events: seq<Event>)
    requires Open(s) && |Run(s, w, events).records| == 1
    ensures var r := Run(s, w, events).records[0];
            && (r.destroyedBy == Some(Client) <==> ClientFrom(s, w, events))
            && (r.destroyedBy.Some? && !r.selfDestroyed <==> AbortedFrom(s, w, events))
    decreases |events|
  {
    var ev, t := events[0], React(s, w, events[0]);
    StepOpen(s, w, ev);
    if t.logged {
      StepFollows(s, w, ev);
      RecordsStand(t, w, events[1..]);
      RecordedNow(s, w, events);
    } else {
      LabelFrom(t, w, events[1..]);
      PassedOn(s, w, events);
    }
  }

  /**
   * The exact label: a call is recorded as aborted by its client iff the client
   * left and the upstream did not fail after that, or a reply could not be sent.
   */
  lemma AbortLabelExact(w: World, events: seq<Event>)
    requires |Run(START, w, events).records| == 1 && Run(START, w, events).records[0].tag.Labelled?
    ensures var r := Run(START, w, events).records[0];
            && (r.destroyedBy == Some(Client) <==> Happens(START, w, events, ClientLeaves))
            && (r.tag.outcome == ClientAborted <==>
                  || (Happens(START, w, events, ClientLeaves) && !Happens(START, w, events, UpstreamFailsAfterClient))
                  || Happens(START, w, events, ReplyUnsent))
  {
    LabelFrom(START, w, events);
    GrpcStreaming.AbortLabel(w, events);
  }

  /**
   * The label is honest, that is, says that the client left iff it did, exactly
   * when no upstream failure followed the client's leaving and every reply of
   * the proxy's own could be sent.
   */
  lemma AbortLabelHonest(w: World, events: seq<Event>)
    requires |Run(START, w, events).records| == 1 && Run(START, w, events).records[0].tag.Labelled?
    ensures var r := Run(START, w, events).records[0];
            (r.tag.outcome == ClientAborted <==> r.destroyedBy == Some(Client)) <==>
            !Happens(START, w, events, UpstreamFailsAfterClient) && !Happens(START, w, events, ReplyUnsent)
  {
    AbortLabelExact(w, events);
    Exclusive(START, w, events);
  }

  // ---- "upstream error"

  /** With this response action the tail's matcher is followed by a script. */
  predicate TailRunsScript(w: World) {
    && !w.matchError && w.matched && w.hasRunner
    && w.ResponseActionOf().Some? && w.ResponseActionOf().value.ScriptManipulator?
  }

  /** The suspended tail gets to its last step, and that does not throw, before `close` is delivered. */
  predicate TailEndsFirst(tail: Tail, w: World, later: seq<Event>)
    decreases |later|
  {
    tail != NotStarted && later != [] &&
    match later[0]
    case StreamClosed => false
    case Resume =>
      if tail == TailMatch && TailRunsScript(w) then TailEndsFirst(TailScript, w, later[1..]) else !w.throws(AtEnd)
    case Reject => tail == TailScript && !w.throws(AtEnd)
    case _ => TailEndsFirst(tail, w, later[1..])
  }

  /** A relaying attempt whose upstream has just failed. */
  predicate Failing(s: State) {
    Inv(s) && !s.logged && s.selfDestroyed
  }

  lemma FailedTailStep(s: State, w: World, ev: Event)
    requires Failing(s) && s.tail != NotStarted && (ev == Resume || ev == Reject)
    ensures var t := React(s, w, ev);
            && Inv(t)
            && (ev == Resume && s.tail == TailMatch && TailRunsScript(w) ==> Failing(t) && t.tail == TailScript)
            && (!(ev == Resume && s.tail == TailMatch && TailRunsScript(w)) ==>
                  t.logged
                  && (t.records[0].tag == Labelled(UpstreamFailed) <==> !TailEndsFirst(s.tail, w, [ev])))
  {
    StepKeeps(s, w, ev);
    var t := React(s, w, ev);
    if t.logged {
      assert Sound(t.records[0]);
    }
  }

  lemma {:induction false} BlamedFrom(s: State, w: World, later: seq<Event>)
    requires Failing(s) && |Run(s, w, later).records| == 1
    ensures Run(s, w, later).records[0].tag == Labelled(UpstreamFailed) <==> !TailEndsFirst(s.tail, w, later)
    decreases |later|
  {
    var ev, t := later[0], React(s, w, later[0]);
    StepKeeps(s, w, ev);
    if (ev == Resume || ev == Reject) && s.tail != NotStarted {
      FailedTailStep(s, w, ev);
    }
    if t.logged {
      RecordsStand(t, w, later[1..]);
      assert Sound(t.records[0]);
    } else {
      BlamedFrom(t, w, later[1..]);
    }
  }

  /**
   * Once the upstream has failed in mid-relay, the record blames it unless the
   * tail was already under way and takes its last step, without throwing,
   * before `close` is delivered.
   */
  lemma UpstreamLabel(w: World, before: seq<Event>, later: seq<Event>)
    requires var s := Run(START, w, before); s.phase == Relaying && !s.logged
    requires |Run(START, w, before + [ReplyError] + later).records| == 1
    ensures var s := Run(START, w, before);
            Run(START, w, before + [ReplyError] + later).records[0].tag == Labelled(UpstreamFailed) <==>
            s.tail == NotStarted || !TailEndsFirst(s.tail, w, later)
  {
    var s := Run(START, w, before);
    RunKeeps(START, w, before);
    StepKeeps(s, w, ReplyError);
    RunSplit(START, w, before + [ReplyError], later);
    RunSplit(START, w, before, [ReplyError]);
    RunCons(s, w, ReplyError, []);
    assert [ReplyError] + [] == [ReplyError];
    BlamedFrom(React(s, w, ReplyError), w, later);
  }

  // ---- runs in which the label is wrong

  /** A world in which one capture rule applies. */
  function Plain(capture: Rule, intercept: Option<Rule>, throws: Point -> bool): World {
    World(Evaluate.RequestEvaluation(intercept, [capture], [], []), false, true, false, false, false, false, throws)
  }

  const CALM: Point -> bool := _ => false

  /** A gRPC rule for every path with the given stages. */
  function RuleWith(request: Option<RequestStage>, response: Option<ResponseStage>): Rule {
    Rule("rule", "", "", true, 0, Grpc, Regex("path", ".", None), request, response, None, false, "", "")
  }

  /** Answers every call with a status whose metadata HTTP/2 refuses to send as response headers. */
  const REFUSED := RuleWith(Some(RequestStage(None, Some(RequestFault(GrpcStatus(7, None, Some(map["upgrade" := "x"])))))), None)

  /** Asks a script, in the sandbox process, once the trailers are there. */
  const SCRIPTED :=
    RuleWith(None, Some(ResponseStage(Some(Script(ALWAYS_FALSE, None)), None, Some(ResponseReplace("header.a", "b", "c")))))

  const ALWAYS_FALSE := "return false"

  /** Validation accepts them. */
  lemma RefusedAccepted(opts: Options)
    requires opts.regexOk(".", "") && BodyErrors(REFUSED.match_, REFUSED.request, Grpc, opts) == []
    ensures Normal(REFUSED, opts)
  {
  }

  lemma ScriptedAccepted(opts: Options)
    requires opts.regexOk(".", "") && opts.regexOk("b", "")
    requires BodyErrors(SCRIPTED.match_, SCRIPTED.request, Grpc, opts) == []
    ensures Normal(SCRIPTED, opts)
  {
    TrimTrims(ALWAYS_FALSE);
    assert Trimmed(ALWAYS_FALSE);
    var target := "header.a";
    assert target[..7] == "header.";
    assert HeaderTarget(target);
  }

  lemma RunThree(s: State, w: World, a: Event, b: Event, c: Event)
    ensures Run(s, w, [a, b, c]) == React(React(React(s, w, a), w, b), w, c)
  {
    assert [a, b, c] == [a] + ([b] + ([c] + []));
    RunCons(s, w, a, [b] + ([c] + []));
    RunCons(React(s, w, a), w, b, [c] + []);
    RunCons(React(React(s, w, a), w, b), w, c, []);
  }

  /** Two awaits return and the relay begins. */
  lemma RelayBegins(w: World)
    requires w.RequestOf().None? && w.evaluation.errors == [] && w.throws == CALM
    requires w.ResponseOf().None? || w.NeedsTrailers()
    ensures Run(START, w, [Resume, Resume]) == START.(phase := Relaying)
  {
    assert [Resume, Resume] == [Resume] + ([Resume] + []);
    RunCons(START, w, Resume, [Resume] + []);
    RunCons(START.(phase := AwaitUpstream), w, Resume, []);
  }

  /** The client leaves, then the upstream fails, then `close` is delivered: the upstream is blamed. */
  lemma ClientLeftButUpstreamBlamed(capture: Rule)
    ensures var w := Plain(capture, None, CALM);
            var s := Run(START, w, [Resume, Resume] + [ClientGone, ReplyError, StreamClosed]);
            |s.records| == 1 && s.records[0].destroyedBy == Some(Client)
            && s.records[0].tag == Labelled(UpstreamFailed)
  {
    var w := Plain(capture, None, CALM);
    RelayBegins(w);
    RunSplit(START, w, [Resume, Resume], [ClientGone, ReplyError, StreamClosed]);
    RunThree(START.(phase := Relaying), w, ClientGone, ReplyError, StreamClosed);
  }

  /** The upstream ends, and fails while the script is asked, whose answer comes before `close`: it is not blamed. */
  lemma UpstreamFailedButNotBlamed(capture: Rule)
    ensures var w := Plain(capture, Some(SCRIPTED), CALM);
            var s := Run(START, w, [Resume, Resume] + [ReplyEnd, ReplyError, Resume]);
            |s.records| == 1 && s.records[0].destroyedBy == Some(Relay)
            && s.records[0].tag == Labelled(CapturedOnly)
  {
    var w := Plain(capture, Some(SCRIPTED), CALM);
    assert HasScript(Script(ALWAYS_FALSE, None));
    RelayBegins(w);
    RunSplit(START, w, [Resume, Resume], [ReplyEnd, ReplyError, Resume]);
    RunThree(START.(phase := Relaying), w, ReplyEnd, ReplyError, Resume);
  }

  /** The rule's status cannot be sent as it is written: the client is said to have left. */
  lemma NobodyLeftButClientBlamed(capture: Rule)
    ensures var w := Plain(capture, Some(REFUSED), p => p == AtRespondGrpc);
            var s := Run(START, w, [Resume]);
            |s.records| == 1 && s.records[0].destroyedBy == Some(Proxy)
            && s.records[0].tag == Labelled(ClientAborted)
  {
    var w := Plain(capture, Some(REFUSED), p => p == AtRespondGrpc);
    assert RequestFaultOf(w) == Some(GrpcStatus(7, None, Some(map["upgrade" := "x"])));
    RunCons(START, w, Resume, []);
    assert [Resume] + [] == [Resume];
  }
}
