/**
 * Request-stage rule evaluation (src/rules/evaluate.ts). `evaluateRequest`
 * suspends at every matcher, so one call is a machine that is resumed with the
 * matcher's verdict; between two resumptions other requests may run.
 */
module Evaluate {
  import opened Common
  import opened RuleTypes
  import opened Matchers
  import opened Consume

  datatype MatchedRule = MatchedRule(id: string, action: string, consumed: bool, remaining: Option<int>)

  datatype RequestEvaluation = RequestEvaluation(
    interceptRule: Option<Rule>,
    captureRules: seq<Rule>,
    matched: seq<MatchedRule>,
    errors: seq<string>)

  /** What became of a rule that was reached: the loop's five ways on. */
  datatype Fate = Threw | DidNotMatch | Spent | Captured | Intercepted

  datatype Visit = Visit(index: nat, fate: Fate)

  /**
   * A suspended or finished evaluation. `next` is the rule whose matcher is
   * awaited, or the number of rules once the list is exhausted. `visits` is a
   * history of the rules reached so far.
   */
  datatype Evaluation = Evaluation(
    rules: seq<Rule>,
    protocol: Protocol,
    streaming: bool,
    next: nat,
    finished: bool,
    result: RequestEvaluation,
    visits: seq<Visit>)

  /** Clock readings of one loop iteration, in the order they are taken. */
  datatype Clock = Clock(view: int, check: int, stamp: int, hit: int, remaining: int)

  const NOTHING := RequestEvaluation(None, [], [], [])

  function DescribeAction(rule: Rule): string {
    if IsObservation(rule) then "capture"
    else if rule.request.Some? && rule.request.value.action.Some? then
      match rule.request.value.action.value
      case MockResponse(_) => "mock_response"
      case RequestFault(_) => "fault"
      case RequestRewrite(_) => "request_rewrite"
    else if rule.response.Some? && rule.response.value.action.Some? then
      match rule.response.value.action.value
      case ResponseFault(_) => "fault"
      case ResponseReplace(_, _, _) => "response_replace"
      case ScriptManipulator(_, _) => "script_manipulator"
    else "delay"
  }

  predicate Eligible(rule: Rule, protocol: Protocol, streaming: bool) {
    rule.enabled && rule.protocol == protocol && !(streaming && UsesBody(rule.match_))
  }

  function NextEligible(rules: seq<Rule>, protocol: Protocol, streaming: bool, from: nat): (j: nat)
    requires from <= |rules|
    ensures from <= j <= |rules|
    ensures forall i :: from <= i < j ==> !Eligible(rules[i], protocol, streaming)
    ensures j < |rules| ==> Eligible(rules[j], protocol, streaming)
    decreases |rules| - from
  {
    if from == |rules| || Eligible(rules[from], protocol, streaming) then from
    else NextEligible(rules, protocol, streaming, from + 1)
  }

  /** Walks on from index `from` to the next suspension, which views that rule's counter. */
  function Advance(e: Evaluation, from: nat, states: Counters, clock: nat -> Clock): (Evaluation, Counters)
    requires from <= |e.rules|
  {
    var j := NextEligible(e.rules, e.protocol, e.streaming, from);
    if j == |e.rules| then (e.(next := j, finished := true), states)
    else (e.(next := j, finished := false), Viewed(states, e.rules[j], clock(j).view))
  }

  function Begin(rules: seq<Rule>, protocol: Protocol, streaming: bool, states: Counters, clock: nat -> Clock)
    : (Evaluation, Counters)
  {
    Advance(Evaluation(rules, protocol, streaming, 0, false, NOTHING, []), 0, states, clock)
  }

  predicate Suspended(e: Evaluation) {
    !e.finished && e.next < |e.rules|
  }

  /** The matched entry a rule leaves once it has been applied. */
  function Entry(rule: Rule, states: Counters): MatchedRule {
    MatchedRule(rule.id, DescribeAction(rule), rule.consume.Some?,
                if rule.consume.Some? then Some(RemainingOf(rule.consume.value, CounterOf(states, rule.id)))
                else None)
  }

  /** Counters once `rule` has been consumed, counted and read back. */
  function Applied(states: Counters, rule: Rule, t: Clock): Counters {
    var hit := HitRecorded(TryConsumed(states, rule, t.check, t.stamp).0, rule, t.hit);
    if rule.consume.Some? then Viewed(hit, rule, t.remaining) else hit
  }

  predicate Applies(fate: Fate) {
    fate == Captured || fate == Intercepted
  }

  function FateOf(rule: Rule, states: Counters, verdict: Result<bool, string>, t: Clock): Fate {
    match verdict
    case Err(_) => Threw
    case Ok(matched) =>
      if !matched then DidNotMatch
      else if !TryConsumed(states, rule, t.check, t.stamp).1 then Spent
      else if IsObservation(rule) then Captured
      else Intercepted
  }

  function Charged(rule: Rule, states: Counters, fate: Fate, t: Clock): Counters {
    if Applies(fate) then Applied(states, rule, t)
    else if fate == Spent then TryConsumed(states, rule, t.check, t.stamp).0
    else states
  }

  function Recorded(result: RequestEvaluation, rule: Rule, fate: Fate, after: Counters): RequestEvaluation {
    match fate
    case Threw => result.(errors := result.errors + [rule.id])
    case DidNotMatch => result
    case Spent => result
    case Captured =>
      result.(matched := result.matched + [Entry(rule, after)], captureRules := result.captureRules + [rule])
    case Intercepted =>
      result.(matched := result.matched + [Entry(rule, after)], interceptRule := Some(rule))
  }

  /** The awaited rule's fate is on record. */
  function Fated(e: Evaluation, fate: Fate, after: Counters): Evaluation
    requires Suspended(e)
  {
    e.(visits := e.visits + [Visit(e.next, fate)],
       result := Recorded(e.result, e.rules[e.next], fate, after),
       finished := fate == Intercepted)
  }

  /** The verdict of the awaited matcher arrives; runs up to the next suspension. */
  function Resume(e: Evaluation, states: Counters, verdict: Result<bool, string>, clock: nat -> Clock)
    : (Evaluation, Counters)
    requires Suspended(e)
  {
    var rule, t := e.rules[e.next], clock(e.next);
    var fate := FateOf(rule, states, verdict, t);
    Continue(e, fate, Charged(rule, states, fate, t), clock)
  }

  /** Goes on once the awaited rule's fate is known and paid for. */
  function Continue(e: Evaluation, fate: Fate, after: Counters, clock: nat -> Clock): (Evaluation, Counters)
    requires Suspended(e)
  {
    if fate == Intercepted then (Fated(e, fate, after), after)
    else Advance(Fated(e, fate, after), e.next + 1, after, clock)
  }

  function InputFor(rule: Rule, states: Counters, request: RequestSnapshot): MatchInput {
    var c := CounterOf(states, rule.id);
    MatchInput(RequestSide, request, None,
               RuleStateView(c.hits,
                             if rule.consume.Some? then Some(RemainingOf(rule.consume.value, c)) else None))
  }

  /** The evaluation with no other request running in between. */
  function Alone(e: Evaluation, states: Counters, request: RequestSnapshot, engines: Engines, clock: nat -> Clock)
    : (Evaluation, Counters)
    decreases |e.rules| - e.next, !e.finished
  {
    if !Suspended(e) then (e, states)
    else
      var (e', states') :=
        Resume(e, states, EvalMatcher(e.rules[e.next].match_, InputFor(e.rules[e.next], states, request), engines),
               clock);
      Alone(e', states', request, engines, clock)
  }

  /** The loop from index `from` on. */
  function Loop(e: Evaluation, from: nat, states: Counters, request: RequestSnapshot, engines: Engines,
                clock: nat -> Clock): (Evaluation, Counters)
    requires from <= |e.rules|
  {
    var (e', states') := Advance(e, from, states, clock);
    Alone(e', states', request, engines, clock)
  }

  /** The part of the loop body that follows the awaited matcher; `stop` is its `break`. */
  method Judge(rule: Rule, verdict: Result<bool, string>, before: RequestEvaluation, consume: ConsumeRegistry,
               t: Clock)
    returns (result: RequestEvaluation, stop: bool)
    modifies consume
    ensures var fate := FateOf(rule, old(consume.states), verdict, t);
            && consume.states == Charged(rule, old(consume.states), fate, t)
            && result == Recorded(before, rule, fate, consume.states)
            && stop == (fate == Intercepted)
  {
    result := before;
    stop := false;
    if verdict.Err? {
      result := result.(errors := result.errors + [rule.id]);
      return;
    }
    if !verdict.value {
      return;
    }
    var consumed := consume.TryConsume(rule, t.check, t.stamp);
    if !consumed {
      return;
    }
    consume.RecordHit(rule, t.hit);
    var remaining := consume.Remaining(rule, t.remaining);
    result := result.(matched := result.matched
                                 + [MatchedRule(rule.id, DescribeAction(rule), rule.consume.Some?, remaining)]);
    if IsObservation(rule) {
      result := result.(captureRules := result.captureRules + [rule]);
      return;
    }
    result := result.(interceptRule := Some(rule));
    stop := true;
  }

  /** The fate of a rule whose turn it is, its counter being viewed first. */
  function FateIn(rule: Rule, states: Counters, request: RequestSnapshot, engines: Engines, t: Clock): Fate {
    var before := Viewed(states, rule, t.view);
    FateOf(rule, before, EvalMatcher(rule.match_, InputFor(rule, before, request), engines), t)
  }

  /** The loop body of an eligible rule. */
  method VisitRule(rule: Rule, request: RequestSnapshot, sofar: RequestEvaluation, consume: ConsumeRegistry,
                   engines: Engines, t: Clock)
    returns (result: RequestEvaluation, stop: bool)
    modifies consume
    ensures var fate := FateIn(rule, old(consume.states), request, engines, t);
            && consume.states == Charged(rule, Viewed(old(consume.states), rule, t.view), fate, t)
            && result == Recorded(sofar, rule, fate, consume.states)
            && stop == (fate == Intercepted)
  {
    var view := consume.View(rule, t.view);
    ghost var before := consume.states;
    var input := MatchInput(RequestSide, request, None, view);
    assert input == InputFor(rule, before, request);
    var verdict := EvalMatcher(rule.match_, input, engines);
    result, stop := Judge(rule, verdict, sofar, consume, t);
  }

  /** `evaluateRequest` run by a request that is never interleaved. */
  method EvaluateRequest(rules: seq<Rule>, protocol: Protocol, streaming: bool, request: RequestSnapshot,
                         consume: ConsumeRegistry, engines: Engines, clock: nat -> Clock)
    returns (result: RequestEvaluation)
    modifies consume
    ensures var (e, states) :=
              Loop(Evaluation(rules, protocol, streaming, 0, false, NOTHING, []), 0, old(consume.states),
                   request, engines, clock);
            result == e.result && consume.states == states
  {
    result := NOTHING;
    ghost var e := Evaluation(rules, protocol, streaming, 0, false, NOTHING, []);
    ghost var goal := Loop(e, 0, consume.states, request, engines, clock);
    for i := 0 to |rules|
      invariant e.rules == rules && e.protocol == protocol && e.streaming == streaming
      invariant e.result == result && !e.finished
      invariant Loop(e, i, consume.states, request, engines, clock) == goal
    {
      var rule := rules[i];
      if !rule.enabled || rule.protocol != protocol {
        LoopSkips(e, i, consume.states, request, engines, clock);
        continue;
      }
      if streaming {
        var usesBody := MatcherUsesBody(rule.match_);
        if usesBody {
          LoopSkips(e, i, consume.states, request, engines, clock);
          continue;
        }
      }
      LoopPauses(e, i, consume.states, request, engines, clock);
      ghost var fate := FateIn(rule, consume.states, request, engines, clock(i));
      var stop;
      result, stop := VisitRule(rule, request, result, consume, engines, clock(i));
      e := Fated(e.(next := i), fate, consume.states);
      if stop {
        break;
      }
    }
  }

  // ---- the response side

  /** The answer of `evaluateResponseMatch`. */
  datatype ResponseMatch = ResponseMatch(matched: bool, error: Option<string>)

  function ResponseVerdict(rule: Rule, states: Counters, request: RequestSnapshot, response: ResponseSnapshot,
                           engines: Engines): ResponseMatch
  {
    if rule.response.None? || rule.response.value.match_.None? then ResponseMatch(true, None)
    else
      var input := InputFor(rule, states, request).(stage := ResponseSide, response := Some(response));
      match EvalMatcher(rule.response.value.match_.value, input, engines)
      case Ok(matched) => ResponseMatch(matched, None)
      case Err(e) => ResponseMatch(false, Some(e))
  }

  /** A missing matcher matches; one that throws does not, and neither consumes anything. */
  method EvaluateResponseMatch(rule: Rule, request: RequestSnapshot, response: ResponseSnapshot,
                               consume: ConsumeRegistry, engines: Engines, at: int)
    returns (r: ResponseMatch)
    modifies consume
    ensures rule.response.None? || rule.response.value.match_.None? ==> consume.states == old(consume.states)
    ensures rule.response.Some? && rule.response.value.match_.Some? ==>
              consume.states == Viewed(old(consume.states), rule, at)
    ensures r == ResponseVerdict(rule, consume.states, request, response, engines)
  {
    if rule.response.None? || rule.response.value.match_.None? {
      return ResponseMatch(true, None);
    }
    var view := consume.View(rule, at);
    var input := MatchInput(ResponseSide, request, Some(response), view);
    assert input == InputFor(rule, consume.states, request).(stage := ResponseSide, response := Some(response));
    match EvalMatcher(rule.response.value.match_.value, input, engines) {
      case Ok(matched) => return ResponseMatch(matched, None);
      case Err(e) => return ResponseMatch(false, Some(e));
    }
  }

  /** A rule whose response matcher uses no trailers gets the same answer before and after they arrive. */
  lemma SameBeforeTrailers(rule: Rule, states: Counters, request: RequestSnapshot, early: ResponseSnapshot,
                           late: ResponseSnapshot, engines: Engines)
    requires SameButTrailers(early, late)
    requires rule.response.Some? && rule.response.value.match_.Some? ==> !UsesTrailers(rule.response.value.match_.value)
    ensures ResponseVerdict(rule, states, request, early, engines) == ResponseVerdict(rule, states, request, late, engines)
  {
    if rule.response.Some? && rule.response.value.match_.Some? {
      var input := InputFor(rule, states, request).(stage := ResponseSide);
      TrailersUnseen(rule.response.value.match_.value, input, early, late, engines);
    }
  }

  lemma LoopSkips(e: Evaluation, i: nat, states: Counters, request: RequestSnapshot, engines: Engines,
                  clock: nat -> Clock)
    requires i < |e.rules| && !Eligible(e.rules[i], e.protocol, e.streaming)
    ensures Loop(e, i, states, request, engines, clock) == Loop(e, i + 1, states, request, engines, clock)
  {
  }

  /** One full iteration of the loop, suspension included. */
  lemma LoopPauses(e: Evaluation, i: nat, states: Counters, request: RequestSnapshot, engines: Engines,
                   clock: nat -> Clock)
    requires i < |e.rules| && Eligible(e.rules[i], e.protocol, e.streaming) && !e.finished
    ensures var rule, t := e.rules[i], clock(i);
            var before := Viewed(states, rule, t.view);
            var fate := FateIn(rule, states, request, engines, t);
            var after := Charged(rule, before, fate, t);
            var f := Fated(e.(next := i), fate, after);
            Loop(e, i, states, request, engines, clock) ==
            if fate == Intercepted then (f, after) else Loop(f, i + 1, after, request, engines, clock)
  {
    var paused := e.(next := i);
    assert Advance(e, i, states, clock) == (paused, Viewed(states, e.rules[i], clock(i).view));
    AloneStep(paused, Viewed(states, e.rules[i], clock(i).view), request, engines, clock);
  }

  lemma AloneStep(e: Evaluation, states: Counters, request: RequestSnapshot, engines: Engines, clock: nat -> Clock)
    requires Suspended(e)
    ensures var rule, t := e.rules[e.next], clock(e.next);
            var verdict := EvalMatcher(rule.match_, InputFor(rule, states, request), engines);
            var fate := FateOf(rule, states, verdict, t);
            var after := Charged(rule, states, fate, t);
            Alone(e, states, request, engines, clock) ==
            if fate == Intercepted then (Fated(e, fate, after), after)
            else Loop(Fated(e, fate, after), e.next + 1, after, request, engines, clock)
  {
    var rule, t := e.rules[e.next], clock(e.next);
    var fate := FateOf(rule, states, EvalMatcher(rule.match_, InputFor(rule, states, request), engines), t);
    AloneContinues(e, fate, Charged(rule, states, fate, t), request, engines, clock);
  }

  lemma AloneContinues(e: Evaluation, fate: Fate, after: Counters, request: RequestSnapshot, engines: Engines,
                       clock: nat -> Clock)
    requires Suspended(e)
    ensures var (e', states') := Continue(e, fate, after, clock);
            Alone(e', states', request, engines, clock) ==
            if fate == Intercepted then (Fated(e, fate, after), after)
            else Loop(Fated(e, fate, after), e.next + 1, after, request, engines, clock)
  {
  }

  // ---- many requests at once

  datatype System = System(requests: seq<Evaluation>, states: Counters)

  /**
   * One synchronous stretch of the event loop: a request arrives, a request is
   * resumed, something else reads a counter, or a counter is dropped. The last
   * is what the store's callback does with every rule that is updated, deleted
   * or replaced by an import, and what a reset through the admin API does.
   */
  datatype Event =
    | Arrive(rules: seq<Rule>, protocol: Protocol, streaming: bool, clock: nat -> Clock)
    | Deliver(who: nat, verdict: Result<bool, string>, clock: nat -> Clock)
    | Look(rule: Rule, at: int)
    | Forget(id: string)

  predicate Runs(s: System, ev: Event) {
    ev.Deliver? ==> ev.who < |s.requests| && Suspended(s.requests[ev.who])
  }

  function Step(s: System, ev: Event): System {
    if !Runs(s, ev) then s
    else match ev
      case Arrive(rules, protocol, streaming, clock) =>
        var (e, states) := Begin(rules, protocol, streaming, s.states, clock);
        System(s.requests + [e], states)
      case Deliver(who, verdict, clock) =>
        var (e, states) := Resume(s.requests[who], s.states, verdict, clock);
        System(s.requests[who := e], states)
      case Look(rule, at) => s.(states := Viewed(s.states, rule, at))
      case Forget(id) => s.(states := s.states - {id})
  }

  function RunAll(s: System, events: seq<Event>): System
    decreases |events|
  {
    if events == [] then s else RunAll(Step(s, events[0]), events[1..])
  }

  const QUIET := System([], map[])

  function Count(matched: seq<MatchedRule>, id: string): nat {
    if matched == [] then 0
    else (if matched[|matched| - 1].id == id then 1 else 0) + Count(matched[..|matched| - 1], id)
  }

  /** Matched entries for a rule over all requests, finished or not. */
  function Total(requests: seq<Evaluation>, id: string): nat {
    if requests == [] then 0
    else Count(requests[0].result.matched, id) + Total(requests[1..], id)
  }

  lemma CountAppend(matched: seq<MatchedRule>, m: MatchedRule, id: string)
    ensures Count(matched + [m], id) == Count(matched, id) + (if m.id == id then 1 else 0)
  {
    assert (matched + [m])[..|matched|] == matched;
  }

  lemma {:induction false} TotalAppend(requests: seq<Evaluation>, e: Evaluation, id: string)
    ensures Total(requests + [e], id) == Total(requests, id) + Count(e.result.matched, id)
    decreases |requests|
  {
    if requests == [] {
      assert requests + [e] == [e] && [e][1..] == [];
    } else {
      assert (requests + [e])[1..] == requests[1..] + [e];
      TotalAppend(requests[1..], e, id);
    }
  }

  lemma {:induction false} TotalUpdate(requests: seq<Evaluation>, who: nat, e: Evaluation, id: string)
    requires who < |requests|
    ensures Total(requests[who := e], id)
            == Total(requests, id) - Count(requests[who].result.matched, id) + Count(e.result.matched, id)
    decreases |requests|
  {
    if who == 0 {
      assert requests[who := e][1..] == requests[1..];
    } else {
      assert requests[who := e][1..] == requests[1..][who - 1 := e];
      TotalUpdate(requests[1..], who - 1, e, id);
    }
  }

  /** `rule` is the only rule of its id anywhere in the list. */
  predicate OnlyVersion(rule: Rule, rules: seq<Rule>) {
    forall i :: 0 <= i < |rules| && rules[i].id == rule.id ==> rules[i] == rule
  }

  predicate FixedIn(rule: Rule, events: seq<Event>) {
    forall i :: 0 <= i < |events| ==>
      match events[i]
      case Arrive(rules, _, _, _) => OnlyVersion(rule, rules)
      case Look(r, _) => r.id == rule.id ==> r == rule
      case Deliver(_, _, _) => true
      case Forget(_) => true
  }

  /** A consumable rule whose counter never resets by itself. */
  predicate Budgeted(rule: Rule) {
    rule.consume.Some? && rule.consume.value.resetAfterMs.None? && rule.consume.value.times >= 0
  }

  /** The matched entries for `id` at the time its counter was last dropped; `base` if that does not happen. */
  function MatchedAtReset(s: System, events: seq<Event>, id: string, base: nat): nat
    decreases |events|
  {
    if events == [] then base
    else
      MatchedAtReset(Step(s, events[0]), events[1..], id,
                     if events[0] == Forget(id) then Total(s.requests, id) else base)
  }

  lemma {:induction false} NeverReset(s: System, events: seq<Event>, id: string, base: nat)
    requires forall i :: 0 <= i < |events| ==> events[i] != Forget(id)
    ensures MatchedAtReset(s, events, id, base) == base
    decreases |events|
  {
    if events != [] {
      NeverReset(Step(s, events[0]), events[1..], id, base);
    }
  }

  /** Beyond the `base` entries of earlier counters, matched entries, `consumed` and `hits` are the same number. */
  predicate Balanced(s: System, rule: Rule, base: nat) {
    && (forall i :: 0 <= i < |s.requests| ==> OnlyVersion(rule, s.requests[i].rules))
    && Total(s.requests, rule.id) == base + CounterOf(s.states, rule.id).consumed
    && CounterOf(s.states, rule.id).consumed == CounterOf(s.states, rule.id).hits
    && (rule.consume.Some? ==> CounterOf(s.states, rule.id).consumed <= rule.consume.value.times)
  }

  lemma AdvanceKeeps(e: Evaluation, from: nat, states: Counters, clock: nat -> Clock, rule: Rule)
    requires from <= |e.rules| && OnlyVersion(rule, e.rules) && Budgeted(rule)
    ensures var (e', states') := Advance(e, from, states, clock);
            && e'.rules == e.rules && e'.result == e.result
            && CounterOf(states', rule.id) == CounterOf(states, rule.id)
  {
  }

  /** What one application of the awaited rule costs the counter of `rule`. */
  lemma ChargeExact(current: Rule, states: Counters, verdict: Result<bool, string>, t: Clock, rule: Rule)
    requires Budgeted(rule) && (current.id == rule.id ==> current == rule)
    requires CounterOf(states, rule.id).consumed <= rule.consume.value.times
    ensures var fate := FateOf(current, states, verdict, t);
            var c, c' := CounterOf(states, rule.id), CounterOf(Charged(current, states, fate, t), rule.id);
            var n := if Applies(fate) && current.id == rule.id then 1 else 0;
            c'.consumed == c.consumed + n && c'.hits == c.hits + n && c'.consumed <= rule.consume.value.times
  {
  }

  lemma FatedCount(e: Evaluation, fate: Fate, after: Counters, id: string)
    requires Suspended(e)
    ensures Count(Fated(e, fate, after).result.matched, id)
            == Count(e.result.matched, id) + if Applies(fate) && e.rules[e.next].id == id then 1 else 0
  {
    CountAppend(e.result.matched, Entry(e.rules[e.next], after), id);
  }

  /** What becomes of the counter between the charge and the next suspension: nothing. */
  lemma ContinueCharges(e: Evaluation, fate: Fate, after: Counters, clock: nat -> Clock, rule: Rule)
    requires Suspended(e) && OnlyVersion(rule, e.rules) && Budgeted(rule)
    ensures var (e', states') := Continue(e, fate, after, clock);
            && e'.rules == e.rules && CounterOf(states', rule.id) == CounterOf(after, rule.id)
            && e'.result == Fated(e, fate, after).result
  {
    if fate != Intercepted {
      AdvanceKeeps(Fated(e, fate, after), e.next + 1, after, clock, rule);
    }
  }

  /** One resumption charges the rule exactly when it adds a matched entry for it. */
  lemma ResumeCharges(e: Evaluation, states: Counters, verdict: Result<bool, string>, clock: nat -> Clock, rule: Rule)
    requires Suspended(e) && OnlyVersion(rule, e.rules) && Budgeted(rule)
    requires CounterOf(states, rule.id).consumed <= rule.consume.value.times
    ensures var (e', states') := Resume(e, states, verdict, clock);
            var n := Count(e'.result.matched, rule.id) - Count(e.result.matched, rule.id);
            var c, c' := CounterOf(states, rule.id), CounterOf(states', rule.id);
            && e'.rules == e.rules && n >= 0
            && c'.consumed == c.consumed + n && c'.hits == c.hits + n
            && c'.consumed <= rule.consume.value.times
  {
    var current, t := e.rules[e.next], clock(e.next);
    var fate := FateOf(current, states, verdict, t);
    ChargeExact(current, states, verdict, t, rule);
    ContinueCharges(e, fate, Charged(current, states, fate, t), clock, rule);
    FatedCount(e, fate, Charged(current, states, fate, t), rule.id);
  }

  lemma StepBalanced(s: System, ev: Event, rule: Rule, base: nat)
    requires Balanced(s, rule, base) && Budgeted(rule) && FixedIn(rule, [ev])
    ensures Balanced(Step(s, ev), rule, if ev == Forget(rule.id) then Total(s.requests, rule.id) else base)
  {
    assert [ev][0] == ev;
    if Runs(s, ev) {
      match ev
      case Arrive(rules, protocol, streaming, clock) =>
        var (e, states) := Begin(rules, protocol, streaming, s.states, clock);
        AdvanceKeeps(Evaluation(rules, protocol, streaming, 0, false, NOTHING, []), 0, s.states, clock, rule);
        TotalAppend(s.requests, e, rule.id);
      case Deliver(who, verdict, clock) =>
        ResumeCharges(s.requests[who], s.states, verdict, clock, rule);
        TotalUpdate(s.requests, who, Resume(s.requests[who], s.states, verdict, clock).0, rule.id);
      case Look(r, at) =>
      case Forget(id) =>
    }
  }

  lemma {:induction false} RunBalanced(s: System, events: seq<Event>, rule: Rule, base: nat)
    requires Balanced(s, rule, base) && Budgeted(rule) && FixedIn(rule, events)
    ensures Balanced(RunAll(s, events), rule, MatchedAtReset(s, events, rule.id, base))
    decreases |events|
  {
    if events != [] {
      assert [events[0]][0] == events[0];
      StepBalanced(s, events[0], rule, base);
      RunBalanced(Step(s, events[0]), events[1..], rule,
                  if events[0] == Forget(rule.id) then Total(s.requests, rule.id) else base);
    }
  }

  /**
   * However many requests evaluate at once and however they interleave, a
   * consumable rule is applied once per unit consumed, and never beyond `times`
   * between two resets of its counter.
   */
  lemma SharedBudget(events: seq<Event>, rule: Rule)
    requires Budgeted(rule) && FixedIn(rule, events)
    ensures var s := RunAll(QUIET, events);
            var c := CounterOf(s.states, rule.id);
            var earlier := MatchedAtReset(QUIET, events, rule.id, 0);
            && Total(s.requests, rule.id) - earlier == c.consumed == c.hits <= rule.consume.value.times
            && ((forall i :: 0 <= i < |events| ==> events[i] != Forget(rule.id)) ==> earlier == 0)
  {
    RunBalanced(QUIET, events, rule, 0);
    if forall i :: 0 <= i < |events| ==> events[i] != Forget(rule.id) {
      NeverReset(QUIET, events, rule.id, 0);
    }
  }

  // ---- hits survive the lazy reset, but not the dropping of the counter

  lemma AdvanceKeepsHits(e: Evaluation, from: nat, states: Counters, clock: nat -> Clock, id: string)
    requires from <= |e.rules|
    ensures var (e', states') := Advance(e, from, states, clock);
            e'.result == e.result && CounterOf(states', id).hits == CounterOf(states, id).hits
  {
  }

  lemma ChargeHits(current: Rule, states: Counters, fate: Fate, t: Clock, id: string)
    ensures CounterOf(Charged(current, states, fate, t), id).hits
            == CounterOf(states, id).hits + if Applies(fate) && current.id == id then 1 else 0
  {
  }

  lemma ContinueHits(e: Evaluation, fate: Fate, after: Counters, clock: nat -> Clock, id: string)
    requires Suspended(e)
    ensures var (e', states') := Continue(e, fate, after, clock);
            && CounterOf(states', id).hits == CounterOf(after, id).hits
            && e'.result == Fated(e, fate, after).result
  {
    if fate != Intercepted {
      AdvanceKeepsHits(Fated(e, fate, after), e.next + 1, after, clock, id);
    }
  }

  lemma ResumeHits(e: Evaluation, states: Counters, verdict: Result<bool, string>, clock: nat -> Clock, id: string)
    requires Suspended(e)
    ensures var (e', states') := Resume(e, states, verdict, clock);
            CounterOf(states', id).hits - CounterOf(states, id).hits
            == Count(e'.result.matched, id) - Count(e.result.matched, id)
  {
    var current, t := e.rules[e.next], clock(e.next);
    var fate := FateOf(current, states, verdict, t);
    var after := Charged(current, states, fate, t);
    ChargeHits(current, states, fate, t, id);
    ContinueHits(e, fate, after, clock, id);
    FatedCount(e, fate, after, id);
  }

  /** What a step does to the matched entries for `id`, it does to its hits, unless it drops the counter. */
  lemma StepHits(s: System, ev: Event, id: string)
    ensures var t := Step(s, ev);
            if ev == Forget(id) then
              Total(t.requests, id) == Total(s.requests, id) && CounterOf(t.states, id).hits == 0
            else
              Total(t.requests, id) - Total(s.requests, id)
              == CounterOf(t.states, id).hits - CounterOf(s.states, id).hits
  {
    if Runs(s, ev) {
      match ev
      case Arrive(rules, protocol, streaming, clock) =>
        AdvanceKeepsHits(Evaluation(rules, protocol, streaming, 0, false, NOTHING, []), 0, s.states, clock, id);
        TotalAppend(s.requests, Begin(rules, protocol, streaming, s.states, clock).0, id);
      case Deliver(who, verdict, clock) =>
        ResumeHits(s.requests[who], s.states, verdict, clock, id);
        TotalUpdate(s.requests, who, Resume(s.requests[who], s.states, verdict, clock).0, id);
      case Look(r, at) =>
      case Forget(other) =>
    }
  }

  /** From any state, over any events that do not drop the counter of `id`, entries and hits grow alike. */
  lemma {:induction false} HitsGrowWithMatches(s: System, events: seq<Event>, id: string)
    requires forall i :: 0 <= i < |events| ==> events[i] != Forget(id)
    ensures var t := RunAll(s, events);
            Total(t.requests, id) - Total(s.requests, id)
            == CounterOf(t.states, id).hits - CounterOf(s.states, id).hits
    decreases |events|
  {
    if events != [] {
      StepHits(s, events[0], id);
      HitsGrowWithMatches(Step(s, events[0]), events[1..], id);
    }
  }

  lemma {:induction false} HitsSinceReset(s: System, events: seq<Event>, id: string, base: nat)
    requires Total(s.requests, id) == base + CounterOf(s.states, id).hits
    ensures var t := RunAll(s, events);
            Total(t.requests, id) == MatchedAtReset(s, events, id, base) + CounterOf(t.states, id).hits
    decreases |events|
  {
    if events != [] {
      StepHits(s, events[0], id);
      HitsSinceReset(Step(s, events[0]), events[1..], id,
                     if events[0] == Forget(id) then Total(s.requests, id) else base);
    }
  }

  /**
   * For every rule id, with or without a consume spec and whatever its lazy
   * resets: the hits are the matched entries over all requests that were made
   * since the counter was last dropped, by an edit of the rule or by hand.
   */
  lemma MatchedAreHits(events: seq<Event>, id: string)
    ensures var s := RunAll(QUIET, events);
            Total(s.requests, id) - MatchedAtReset(QUIET, events, id, 0) == CounterOf(s.states, id).hits
  {
    HitsSinceReset(QUIET, events, id, 0);
  }

  // ---- the first intercept rule wins

  /** How a rule that the loop reached must fare, given that its matcher said `fate`. */
  predicate FateFits(rule: Rule, fate: Fate) {
    (fate == Captured ==> IsObservation(rule)) && (fate == Intercepted ==> !IsObservation(rule))
  }

  /** The rules, in the order they were reached, that met one of the given fates. */
  function Picked(rules: seq<Rule>, visits: seq<Visit>, fates: set<Fate>): seq<Rule> {
    if visits == [] then []
    else
      var last := visits[|visits| - 1];
      Picked(rules, visits[..|visits| - 1], fates)
      + (if last.fate in fates && last.index < |rules| then [rules[last.index]] else [])
  }

  function RuleIds(rules: seq<Rule>): seq<string> {
    seq(|rules|, i requires 0 <= i < |rules| => rules[i].id)
  }

  function MatchedIds(matched: seq<MatchedRule>): seq<string> {
    seq(|matched|, i requires 0 <= i < |matched| => matched[i].id)
  }

  predicate Visited(e: Evaluation, i: nat) {
    exists v :: 0 <= v < |e.visits| && e.visits[v].index == i
  }

  /** The rules below `limit` were reached in order, each eligible one exactly once. */
  predicate InOrder(e: Evaluation, limit: nat) {
    && limit <= |e.rules|
    && (forall v :: 0 <= v < |e.visits| ==>
          e.visits[v].index < limit && Eligible(e.rules[e.visits[v].index], e.protocol, e.streaming)
          && FateFits(e.rules[e.visits[v].index], e.visits[v].fate))
    && (forall v, w :: 0 <= v < w < |e.visits| ==> e.visits[v].index < e.visits[w].index)
    && (forall i {:trigger Visited(e, i)} ::
          0 <= i < limit && Eligible(e.rules[i], e.protocol, e.streaming) ==> Visited(e, i))
  }

  /** Captures, matched entries and errors list exactly the rules with that fate, in order. */
  predicate Reported(e: Evaluation) {
    && e.result.captureRules == Picked(e.rules, e.visits, {Captured})
    && MatchedIds(e.result.matched) == RuleIds(Picked(e.rules, e.visits, {Captured, Intercepted}))
    && e.result.errors == RuleIds(Picked(e.rules, e.visits, {Threw}))
  }

  /** No rule reached so far intercepted. */
  predicate Open(e: Evaluation, limit: nat) {
    && InOrder(e, limit) && Reported(e) && e.result.interceptRule == None
    && forall v :: 0 <= v < |e.visits| ==> e.visits[v].fate != Intercepted
  }

  /** Evaluation ended at rule `next`, the first one that intercepted. */
  predicate Won(e: Evaluation) {
    && e.finished && e.next < |e.rules| && InOrder(e, e.next + 1) && Reported(e)
    && e.result.interceptRule == Some(e.rules[e.next])
    && |e.visits| > 0 && e.visits[|e.visits| - 1] == Visit(e.next, Intercepted)
    && forall v :: 0 <= v < |e.visits| - 1 ==> e.visits[v].fate != Intercepted
  }

  /** What holds of every evaluation, suspended or finished. */
  predicate Faithful(e: Evaluation) {
    match e.result.interceptRule
    case Some(_) => Won(e)
    case None =>
      && Open(e, e.next) && (e.finished <==> e.next == |e.rules|)
      && (Suspended(e) ==> Eligible(e.rules[e.next], e.protocol, e.streaming))
  }

  lemma AdvanceFaithful(e: Evaluation, from: nat, states: Counters, clock: nat -> Clock)
    requires from <= |e.rules| && Open(e, from)
    ensures Faithful(Advance(e, from, states, clock).0)
  {
    var e' := Advance(e, from, states, clock).0;
    assert e'.visits == e.visits;
    forall i | 0 <= i < e'.next && Eligible(e'.rules[i], e'.protocol, e'.streaming) ensures Visited(e', i) {
      assert Visited(e, i);
    }
  }

  lemma FatedInOrder(e: Evaluation, fate: Fate, after: Counters)
    requires Suspended(e) && InOrder(e, e.next) && Eligible(e.rules[e.next], e.protocol, e.streaming)
    requires FateFits(e.rules[e.next], fate)
    ensures InOrder(Fated(e, fate, after), e.next + 1)
  {
    var f := Fated(e, fate, after);
    forall i | 0 <= i < e.next + 1 && Eligible(f.rules[i], f.protocol, f.streaming) ensures Visited(f, i) {
      if i < e.next {
        assert Visited(e, i);
        var v :| 0 <= v < |e.visits| && e.visits[v].index == i;
        assert f.visits[v].index == i;
      } else {
        assert f.visits[|e.visits|].index == i;
      }
    }
  }

  lemma RuleIdsAppend(rules: seq<Rule>, rule: Rule)
    ensures RuleIds(rules + [rule]) == RuleIds(rules) + [rule.id]
  {
  }

  lemma FatedReports(e: Evaluation, fate: Fate, after: Counters)
    requires Suspended(e) && Reported(e)
    ensures Reported(Fated(e, fate, after))
  {
    var f, rule := Fated(e, fate, after), e.rules[e.next];
    assert f.visits[..|f.visits| - 1] == e.visits;
    assert f.visits[|f.visits| - 1] == Visit(e.next, fate);
    forall fates: set<Fate>
      ensures Picked(f.rules, f.visits, fates)
              == Picked(e.rules, e.visits, fates) + (if fate in fates then [rule] else [])
    {
    }
    RuleIdsAppend(Picked(e.rules, e.visits, {Captured, Intercepted}), rule);
    RuleIdsAppend(Picked(e.rules, e.visits, {Threw}), rule);
    if Applies(fate) {
      assert MatchedIds(f.result.matched) == MatchedIds(e.result.matched) + [rule.id];
    }
  }

  lemma FatedOpen(e: Evaluation, fate: Fate, after: Counters)
    requires Suspended(e) && Open(e, e.next) && Eligible(e.rules[e.next], e.protocol, e.streaming)
    requires FateFits(e.rules[e.next], fate) && fate != Intercepted
    ensures Open(Fated(e, fate, after), e.next + 1)
  {
    FatedInOrder(e, fate, after);
    FatedReports(e, fate, after);
  }

  lemma FatedWon(e: Evaluation, after: Counters)
    requires Suspended(e) && Open(e, e.next) && Eligible(e.rules[e.next], e.protocol, e.streaming)
    requires !IsObservation(e.rules[e.next])
    ensures Won(Fated(e, Intercepted, after))
  {
    FatedInOrder(e, Intercepted, after);
    FatedReports(e, Intercepted, after);
  }

  lemma FatesFit(rule: Rule, states: Counters, verdict: Result<bool, string>, t: Clock)
    ensures FateFits(rule, FateOf(rule, states, verdict, t))
  {
  }

  lemma WonFaithful(e: Evaluation)
    requires Won(e)
    ensures Faithful(e)
  {
  }

  lemma InterceptFaithful(e: Evaluation, after: Counters, clock: nat -> Clock)
    requires Suspended(e) && Open(e, e.next) && Eligible(e.rules[e.next], e.protocol, e.streaming)
    requires FateFits(e.rules[e.next], Intercepted)
    ensures Faithful(Continue(e, Intercepted, after, clock).0)
  {
    FatedWon(e, after);
    WonFaithful(Fated(e, Intercepted, after));
  }

  lemma ContinueIsAdvance(e: Evaluation, fate: Fate, after: Counters, clock: nat -> Clock)
    requires Suspended(e) && fate != Intercepted
    ensures Continue(e, fate, after, clock) == Advance(Fated(e, fate, after), e.next + 1, after, clock)
  {
  }

  lemma PassFaithful(e: Evaluation, fate: Fate, after: Counters, clock: nat -> Clock)
    requires Suspended(e) && Open(e, e.next) && Eligible(e.rules[e.next], e.protocol, e.streaming)
    requires FateFits(e.rules[e.next], fate) && fate != Intercepted
    ensures Faithful(Advance(Fated(e, fate, after), e.next + 1, after, clock).0)
  {
    FatedOpen(e, fate, after);
    AdvanceFaithful(Fated(e, fate, after), e.next + 1, after, clock);
  }

  lemma ResumeFaithful(e: Evaluation, states: Counters, verdict: Result<bool, string>, clock: nat -> Clock)
    requires Suspended(e) && Faithful(e)
    ensures Faithful(Resume(e, states, verdict, clock).0)
  {
    var rule, t := e.rules[e.next], clock(e.next);
    var fate := FateOf(rule, states, verdict, t);
    FatesFit(rule, states, verdict, t);
    if fate == Intercepted {
      InterceptFaithful(e, Charged(rule, states, fate, t), clock);
    } else {
      PassFaithful(e, fate, Charged(rule, states, fate, t), clock);
      ContinueIsAdvance(e, fate, Charged(rule, states, fate, t), clock);
    }
  }

  /**
   * In every reachable system each request has reached the eligible rules in
   * list order, captured every matching observation rule and stopped at the
   * first matching intercept rule.
   */
  lemma {:induction false} FirstInterceptWins(s: System, events: seq<Event>)
    requires forall i :: 0 <= i < |s.requests| ==> Faithful(s.requests[i])
    ensures forall i :: 0 <= i < |RunAll(s, events).requests| ==> Faithful(RunAll(s, events).requests[i])
    decreases |events|
  {
    if events != [] {
      var ev := events[0];
      if Runs(s, ev) {
        match ev
        case Arrive(rules, protocol, streaming, clock) =>
          var blank := Evaluation(rules, protocol, streaming, 0, false, NOTHING, []);
          assert Open(blank, 0);
          AdvanceFaithful(blank, 0, s.states, clock);
        case Deliver(who, verdict, clock) => ResumeFaithful(s.requests[who], s.states, verdict, clock);
        case Look(_, _) =>
        case Forget(_) =>
      }
      FirstInterceptWins(Step(s, ev), events[1..]);
    }
  }

  // ---- what a request leaves alone

  predicate SameAt(before: Counters, after: Counters, id: string) {
    (id in before <==> id in after) && (id in before ==> before[id] == after[id])
  }

  predicate ActsFor(s: System, ev: Event, who: nat) {
    (ev.Deliver? && ev.who == who) || (ev.Arrive? && who == |s.requests|)
  }

  /** None of the steps taken for request `who` touches the counter of `id`. */
  predicate LeavesAlone(s: System, events: seq<Event>, who: nat, id: string)
    decreases |events|
  {
    events == [] ||
    ((ActsFor(s, events[0], who) ==> SameAt(s.states, Step(s, events[0]).states, id))
     && LeavesAlone(Step(s, events[0]), events[1..], who, id))
  }

  lemma StepForward(s: System, ev: Event, who: nat)
    requires who < |s.requests|
    ensures var s' := Step(s, ev);
            && who < |s'.requests| && s'.requests[who].rules == s.requests[who].rules
            && s.requests[who].next <= s'.requests[who].next
            && (!Suspended(s.requests[who]) ==> s'.requests[who] == s.requests[who])
  {
  }

  /** Rules never change under a request and the scan never goes back. */
  lemma {:induction false} ScanForward(s: System, events: seq<Event>, who: nat)
    requires who < |s.requests|
    ensures var s' := RunAll(s, events);
            && who < |s'.requests| && s'.requests[who].rules == s.requests[who].rules
            && s.requests[who].next <= s'.requests[who].next
    decreases |events|
  {
    if events != [] {
      StepForward(s, events[0], who);
      ScanForward(Step(s, events[0]), events[1..], who);
    }
  }

  lemma ResumeTouches(e: Evaluation, states: Counters, verdict: Result<bool, string>, clock: nat -> Clock, id: string)
    requires Suspended(e) && e.rules[e.next].id != id
    requires var e' := Resume(e, states, verdict, clock).0; e'.next < |e.rules| ==> e.rules[e'.next].id != id
    ensures SameAt(states, Resume(e, states, verdict, clock).1, id)
  {
    var rule, t := e.rules[e.next], clock(e.next);
    var fate := FateOf(rule, states, verdict, t);
    assert SameAt(states, Charged(rule, states, fate, t), id);
  }

  lemma StepTouches(s: System, ev: Event, who: nat, id: string)
    requires ActsFor(s, ev, who) && Runs(s, ev)
    requires var e := Step(s, ev).requests[who];
             && (e.next < |e.rules| ==> e.rules[e.next].id != id)
             && (who < |s.requests| ==> s.requests[who].next < |s.requests[who].rules|
                                        && s.requests[who].rules[s.requests[who].next].id != id)
    ensures SameAt(s.states, Step(s, ev).states, id)
  {
    if ev.Deliver? {
      ResumeTouches(s.requests[who], s.states, ev.verdict, ev.clock, id);
    }
  }

  /** A request touches no counter of a rule past its intercept rule. */
  lemma {:induction false} PastInterceptUntouched(s: System, events: seq<Event>, who: nat, id: string)
    requires var s' := RunAll(s, events);
             && who < |s'.requests| && s'.requests[who].result.interceptRule.Some?
             && s'.requests[who].next < |s'.requests[who].rules|
             && forall i :: 0 <= i <= s'.requests[who].next ==> s'.requests[who].rules[i].id != id
    ensures LeavesAlone(s, events, who, id)
    decreases |events|
  {
    if events != [] {
      var after := Step(s, events[0]);
      PastInterceptUntouched(after, events[1..], who, id);
      if ActsFor(s, events[0], who) && Runs(s, events[0]) {
        ScanForward(after, events[1..], who);
        if events[0].Deliver? {
          StepForward(s, events[0], who);
        }
        StepTouches(s, events[0], who, id);
      }
    }
  }

  // ---- streaming evaluation is blind to the body

  lemma {:induction false} AloneBodyBlind(e: Evaluation, states: Counters, left: RequestSnapshot,
                                          right: RequestSnapshot, engines: Engines, clock: nat -> Clock)
    requires e.streaming && SameButBody(left, right)
    requires forall i :: 0 <= i < |e.rules| ==> !HasScript(e.rules[i].match_)
    requires Suspended(e) ==> Eligible(e.rules[e.next], e.protocol, e.streaming)
    ensures Alone(e, states, left, engines, clock) == Alone(e, states, right, engines, clock)
    decreases |e.rules| - e.next, !e.finished
  {
    if Suspended(e) {
      var rule := e.rules[e.next];
      BodyUnseen(rule.match_, InputFor(rule, states, left), InputFor(rule, states, right), engines);
      var verdict := EvalMatcher(rule.match_, InputFor(rule, states, left), engines);
      var (e', states') := Resume(e, states, verdict, clock);
      AloneBodyBlind(e', states', left, right, engines, clock);
    }
  }

  /**
   * With no script matcher, streaming evaluation gives the same intercept,
   * captures, matched list and counters with and without a request body.
   */
  lemma StreamingBodyBlind(rules: seq<Rule>, protocol: Protocol, states: Counters, left: RequestSnapshot,
                           right: RequestSnapshot, engines: Engines, clock: nat -> Clock)
    requires SameButBody(left, right)
    requires forall i :: 0 <= i < |rules| ==> !HasScript(rules[i].match_)
    ensures var e := Evaluation(rules, protocol, true, 0, false, NOTHING, []);
            Loop(e, 0, states, left, engines, clock) == Loop(e, 0, states, right, engines, clock)
  {
    var e := Evaluation(rules, protocol, true, 0, false, NOTHING, []);
    var (e', states') := Advance(e, 0, states, clock);
    AloneBodyBlind(e', states', left, right, engines, clock);
  }

  // ---- also when requests interleave

  /** As `Event`, but the verdict is what the awaited matcher says of the request's own snapshot. */
  datatype Move =
    | Come(rules: seq<Rule>, protocol: Protocol, clock: nat -> Clock)
    | Answer(who: nat, view: RuleStateView, clock: nat -> Clock)
    | Glance(rule: Rule, at: int)
    | Erase(id: string)

  /** Streaming requests only; request `who` carries the snapshot `requests[who]`. */
  function EventOf(s: System, move: Move, requests: seq<RequestSnapshot>, engines: Engines): Event {
    match move
    case Come(rules, protocol, clock) => Arrive(rules, protocol, true, clock)
    case Answer(who, view, clock) =>
      Deliver(who,
              if who < |s.requests| && who < |requests| && Suspended(s.requests[who]) then
                EvalMatcher(s.requests[who].rules[s.requests[who].next].match_,
                            MatchInput(RequestSide, requests[who], None, view), engines)
              else Ok(false),
              clock)
    case Glance(rule, at) => Look(rule, at)
    case Erase(id) => Forget(id)
  }

  function PlayAll(s: System, moves: seq<Move>, requests: seq<RequestSnapshot>, engines: Engines): System
    decreases |moves|
  {
    if moves == [] then s
    else PlayAll(Step(s, EventOf(s, moves[0], requests, engines)), moves[1..], requests, engines)
  }

  predicate NoScripts(rules: seq<Rule>) {
    forall i :: 0 <= i < |rules| ==> !HasScript(rules[i].match_)
  }

  predicate ScriptFree(moves: seq<Move>) {
    forall i :: 0 <= i < |moves| && moves[i].Come? ==> NoScripts(moves[i].rules)
  }

  /** Every evaluation under way is a streaming one, without scripts, and stands at a rule it may reach. */
  predicate AllStreaming(s: System) {
    forall i :: 0 <= i < |s.requests| ==>
      && s.requests[i].streaming && NoScripts(s.requests[i].rules)
      && (Suspended(s.requests[i]) ==>
            Eligible(s.requests[i].rules[s.requests[i].next], s.requests[i].protocol, true))
  }

  predicate SameButBodies(left: seq<RequestSnapshot>, right: seq<RequestSnapshot>) {
    |left| == |right| && forall i :: 0 <= i < |left| ==> SameButBody(left[i], right[i])
  }

  lemma SameEvent(s: System, move: Move, left: seq<RequestSnapshot>, right: seq<RequestSnapshot>, engines: Engines)
    requires AllStreaming(s) && SameButBodies(left, right)
    ensures EventOf(s, move, left, engines) == EventOf(s, move, right, engines)
  {
    if move.Answer? && move.who < |s.requests| && move.who < |left| && Suspended(s.requests[move.who]) {
      var rule := s.requests[move.who].rules[s.requests[move.who].next];
      BodyUnseen(rule.match_, MatchInput(RequestSide, left[move.who], None, move.view),
                 MatchInput(RequestSide, right[move.who], None, move.view), engines);
    }
  }

  lemma AdvanceStreams(e: Evaluation, from: nat, states: Counters, clock: nat -> Clock)
    requires from <= |e.rules| && e.streaming
    ensures var e' := Advance(e, from, states, clock).0;
            && e'.streaming && e'.rules == e.rules
            && (Suspended(e') ==> Eligible(e'.rules[e'.next], e'.protocol, true))
  {
  }

  lemma ContinueStreams(e: Evaluation, fate: Fate, after: Counters, clock: nat -> Clock)
    requires Suspended(e) && e.streaming
    ensures var e' := Continue(e, fate, after, clock).0;
            && e'.streaming && e'.rules == e.rules
            && (Suspended(e') ==> Eligible(e'.rules[e'.next], e'.protocol, true))
  {
    if fate != Intercepted {
      AdvanceStreams(Fated(e, fate, after), e.next + 1, after, clock);
    }
  }

  lemma StepStreams(s: System, move: Move, requests: seq<RequestSnapshot>, engines: Engines)
    requires AllStreaming(s) && (move.Come? ==> NoScripts(move.rules))
    ensures AllStreaming(Step(s, EventOf(s, move, requests, engines)))
  {
    var ev := EventOf(s, move, requests, engines);
    if Runs(s, ev) {
      match ev
      case Arrive(rules, protocol, streaming, clock) =>
        AdvanceStreams(Evaluation(rules, protocol, true, 0, false, NOTHING, []), 0, s.states, clock);
      case Deliver(who, verdict, clock) =>
        var e := s.requests[who];
        var fate := FateOf(e.rules[e.next], s.states, verdict, clock(e.next));
        ContinueStreams(e, fate, Charged(e.rules[e.next], s.states, fate, clock(e.next)), clock);
      case Look(_, _) =>
      case Forget(_) =>
    }
  }

  /**
   * However streaming requests interleave, without script matchers the bodies
   * of the requests change nothing: intercepts, captures, matched lists and
   * counters are the same.
   */
  lemma {:induction false} InterleavedBodyBlind(
    s: System, moves: seq<Move>, left: seq<RequestSnapshot>, right: seq<RequestSnapshot>, engines: Engines)
    requires AllStreaming(s) && ScriptFree(moves) && SameButBodies(left, right)
    ensures PlayAll(s, moves, left, engines) == PlayAll(s, moves, right, engines)
    decreases |moves|
  {
    if moves != [] {
      SameEvent(s, moves[0], left, right, engines);
      StepStreams(s, moves[0], left, engines);
      assert moves[0].Come? ==> NoScripts(moves[0].rules);
      InterleavedBodyBlind(Step(s, EventOf(s, moves[0], left, engines)), moves[1..], left, right, engines);
    }
  }
}
