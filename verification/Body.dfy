/** Body buffering (src/proxy/body.ts). */
module Body {
  import opened Common
  import opened RuleTypes
  import opened Matchers

  // ---- who needs the body

  datatype BodyInterest = BodyInterest(need: bool, want: bool)

  predicate NeedsRequestBody(rule: Rule) {
    || UsesBody(rule.match_)
    || HasScript(rule.match_)
    || (rule.request.Some? && rule.request.value.action.Some? && rule.request.value.action.value.RequestRewrite?
        && exists i :: 0 <= i < |rule.request.value.action.value.operations|
                       && rule.request.value.action.value.operations[i].ReplaceBody?)
  }

  predicate NeedsResponseBody(rule: Rule) {
    rule.response.Some? &&
    var stage := rule.response.value;
    || (stage.match_.Some? && (UsesBody(stage.match_.value) || HasScript(stage.match_.value)))
    || (stage.action.Some? && stage.action.value.ScriptManipulator?)
  }

  predicate WantsRequestBody(rule: Rule) {
    rule.capture || rule.request.Some? || rule.response.Some?
  }

  /** The early exit of the loop loses nothing: a needed body is also a wanted one. */
  method RequestBodyInterest(rules: seq<Rule>) returns (interest: BodyInterest)
    ensures interest.need <==> exists i :: 0 <= i < |rules| && rules[i].enabled && NeedsRequestBody(rules[i])
    ensures interest.want <==>
            exists i :: 0 <= i < |rules| && rules[i].enabled
                        && (NeedsRequestBody(rules[i]) || WantsRequestBody(rules[i]))
  {
    var need, want := false, false;
    for i := 0 to |rules|
      invariant !need && forall j :: 0 <= j < i ==> !(rules[j].enabled && NeedsRequestBody(rules[j]))
      invariant want <==> exists j :: 0 <= j < i && rules[j].enabled && WantsRequestBody(rules[j])
    {
      if !rules[i].enabled {
        continue;
      }
      if NeedsRequestBody(rules[i]) {
        need := true;
      }
      if WantsRequestBody(rules[i]) {
        want := true;
      }
      if need {
        break;
      }
    }
    interest := BodyInterest(need, want || need);
  }

  function ResponseBodyInterest(intercept: Option<Rule>, captureRules: seq<Rule>): BodyInterest {
    var need := intercept.Some? && NeedsResponseBody(intercept.value);
    BodyInterest(need, need || intercept.Some? || exists i :: 0 <= i < |captureRules| && captureRules[i].capture)
  }

  // ---- reading a stream up to a limit

  datatype StreamEvent = Data(chunk: Bytes) | End | Tick | Failed | Aborted | Closed

  datatype Settlement = Pending | Complete(buffer: Bytes) | Overflow(prefix: Bytes) | Rejected

  datatype Reader = Reader(received: Bytes, ended: bool, outcome: Settlement)

  const START := Reader([], false, Pending)

  /** `Tick` is the deferred-end timer; it is armed only between an HTTP/2 `end` and the settlement. */
  function React(r: Reader, ev: StreamEvent, limit: nat, http2: bool): Reader {
    if r.outcome != Pending then r
    else match ev
      case Data(chunk) =>
        var all := r.received + chunk;
        r.(received := all, outcome := if |all| > limit then Overflow(all) else Pending)
      case End => r.(ended := true, outcome := if http2 then Pending else Complete(r.received))
      case Tick => if http2 && r.ended then r.(outcome := Complete(r.received)) else r
      case Failed => r.(outcome := Rejected)
      case Aborted => r.(outcome := Rejected)
      case Closed => if r.ended then r else r.(outcome := Rejected)
  }

  function ReadAll(r: Reader, events: seq<StreamEvent>, limit: nat, http2: bool): Reader
    decreases |events|
  {
    if events == [] then r else ReadAll(React(r, events[0], limit, http2), events[1..], limit, http2)
  }

  /** All bytes of the data events. */
  function DataOf(events: seq<StreamEvent>): Bytes {
    if events == [] then [] else (if events[0].Data? then events[0].chunk else []) + DataOf(events[1..])
  }

  /** The promise and the listeners of one `readBodyUpTo` call. */
  class BodyReader {
    const limit: nat
    const isHttp2Stream: bool
    var chunks: seq<Bytes>
    var total: nat
    var settled: bool
    var ended: bool
    var endTimer: bool
    var paused: bool
    var attached: bool
    var outcome: Settlement
    ghost var settlements: nat

    ghost predicate Valid()
      reads this
    {
      && total == |Flatten(chunks)|
      && (attached <==> !settled) && (settled <==> outcome != Pending)
      && settlements == (if settled then 1 else 0)
      && (endTimer <==> attached && isHttp2Stream && ended)
    }

    ghost function State(): Reader
      reads this
    {
      Reader(Flatten(chunks), ended, outcome)
    }

    constructor (limit: nat, isHttp2Stream: bool)
      ensures Valid() && State() == START
      ensures this.limit == limit && this.isHttp2Stream == isHttp2Stream
    {
      this.limit, this.isHttp2Stream := limit, isHttp2Stream;
      chunks, total, settled, ended, endTimer, paused, attached := [], 0, false, false, false, false, true;
      outcome, settlements := Pending, 0;
    }

    /** Both `succeed` and `fail`: only the first call settles the promise. */
    method Settle(result: Settlement)
      requires result != Pending && settlements == (if settled then 1 else 0)
      modifies this`settled, this`endTimer, this`attached, this`outcome, this`settlements
      ensures settled
      ensures old(settled) ==>
                && settlements == old(settlements) && outcome == old(outcome)
                && attached == old(attached) && endTimer == old(endTimer)
      ensures !old(settled) ==> settlements == 1 && outcome == result && !attached && !endTimer
    {
      if settled {
        return;
      }
      settled := true;
      endTimer := false;
      attached := false;
      outcome := result;
      settlements := settlements + 1;
    }

    /** Delivers one event to the listeners that are still attached. */
    method Deliver(ev: StreamEvent)
      requires Valid()
      modifies this
      ensures Valid() && settlements <= 1
      ensures State() == React(old(State()), ev, limit, isHttp2Stream)
    {
      if !attached {
        return;
      }
      match ev
      case Data(chunk) =>
        FlattenAppend(chunks, chunk);
        chunks := chunks + [chunk];
        total := total + |chunk|;
        if total > limit {
          paused := true;
          Settle(Overflow(Flatten(chunks)));
        }
      case End =>
        ended := true;
        if !isHttp2Stream {
          Settle(Complete(Flatten(chunks)));
        } else {
          endTimer := true;
        }
      case Tick =>
        if endTimer {
          Settle(Complete(Flatten(chunks)));
        }
      case Failed => Settle(Rejected);
      case Aborted => Settle(Rejected);
      case Closed =>
        if !ended {
          Settle(Rejected);
        }
    }
  }

  predicate Breaks(ev: StreamEvent) {
    ev == Failed || ev == Aborted
  }

  /** What the settlement says about the events that led to it. */
  predicate Explains(events: seq<StreamEvent>, r: Reader, limit: nat, http2: bool) {
    match r.outcome
    case Pending =>
      r.received == DataOf(events) && |r.received| <= limit && (forall i :: 0 <= i < |events| ==> !Breaks(events[i]))
      && (r.ended <==> End in events)
    case Complete(buffer) =>
      buffer == DataOf(events) && |buffer| <= limit && End in events && (http2 ==> Tick in events)
      && forall i :: 0 <= i < |events| ==> !Breaks(events[i])
    case Overflow(prefix) =>
      prefix == DataOf(events) && |prefix| > limit && forall i :: 0 <= i < |events| ==> !Breaks(events[i])
    case Rejected => events != [] && (Breaks(events[|events| - 1]) || events[|events| - 1] == Closed)
  }

  lemma {:induction false} DataOfAppend(events: seq<StreamEvent>, ev: StreamEvent)
    ensures DataOf(events + [ev]) == DataOf(events) + (if ev.Data? then ev.chunk else [])
    decreases |events|
  {
    if events == [] {
      assert events + [ev] == [ev] && [ev][1..] == [];
    } else {
      assert (events + [ev])[1..] == events[1..] + [ev];
      DataOfAppend(events[1..], ev);
    }
  }

  /** The events of a run up to the one that settles it, and the state they lead to. */
  function SettledBy(seen: seq<StreamEvent>, r: Reader, events: seq<StreamEvent>, limit: nat, http2: bool)
    : (seq<StreamEvent>, Reader)
    decreases |events|
  {
    if events == [] || r.outcome != Pending then (seen, r)
    else SettledBy(seen + [events[0]], React(r, events[0], limit, http2), events[1..], limit, http2)
  }

  lemma {:induction false} SettledIsFinal(r: Reader, events: seq<StreamEvent>, limit: nat, http2: bool)
    requires r.outcome != Pending
    ensures ReadAll(r, events, limit, http2) == r
    decreases |events|
  {
    if events != [] {
      SettledIsFinal(r, events[1..], limit, http2);
    }
  }

  lemma {:induction false} RunExplains(
      seen: seq<StreamEvent>, r: Reader, events: seq<StreamEvent>, limit: nat, http2: bool)
    requires Explains(seen, r, limit, http2)
    ensures var (used, last) := SettledBy(seen, r, events, limit, http2);
            && ReadAll(r, events, limit, http2) == last && Explains(used, last, limit, http2)
            && seen <= used <= seen + events
    decreases |events|
  {
    if events == [] {
      assert seen + events == seen;
    } else if r.outcome != Pending {
      SettledIsFinal(r, events, limit, http2);
    } else {
      var ev := events[0];
      DataOfAppend(seen, ev);
      assert forall i :: 0 <= i < |seen| ==> (seen + [ev])[i] == seen[i];
      RunExplains(seen + [ev], React(r, ev, limit, http2), events[1..], limit, http2);
      assert seen + events == seen + [ev] + events[1..];
    }
  }

  /**
   * For every event sequence: a resolved read holds exactly the bytes that had
   * arrived, none of them after an abort or error, and a complete body fits
   * the limit and saw its end (on HTTP/2, one tick without a reset later).
   */
  lemma ReadExplained(events: seq<StreamEvent>, limit: nat, http2: bool)
    ensures var (used, last) := SettledBy([], START, events, limit, http2);
            && ReadAll(START, events, limit, http2) == last && Explains(used, last, limit, http2)
            && used <= events
  {
    RunExplains([], START, events, limit, http2);
    assert [] + events == events;
  }

  /** The event at `i` does not settle a read that is open: neither a break, nor an end that counts, nor a close before it. */
  predicate LeavesOpen(events: seq<StreamEvent>, i: nat, http2: bool)
    requires i < |events|
  {
    match events[i]
    case Data(_) => true
    case Failed => false
    case Aborted => false
    case End => http2
    case Closed => End in events[..i]
    case Tick => !(http2 && End in events[..i])
  }

  predicate AllLeaveOpen(events: seq<StreamEvent>, http2: bool) {
    forall i :: 0 <= i < |events| ==> LeavesOpen(events, i, http2)
  }

  /**
   * A read hangs exactly as long as its stream neither breaks nor ends nor
   * closes nor outgrows the limit; an HTTP/2 end counts from the next tick on.
   */
  lemma {:induction false} SettlesIff(events: seq<StreamEvent>, limit: nat, http2: bool)
    ensures var r := ReadAll(START, events, limit, http2);
            && (r.outcome == Pending <==> |DataOf(events)| <= limit && AllLeaveOpen(events, http2))
            && (r.outcome == Pending ==> r.received == DataOf(events) && (r.ended <==> End in events))
    decreases |events|
  {
    if events != [] {
      var n := |events| - 1;
      var front, last := events[..n], events[n];
      SettlesIff(front, limit, http2);
      assert events == front + [last];
      ReadAllAppend(START, front, [last], limit, http2);
      DataOfAppend(front, last);
      assert [last][1..] == [];
      var r := ReadAll(START, front, limit, http2);
      assert ReadAll(START, events, limit, http2) == React(r, last, limit, http2);
      forall i | 0 <= i < n
        ensures LeavesOpen(events, i, http2) <==> LeavesOpen(front, i, http2)
      {
        assert events[..i] == front[..i];
      }
      assert AllLeaveOpen(events, http2) <==> AllLeaveOpen(front, http2) && LeavesOpen(events, n, http2);
    }
  }

  /** A reset that follows an HTTP/2 `end` before the deferred tick wins. */
  lemma ResetBeatsDeferredEnd(before: seq<StreamEvent>, reset: StreamEvent, after: seq<StreamEvent>, limit: nat)
    requires ReadAll(START, before + [End], limit, true).outcome == Pending && Breaks(reset)
    ensures ReadAll(START, before + [End] + ([reset] + after), limit, true).outcome == Rejected
  {
    ReadAllAppend(START, before + [End], [reset] + after, limit, true);
    var r := ReadAll(START, before + [End], limit, true);
    assert ([reset] + after)[1..] == after;
    SettledIsFinal(React(r, reset, limit, true), after, limit, true);
  }

  lemma {:induction false} ReadAllAppend(
      r: Reader, first: seq<StreamEvent>, second: seq<StreamEvent>, limit: nat, http2: bool)
    ensures ReadAll(r, first + second, limit, http2) == ReadAll(ReadAll(r, first, limit, http2), second, limit, http2)
    decreases |first|
  {
    if first == [] {
      assert first + second == second;
    } else {
      assert (first + second)[1..] == first[1..] + second;
      ReadAllAppend(React(r, first[0], limit, http2), first[1..], second, limit, http2);
    }
  }
}
