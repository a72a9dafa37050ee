/** Per-rule hit and consume counters (src/rules/consume.ts). */
module Consume {
  import opened Common
  import opened RuleTypes
  import opened Matchers

  datatype Counter =
    Counter(hits: nat, consumed: nat, lastConsumedAt: Option<int>, lastMatchedAt: Option<int>)

  type Counters = map<string, Counter>

  const FRESH := Counter(0, 0, None, None)

  datatype RuntimeState =
    RuntimeState(ruleId: string, hits: nat, consumed: nat, remaining: Option<int>, lastMatchedAt: Option<int>)

  function CounterOf(states: Counters, ruleId: string): Counter {
    if ruleId in states then states[ruleId] else FRESH
  }

  /** The lazy reset every read and every attempt starts with. */
  function MaybeReset(spec: Option<ConsumeSpec>, c: Counter, now: int): Counter {
    if spec.Some? && spec.value.resetAfterMs.Some? && c.lastConsumedAt.Some?
       && now - c.lastConsumedAt.value >= spec.value.resetAfterMs.value
    then c.(consumed := 0, lastConsumedAt := None)
    else c
  }

  predicate CanConsume(spec: ConsumeSpec, c: Counter, checkAt: int) {
    MaybeReset(Some(spec), c, checkAt).consumed < spec.times
  }

  /** The counter after an attempt that read the clock at `checkAt` and, on success, at `stampAt`. */
  function Attempted(spec: ConsumeSpec, c: Counter, checkAt: int, stampAt: int): Counter {
    var ready := MaybeReset(Some(spec), c, checkAt);
    if ready.consumed < spec.times
    then ready.(consumed := ready.consumed + 1, lastConsumedAt := Some(stampAt))
    else ready
  }

  function Hit(c: Counter, now: int): Counter {
    c.(hits := c.hits + 1, lastMatchedAt := Some(now))
  }

  function RemainingOf(spec: ConsumeSpec, c: Counter): int {
    if spec.times > c.consumed then spec.times - c.consumed else 0
  }

  /** Counters after `tryConsume`, and its answer. */
  function TryConsumed(states: Counters, rule: Rule, checkAt: int, stampAt: int): (Counters, bool) {
    if rule.consume.None? then (states, true)
    else
      var c := CounterOf(states, rule.id);
      (states[rule.id := Attempted(rule.consume.value, c, checkAt, stampAt)],
       CanConsume(rule.consume.value, c, checkAt))
  }

  /** Counters after any read of a rule's counter. */
  function Viewed(states: Counters, rule: Rule, now: int): Counters {
    states[rule.id := MaybeReset(rule.consume, CounterOf(states, rule.id), now)]
  }

  function HitRecorded(states: Counters, rule: Rule, now: int): Counters {
    states[rule.id := Hit(CounterOf(states, rule.id), now)]
  }

  /**
   * The registry object. Each clock reading of the source is a parameter, in
   * the order the source takes them.
   */
  class ConsumeRegistry {
    var states: Counters

    constructor ()
      ensures states == map[]
    {
      states := map[];
    }

    method StateFor(ruleId: string) returns (c: Counter)
      modifies this
      ensures c == CounterOf(old(states), ruleId)
      ensures states == old(states)[ruleId := c]
    {
      if ruleId !in states {
        states := states[ruleId := FRESH];
      }
      c := states[ruleId];
    }

    method TryConsume(rule: Rule, checkAt: int, stampAt: int) returns (ok: bool)
      modifies this
      ensures (states, ok) == TryConsumed(old(states), rule, checkAt, stampAt)
    {
      if rule.consume.None? {
        return true;
      }
      var state := StateFor(rule.id);
      state := MaybeReset(rule.consume, state, checkAt);
      states := states[rule.id := state];
      assert states == old(states)[rule.id := state];
      if state.consumed >= rule.consume.value.times {
        return false;
      }
      state := state.(consumed := state.consumed + 1);
      state := state.(lastConsumedAt := Some(stampAt));
      states := states[rule.id := state];
      assert states == old(states)[rule.id := state];
      return true;
    }

    method RecordHit(rule: Rule, now: int)
      modifies this
      ensures states == HitRecorded(old(states), rule, now)
    {
      var state := StateFor(rule.id);
      states := states[rule.id := state.(hits := state.hits + 1, lastMatchedAt := Some(now))];
    }

    /** `None` for a rule without a consume spec, whose counter is left as it is. */
    method Remaining(rule: Rule, now: int) returns (left: Option<int>)
      modifies this
      ensures rule.consume.None? ==> left == None && states == old(states)
      ensures rule.consume.Some? ==>
                && states == Viewed(old(states), rule, now)
                && left == Some(RemainingOf(rule.consume.value, states[rule.id]))
    {
      if rule.consume.None? {
        return None;
      }
      var state := StateFor(rule.id);
      state := MaybeReset(rule.consume, state, now);
      states := states[rule.id := state];
      var free := rule.consume.value.times - state.consumed;
      left := Some(if free > 0 then free else 0);
    }

    /** The view matchers get: hits as they stood before the lazy reset ran. */
    method View(rule: Rule, now: int) returns (view: RuleStateView)
      modifies this
      ensures states == Viewed(old(states), rule, now)
      ensures view.hits == CounterOf(old(states), rule.id).hits
      ensures view.remaining ==
              if rule.consume.Some? then Some(RemainingOf(rule.consume.value, states[rule.id])) else None
    {
      var state := StateFor(rule.id);
      var left := Remaining(rule, now);
      view := RuleStateView(state.hits, left);
    }

    method StateOf(rule: Rule, now: int) returns (state: RuntimeState)
      modifies this
      ensures states == Viewed(old(states), rule, now)
      ensures var c := states[rule.id];
              state == RuntimeState(rule.id, c.hits, c.consumed,
                                    if rule.consume.Some? then Some(RemainingOf(rule.consume.value, c)) else None,
                                    c.lastMatchedAt)
    {
      var c := StateFor(rule.id);
      c := MaybeReset(rule.consume, c, now);
      states := states[rule.id := c];
      var left: Option<int> := None;
      if rule.consume.Some? {
        var free := rule.consume.value.times - c.consumed;
        left := Some(if free > 0 then free else 0);
      }
      state := RuntimeState(rule.id, c.hits, c.consumed, left, c.lastMatchedAt);
    }

    method Reset(ruleId: string)
      modifies this
      ensures states == old(states) - {ruleId}
    {
      states := states - {ruleId};
    }

    /** An independent copy: changing either registry afterwards leaves the other alone. */
    method Clone() returns (copy: ConsumeRegistry)
      ensures fresh(copy) && copy.states == states
    {
      copy := new ConsumeRegistry();
      copy.states := states;
    }
  }

  // ---- one rule over time

  /** The operations on the counter of one fixed consumable rule. */
  datatype Op =
    | Try(checkAt: int, stampAt: int)
    | Read(at: int)
    | Record(at: int)

  function After(spec: ConsumeSpec, c: Counter, op: Op): Counter {
    match op
    case Try(checkAt, stampAt) => Attempted(spec, c, checkAt, stampAt)
    case Read(at) => MaybeReset(Some(spec), c, at)
    case Record(at) => Hit(c, at)
  }

  function RunOps(spec: ConsumeSpec, c: Counter, ops: seq<Op>): Counter
    decreases |ops|
  {
    if ops == [] then c else RunOps(spec, After(spec, c, ops[0]), ops[1..])
  }

  /** The answers of the `tryConsume` calls of a run, in order. */
  function Answers(spec: ConsumeSpec, c: Counter, ops: seq<Op>): seq<bool>
    decreases |ops|
  {
    if ops == [] then []
    else
      (if ops[0].Try? then [CanConsume(spec, c, ops[0].checkAt)] else [])
      + Answers(spec, After(spec, c, ops[0]), ops[1..])
  }

  /** The clock never runs backwards, within an operation or between two. */
  predicate Monotone(ops: seq<Op>, from: int)
    decreases |ops|
  {
    ops == [] ||
    match ops[0]
    case Try(checkAt, stampAt) => from <= checkAt <= stampAt && Monotone(ops[1..], stampAt)
    case Read(at) => from <= at && Monotone(ops[1..], at)
    case Record(at) => from <= at && Monotone(ops[1..], at)
  }

  /** The last clock reading of a run that starts at `from`. */
  function EndTime(ops: seq<Op>, from: int): int
    decreases |ops|
  {
    if ops == [] then from
    else EndTime(ops[1..], if ops[0].Try? then ops[0].stampAt else ops[0].at)
  }

  function WithoutReads(ops: seq<Op>): seq<Op>
    decreases |ops|
  {
    if ops == [] then []
    else (if ops[0].Read? then [] else [ops[0]]) + WithoutReads(ops[1..])
  }

  /** Two counters no attempt from `now` on can tell apart. */
  predicate SameFrom(spec: ConsumeSpec, c: Counter, d: Counter, now: int) {
    MaybeReset(Some(spec), c, now).consumed == MaybeReset(Some(spec), d, now).consumed
    && MaybeReset(Some(spec), c, now).lastConsumedAt == MaybeReset(Some(spec), d, now).lastConsumedAt
  }

  lemma {:induction false} ReadsInvisibleFrom(spec: ConsumeSpec, c: Counter, d: Counter, ops: seq<Op>, from: int)
    requires Monotone(ops, from) && SameFrom(spec, c, d, from)
    ensures Answers(spec, c, ops) == Answers(spec, d, WithoutReads(ops))
    decreases |ops|
  {
    if ops != [] {
      match ops[0]
      case Read(at) =>
        ReadsInvisibleFrom(spec, After(spec, c, ops[0]), d, ops[1..], at);
        assert WithoutReads(ops) == WithoutReads(ops[1..]);
      case Try(checkAt, stampAt) =>
        ReadsInvisibleFrom(spec, After(spec, c, ops[0]), After(spec, d, ops[0]), ops[1..], stampAt);
        assert WithoutReads(ops)[1..] == WithoutReads(ops[1..]);
      case Record(at) =>
        ReadsInvisibleFrom(spec, After(spec, c, ops[0]), After(spec, d, ops[0]), ops[1..], at);
        assert WithoutReads(ops)[1..] == WithoutReads(ops[1..]);
    }
  }

  /** Looking at a counter never changes a later `tryConsume`. */
  lemma ReadsInvisible(spec: ConsumeSpec, c: Counter, ops: seq<Op>, from: int)
    requires Monotone(ops, from)
    ensures Answers(spec, c, ops) == Answers(spec, c, WithoutReads(ops))
  {
    ReadsInvisibleFrom(spec, c, c, ops, from);
  }

  // ---- how often a rule can apply

  /** Clock stamps of the successful attempts of a run. */
  function Stamps(spec: ConsumeSpec, c: Counter, ops: seq<Op>): seq<int>
    decreases |ops|
  {
    if ops == [] then []
    else
      (if ops[0].Try? && CanConsume(spec, c, ops[0].checkAt) then [ops[0].stampAt] else [])
      + Stamps(spec, After(spec, c, ops[0]), ops[1..])
  }

  /** The pause between stamps j and j+1 is long enough to have reset the counter. */
  predicate LongPause(spec: ConsumeSpec, stamps: seq<int>, j: nat) {
    j + 1 < |stamps| && spec.resetAfterMs.Some? && stamps[j + 1] - stamps[j] >= spec.resetAfterMs.value
  }

  /**
   * What the counter knows of the successes so far: it counts the ones since
   * the last reset, and a reset means a long enough pause before the next one.
   */
  predicate Accounts(spec: ConsumeSpec, c: Counter, stamps: seq<int>, now: int) {
    && c.consumed <= |stamps|
    && (c.consumed > 0 ==> c.consumed <= spec.times && c.lastConsumedAt == Some(stamps[|stamps| - 1]))
    && (c.consumed == 0 ==> c.lastConsumedAt == None)
    && (0 < c.consumed < |stamps| ==> LongPause(spec, stamps, |stamps| - c.consumed - 1))
    && (c.consumed == 0 && stamps != [] ==>
          spec.resetAfterMs.Some? && now - stamps[|stamps| - 1] >= spec.resetAfterMs.value)
  }

  /** Among the times+1 successes from index k on, two adjacent ones have a long pause between them. */
  predicate PauseWithin(spec: ConsumeSpec, stamps: seq<int>, k: nat) {
    exists j: nat :: k <= j < k + spec.times && LongPause(spec, stamps, j)
  }

  predicate Bounded(spec: ConsumeSpec, stamps: seq<int>) {
    forall k: nat | k < |stamps| - spec.times :: PauseWithin(spec, stamps, k)
  }

  lemma AccountsTry(spec: ConsumeSpec, c: Counter, stamps: seq<int>, from: int, checkAt: int, stampAt: int)
    requires spec.times >= 1 && from <= checkAt <= stampAt
    requires Accounts(spec, c, stamps, from) && Bounded(spec, stamps)
    ensures var next := if CanConsume(spec, c, checkAt) then stamps + [stampAt] else stamps;
            Accounts(spec, Attempted(spec, c, checkAt, stampAt), next, stampAt) && Bounded(spec, next)
  {
    if CanConsume(spec, c, checkAt) {
      var next := stamps + [stampAt];
      var d := Attempted(spec, c, checkAt, stampAt);
      assert forall j: nat :: LongPause(spec, stamps, j) ==> LongPause(spec, next, j);
      assert Accounts(spec, d, next, stampAt);
      forall k: nat | k < |next| - spec.times ensures PauseWithin(spec, next, k) {
        if k + spec.times < |stamps| {
          assert PauseWithin(spec, stamps, k);
          var j: nat :| k <= j < k + spec.times && LongPause(spec, stamps, j);
          assert LongPause(spec, next, j);
        } else {
          var j := |next| - d.consumed - 1;
          assert k <= j < k + spec.times && LongPause(spec, next, j);
        }
      }
    }
  }

  lemma {:induction false} RunAccounts(
      spec: ConsumeSpec, c: Counter, stamps: seq<int>, ops: seq<Op>, from: int)
    requires spec.times >= 1 && Monotone(ops, from)
    requires Accounts(spec, c, stamps, from) && Bounded(spec, stamps)
    ensures Bounded(spec, stamps + Stamps(spec, c, ops))
    ensures Accounts(spec, RunOps(spec, c, ops), stamps + Stamps(spec, c, ops), EndTime(ops, from))
    decreases |ops|
  {
    if ops == [] {
      assert stamps + [] == stamps;
    } else {
      var d := After(spec, c, ops[0]);
      match ops[0]
      case Try(checkAt, stampAt) =>
        AccountsTry(spec, c, stamps, from, checkAt, stampAt);
        var next := if CanConsume(spec, c, checkAt) then stamps + [stampAt] else stamps;
        RunAccounts(spec, d, next, ops[1..], stampAt);
        assert stamps + Stamps(spec, c, ops) == next + Stamps(spec, d, ops[1..]);
      case Read(at) =>
        RunAccounts(spec, d, stamps, ops[1..], at);
        assert Stamps(spec, c, ops) == Stamps(spec, d, ops[1..]);
      case Record(at) =>
        RunAccounts(spec, d, stamps, ops[1..], at);
        assert Stamps(spec, c, ops) == Stamps(spec, d, ops[1..]);
    }
  }

  /**
   * Any times+1 consecutive successes contain two adjacent ones at least
   * `resetAfterMs` apart.
   */
  lemma PauseAmongSuccesses(spec: ConsumeSpec, ops: seq<Op>, from: int, k: nat)
    requires spec.times >= 1 && Monotone(ops, from)
    requires k + spec.times < |Stamps(spec, FRESH, ops)|
    ensures PauseWithin(spec, Stamps(spec, FRESH, ops), k)
  {
    RunAccounts(spec, FRESH, [], ops, from);
    assert [] + Stamps(spec, FRESH, ops) == Stamps(spec, FRESH, ops);
  }

  /** Without `resetAfterMs` a rule applies at most `times` times, ever. */
  lemma NeverBeyondTimes(spec: ConsumeSpec, ops: seq<Op>, from: int)
    requires spec.times >= 1 && spec.resetAfterMs.None? && Monotone(ops, from)
    ensures |Stamps(spec, FRESH, ops)| <= spec.times
  {
    if |Stamps(spec, FRESH, ops)| > spec.times {
      PauseAmongSuccesses(spec, ops, from, 0);
    }
  }

  /**
   * The converse: an attempt is refused only when `times` successes are on
   * record and the last one is too recent for a reset.
   */
  lemma RefusedOnlyWhenSpent(spec: ConsumeSpec, ops: seq<Op>, from: int, checkAt: int)
    requires spec.times >= 1 && Monotone(ops, from) && EndTime(ops, from) <= checkAt
    requires !CanConsume(spec, RunOps(spec, FRESH, ops), checkAt)
    ensures var stamps := Stamps(spec, FRESH, ops);
            && |stamps| >= spec.times
            && (spec.resetAfterMs.Some? ==> checkAt - stamps[|stamps| - 1] < spec.resetAfterMs.value)
  {
    RunAccounts(spec, FRESH, [], ops, from);
    assert [] + Stamps(spec, FRESH, ops) == Stamps(spec, FRESH, ops);
  }
}
