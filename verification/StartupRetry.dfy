/**
 * The startup import of a configured descriptor source
 * (src/grpc/reflection-import.ts, `scheduleStartupImport`): one attempt after
 * another, with a growing pause, until it succeeds or is given up.
 */
module StartupRetry {

  datatype Stage = Importing | Waiting | Over

  datatype Event = Settled(ok: bool) | TimerFired | Shutdown

  /** `attempt` counts from 1; `pauses` are the timers set so far. */
  datatype State = State(stage: Stage, attempt: nat, closed: bool, pauses: seq<int>)

  const FIRST := State(Importing, 1, false, [])

  const DEFAULT_ATTEMPTS := 10

  function Backoff(attempt: nat): int
    requires attempt >= 1
  {
    match attempt
    case 1 => 1_000
    case 2 => 2_000
    case 3 => 4_000
    case 4 => 8_000
    case 5 => 16_000
    case _ => 30_000
  }

  function React(s: State, maxAttempts: int, ev: Event): State
    requires s.attempt >= 1
  {
    match ev
    case Settled(ok) =>
      if s.stage != Importing then s
      else if ok || s.closed || s.attempt >= maxAttempts then s.(stage := Over)
      else s.(stage := Waiting, pauses := s.pauses + [Backoff(s.attempt)])
    case TimerFired =>
      if s.stage != Waiting then s else s.(stage := Importing, attempt := s.attempt + 1)
    case Shutdown => s.(closed := true, stage := if s.stage == Waiting then Over else s.stage)
  }

  function Run(s: State, maxAttempts: int, events: seq<Event>): State
    requires s.attempt >= 1
    decreases |events|
  {
    if events == [] then s else Run(React(s, maxAttempts, events[0]), maxAttempts, events[1..])
  }

  function Sum(pauses: seq<int>): int {
    if pauses == [] then 0 else Sum(pauses[..|pauses| - 1]) + pauses[|pauses| - 1]
  }

  /** The time spent waiting before the given attempt. */
  function WaitBefore(attempt: nat): int {
    if attempt <= 1 then 0 else WaitBefore(attempt - 1) + Backoff(attempt - 1)
  }

  predicate Inv(s: State, maxAttempts: int) {
    && s.attempt >= 1 && (s.attempt == 1 || s.attempt <= maxAttempts)
    && (s.stage == Waiting ==> !s.closed && s.attempt < maxAttempts && Sum(s.pauses) == WaitBefore(s.attempt + 1))
    && (s.stage == Importing ==> Sum(s.pauses) == WaitBefore(s.attempt))
    && (s.stage == Over && !s.closed ==> Sum(s.pauses) == WaitBefore(s.attempt))
    && Sum(s.pauses) <= WaitBefore(if s.attempt < maxAttempts then s.attempt + 1 else s.attempt)
  }

  lemma ReactKeeps(s: State, maxAttempts: int, ev: Event)
    requires Inv(s, maxAttempts)
    ensures Inv(React(s, maxAttempts, ev), maxAttempts)
    ensures s.closed ==> React(s, maxAttempts, ev).closed && React(s, maxAttempts, ev).attempt == s.attempt
  {
    if ev.Settled? {
      assert (s.pauses + [Backoff(s.attempt)])[..|s.pauses|] == s.pauses;
    }
  }

  lemma {:induction false} RunKeeps(s: State, maxAttempts: int, events: seq<Event>)
    requires Inv(s, maxAttempts)
    ensures Inv(Run(s, maxAttempts, events), maxAttempts)
    ensures s.closed ==> Run(s, maxAttempts, events).attempt == s.attempt
    decreases |events|
  {
    if events != [] {
      ReactKeeps(s, maxAttempts, events[0]);
      RunKeeps(React(s, maxAttempts, events[0]), maxAttempts, events[1..]);
    }
  }

  lemma {:induction false} WaitGrows(a: nat, b: nat)
    requires a <= b
    ensures WaitBefore(a) <= WaitBefore(b)
    decreases b
  {
    if a < b {
      WaitGrows(a, b - 1);
    }
  }

  /**
   * Never more than the allowed attempts, none after the importer was closed,
   * and with the default of ten never more than 151 seconds of waiting in all,
   * which is what a startup import that gives up has waited.
   */
  lemma GivesUpInTime(events: seq<Event>, later: seq<Event>)
    ensures var s := Run(FIRST, DEFAULT_ATTEMPTS, events);
            && 1 <= s.attempt <= DEFAULT_ATTEMPTS
            && Sum(s.pauses) <= 151_000
            && (s.stage == Over && s.attempt == DEFAULT_ATTEMPTS && !s.closed ==> Sum(s.pauses) == 151_000)
            && (s.closed ==> Run(s, DEFAULT_ATTEMPTS, later).attempt == s.attempt)
  {
    RunKeeps(FIRST, DEFAULT_ATTEMPTS, events);
    var s := Run(FIRST, DEFAULT_ATTEMPTS, events);
    WaitGrows(if s.attempt < DEFAULT_ATTEMPTS then s.attempt + 1 else s.attempt, DEFAULT_ATTEMPTS);
    assert WaitBefore(4) == 7_000;
    assert WaitBefore(7) == 61_000;
    assert WaitBefore(10) == 151_000;
    RunKeeps(s, DEFAULT_ATTEMPTS, later);
  }
}
