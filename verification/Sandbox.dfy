/**
 * The script sandbox's job table (src/script/sandbox.ts): jobs, their timers,
 * and a worker process that is replaced when it exits. `React` is one event of
 * the outside, `ScriptSandbox` the class whose handlers carry it out.
 */
module Sandbox {
  import opened Common
  import opened JsonModel

  datatype Options = Options(defaultTimeoutMs: int, maxTimeoutMs: int)

  datatype Job = Job(id: nat, timeoutMs: int)

  datatype Answer =
    | Returned(value: Json)
    | ScriptFailed(error: string)
    | WorkerExited
    | TimedOut(timeoutMs: int)
    | SendFailed
    | Closing

  /** One call of a job's `resolve` or `reject`. */
  datatype Settlement = Settlement(id: nat, answer: Answer)

  /** `Message` is an answer for a job from the worker the job was sent to, however late and however often. */
  datatype Event =
    | Submit(timeoutMs: Option<int>, connected: bool)
    | Message(worker: nat, id: nat, answer: Result<Json, string>)
    | Exit(worker: nat)
    | Timeout(id: nat)
    | SendError(id: nat)
    | Shutdown

  /**
   * Workers are numbered in the order they were spawned. `timers` are the armed
   * timers, `sent` which worker each job went to, `settlements` the answers
   * given so far.
   */
  datatype State = State(
    worker: Option<nat>,
    spawned: nat,
    jobs: seq<Job>,
    timers: set<nat>,
    nextId: nat,
    closed: bool,
    sent: map<nat, nat>,
    settlements: seq<Settlement>)

  const FRESH := State(Some(0), 1, [], {}, 1, false, map[], [])

  function Clamp(opts: Options, timeoutMs: Option<int>): int {
    var requested := GetOr(timeoutMs, opts.defaultTimeoutMs);
    if requested <= opts.maxTimeoutMs then requested else opts.maxTimeoutMs
  }

  // ---- the table

  function Ids(jobs: seq<Job>): set<nat> {
    set i | 0 <= i < |jobs| :: jobs[i].id
  }

  function Lookup(jobs: seq<Job>, id: nat): (r: Option<Job>)
    ensures r.Some? <==> id in Ids(jobs)
    ensures r.Some? ==> r.value in jobs && r.value.id == id
  {
    if jobs == [] then None
    else if jobs[0].id == id then Some(jobs[0])
    else assert Ids(jobs) == {jobs[0].id} + Ids(jobs[1..]); Lookup(jobs[1..], id)
  }

  function Without(jobs: seq<Job>, id: nat): (r: seq<Job>)
    ensures Ids(r) == Ids(jobs) - {id}
    ensures forall j <- r :: j in jobs
  {
    if jobs == [] then []
    else
      assert Ids(jobs) == {jobs[0].id} + Ids(jobs[1..]);
      var rest := Without(jobs[1..], id);
      assert Ids([jobs[0]] + rest) == {jobs[0].id} + Ids(rest) by {
        assert ([jobs[0]] + rest)[0] == jobs[0];
        assert forall i :: 0 <= i < |rest| ==> ([jobs[0]] + rest)[i + 1] == rest[i];
      }
      if jobs[0].id == id then rest else [jobs[0]] + rest
  }

  function FailEach(jobs: seq<Job>, answer: Answer): (r: seq<Settlement>)
    ensures |r| == |jobs|
    ensures forall i :: 0 <= i < |r| ==> r[i] == Settlement(jobs[i].id, answer)
  {
    seq(|jobs|, i requires 0 <= i < |jobs| => Settlement(jobs[i].id, answer))
  }

  // ---- one event

  /** Takes the job out, disarms its timer and answers it. */
  function Settle(s: State, id: nat, answer: Answer): State {
    s.(jobs := Without(s.jobs, id), timers := s.timers - {id}, settlements := s.settlements + [Settlement(id, answer)])
  }

  function FailAll(s: State, answer: Answer): State {
    s.(jobs := [], timers := s.timers - Ids(s.jobs), settlements := s.settlements + FailEach(s.jobs, answer))
  }

  function Accept(s: State, opts: Options, timeoutMs: Option<int>): State
    requires s.worker.Some?
  {
    s.(jobs := s.jobs + [Job(s.nextId, Clamp(opts, timeoutMs))], timers := s.timers + {s.nextId},
       nextId := s.nextId + 1, sent := s.sent[s.nextId := s.worker.value])
  }

  function FromWorker(answer: Result<Json, string>): Answer {
    match answer
    case Ok(value) => Returned(value)
    case Err(error) => ScriptFailed(error)
  }

  predicate Possible(s: State, ev: Event) {
    match ev
    case Message(worker, id, _) => id in s.sent && s.sent[id] == worker
    case Timeout(id) => id in s.timers
    case SendError(id) => id in s.sent
    case _ => true
  }

  /** An event that cannot happen in `s` changes nothing. */
  function React(s: State, opts: Options, ev: Event): State {
    if !Possible(s, ev) then s
    else match ev
      case Submit(timeoutMs, connected) =>
        if s.closed || s.worker.None? || !connected then s else Accept(s, opts, timeoutMs)
      case Message(_, id, answer) =>
        if Lookup(s.jobs, id).Some? then Settle(s, id, FromWorker(answer)) else s
      case Exit(worker) =>
        if s.worker != Some(worker) then s
        else
          var t := FailAll(s.(worker := None), WorkerExited);
          if t.closed then t else t.(worker := Some(t.spawned), spawned := t.spawned + 1)
      case Timeout(id) =>
        var job := Lookup(s.jobs, id);
        Settle(s, id, TimedOut(if job.Some? then job.value.timeoutMs else 0))
      case SendError(id) =>
        if Lookup(s.jobs, id).Some? then Settle(s, id, SendFailed) else s
      case Shutdown =>
        FailAll(s.(closed := true), Closing).(worker := None)
  }

  function Run(s: State, opts: Options, events: seq<Event>): State
    decreases |events|
  {
    if events == [] then s else Run(React(s, opts, events[0]), opts, events[1..])
  }

  // ---- what every run keeps

  predicate Ascending(jobs: seq<Job>) {
    forall i, j :: 0 <= i < j < |jobs| ==> jobs[i].id < jobs[j].id
  }

  predicate OnceEach(settlements: seq<Settlement>) {
    forall i, j :: 0 <= i < j < |settlements| ==> settlements[i].id != settlements[j].id
  }

  function Answered(settlements: seq<Settlement>): set<nat> {
    set i | 0 <= i < |settlements| :: settlements[i].id
  }

  predicate HasMax(s: State, opts: Options) {
    && (forall j <- s.jobs :: j.timeoutMs <= opts.maxTimeoutMs)
    && (forall t <- s.settlements :: t.answer.TimedOut? ==> t.answer.timeoutMs <= opts.maxTimeoutMs)
  }

  /** A job is in the table iff it is unsettled iff its timer is armed, and it is with the current worker. */
  ghost predicate Inv(s: State, opts: Options) {
    && s.nextId >= 1
    && (forall id: nat :: id in s.sent <==> 1 <= id < s.nextId)
    && Ascending(s.jobs)
    && s.timers == Ids(s.jobs)
    && OnceEach(s.settlements)
    && Answered(s.settlements) == s.sent.Keys - s.timers
    && s.timers <= s.sent.Keys
    && (forall id <- s.timers :: s.worker == Some(s.sent[id]))
    && (s.worker.None? <==> s.closed)
    && HasMax(s, opts)
  }

  lemma AnsweredAppend(a: seq<Settlement>, b: seq<Settlement>)
    ensures Answered(a + b) == Answered(a) + Answered(b)
    ensures OnceEach(a) && OnceEach(b) && Answered(a) !! Answered(b) ==> OnceEach(a + b)
  {
    forall id | id in Answered(a) + Answered(b)
      ensures id in Answered(a + b)
    {
      if id in Answered(a) {
        var i :| 0 <= i < |a| && a[i].id == id;
        assert (a + b)[i].id == id;
      } else {
        var i :| 0 <= i < |b| && b[i].id == id;
        assert (a + b)[|a| + i].id == id;
      }
    }
    if OnceEach(a) && OnceEach(b) && Answered(a) !! Answered(b) {
      forall i, j | 0 <= i < j < |a + b|
        ensures (a + b)[i].id != (a + b)[j].id
      {
        if i < |a| <= j {
          assert a[i].id in Answered(a) && b[j - |a|].id in Answered(b);
        }
      }
    }
  }

  lemma {:induction false} WithoutAscending(jobs: seq<Job>, id: nat)
    requires Ascending(jobs)
    ensures Ascending(Without(jobs, id))
  {
    if jobs != [] {
      WithoutAscending(jobs[1..], id);
      var rest := Without(jobs[1..], id);
      assert forall i :: 0 <= i < |rest| ==> rest[i] in jobs[1..];
    }
  }

  lemma SettleKeeps(s: State, opts: Options, id: nat, answer: Answer)
    requires Inv(s, opts) && id in s.timers && (answer.TimedOut? ==> answer.timeoutMs <= opts.maxTimeoutMs)
    ensures Inv(Settle(s, id, answer), opts)
  {
    WithoutAscending(s.jobs, id);
    var last := [Settlement(id, answer)];
    assert last[0].id == id;
    AnsweredAppend(s.settlements, last);
    assert Answered(last) == {id};
  }

  lemma FailAllKeeps(s: State, opts: Options, answer: Answer, worker: Option<nat>, spawned: nat, closed: bool)
    requires Inv(s, opts) && !answer.TimedOut? && (worker.None? <==> closed)
    ensures Inv(FailAll(s, answer).(worker := worker, spawned := spawned, closed := closed), opts)
    ensures FailAll(s, answer).timers == {}
  {
    var failed := FailEach(s.jobs, answer);
    AnsweredAppend(s.settlements, failed);
    assert Answered(failed) == Ids(s.jobs) by {
      assert forall i :: 0 <= i < |failed| ==> failed[i].id == s.jobs[i].id;
    }
  }

  lemma AcceptKeeps(s: State, opts: Options, timeoutMs: Option<int>)
    requires Inv(s, opts) && s.worker.Some?
    ensures Inv(Accept(s, opts, timeoutMs), opts)
  {
    var t := Accept(s, opts, timeoutMs);
    assert forall i :: 0 <= i < |s.jobs| ==> s.jobs[i].id in Ids(s.jobs) && t.jobs[i] == s.jobs[i];
    assert t.jobs[|s.jobs|].id == s.nextId;
    assert Ids(t.jobs) == Ids(s.jobs) + {s.nextId};
  }

  lemma ReactKeeps(s: State, opts: Options, ev: Event)
    requires Inv(s, opts)
    ensures Inv(React(s, opts, ev), opts)
  {
    if Possible(s, ev) {
      match ev
      case Submit(timeoutMs, connected) => if s.worker.Some? { AcceptKeeps(s, opts, timeoutMs); }
      case Message(_, id, answer) => if id in s.timers { SettleKeeps(s, opts, id, FromWorker(answer)); }
      case Exit(worker) =>
        if s.worker == Some(worker) {
          FailAllKeeps(s, opts, WorkerExited, Some(s.spawned), s.spawned + 1, s.closed);
        }
      case Timeout(id) => SettleKeeps(s, opts, id, TimedOut(Lookup(s.jobs, id).value.timeoutMs));
      case SendError(id) => if id in s.timers { SettleKeeps(s, opts, id, SendFailed); }
      case Shutdown => FailAllKeeps(s, opts, Closing, None, s.spawned, true);
    }
  }

  lemma {:induction false} RunKeeps(s: State, opts: Options, events: seq<Event>)
    requires Inv(s, opts)
    ensures Inv(Run(s, opts, events), opts)
    decreases |events|
  {
    if events != [] {
      ReactKeeps(s, opts, events[0]);
      RunKeeps(React(s, opts, events[0]), opts, events[1..]);
    }
  }

  // ---- the main results

  predicate AnsweredOnce(s: State, id: nat) {
    exists i :: 0 <= i < |s.settlements| && s.settlements[i].id == id
                && forall j :: 0 <= j < |s.settlements| && s.settlements[j].id == id ==> i == j
  }

  /**
   * Under any order of events an accepted job has been answered exactly once
   * or is in the table, with its timer armed and the current worker at work on it.
   */
  lemma SettlesOnce(opts: Options, events: seq<Event>, id: nat)
    requires 1 <= id < Run(FRESH, opts, events).nextId
    ensures var s := Run(FRESH, opts, events);
            && (AnsweredOnce(s, id) <==> id !in s.timers)
            && (id in Answered(s.settlements) <==> id !in s.timers)
            && (id in s.timers <==> Lookup(s.jobs, id).Some?)
            && (id in s.timers ==> id in s.sent && s.worker.Some? && s.sent[id] == s.worker.value)
  {
    RunKeeps(FRESH, opts, events);
    var s := Run(FRESH, opts, events);
    if id !in s.timers {
      assert id in Answered(s.settlements);
      var i :| 0 <= i < |s.settlements| && s.settlements[i].id == id;
      assert forall j :: 0 <= j < |s.settlements| && s.settlements[j].id == id ==> i == j;
    }
  }

  /** When no timer is armed any more, every job ever accepted has been answered exactly once. */
  lemma AllSettle(opts: Options, events: seq<Event>, id: nat)
    requires var s := Run(FRESH, opts, events); s.timers == {} && 1 <= id < s.nextId
    ensures AnsweredOnce(Run(FRESH, opts, events), id)
  {
    SettlesOnce(opts, events, id);
  }

  lemma {:induction false} RunAppend(s: State, opts: Options, events: seq<Event>, last: Event)
    ensures Run(s, opts, events + [last]) == React(Run(s, opts, events), opts, last)
    decreases |events|
  {
    if events == [] {
      assert events + [last] == [last] && [last][1..] == [];
    } else {
      assert (events + [last])[1..] == events[1..] + [last];
      RunAppend(React(s, opts, events[0]), opts, events[1..], last);
    }
  }

  /** No accepted job can be left hanging: whatever has happened, its timer answers it if nothing else has. */
  lemma TimerIsTheLastResort(opts: Options, events: seq<Event>, id: nat)
    requires 1 <= id < Run(FRESH, opts, events).nextId
    ensures AnsweredOnce(Run(FRESH, opts, events + [Timeout(id)]), id)
  {
    RunAppend(FRESH, opts, events, Timeout(id));
    SettlesOnce(opts, events + [Timeout(id)], id);
  }

  /** An answer of a worker that is no longer the current one changes nothing. */
  lemma LateMessageIgnored(opts: Options, events: seq<Event>, worker: nat, id: nat, answer: Result<Json, string>)
    requires Run(FRESH, opts, events).worker != Some(worker)
    ensures React(Run(FRESH, opts, events), opts, Message(worker, id, answer)) == Run(FRESH, opts, events)
  {
    RunKeeps(FRESH, opts, events);
  }

  /** One event answers one job, all pending jobs of the current worker, or none; earlier answers stand. */
  lemma AnswersStand(opts: Options, s: State, ev: Event)
    requires Inv(s, opts)
    ensures s.settlements <= React(s, opts, ev).settlements
    ensures ev.Message? ==>
              forall i :: |s.settlements| <= i < |React(s, opts, ev).settlements| ==>
                React(s, opts, ev).settlements[i] == Settlement(ev.id, FromWorker(ev.answer)) && s.sent[ev.id] == ev.worker
  {
  }

  lemma FirstIn(jobs: seq<Job>)
    ensures jobs != [] ==> jobs[0].id in Ids(jobs)
  {
  }

  /** Nothing is accepted once the sandbox is closed, and nothing is left pending. */
  lemma {:induction false} ClosedForGood(opts: Options, s: State, events: seq<Event>)
    requires Inv(s, opts) && s.closed
    ensures var t := Run(s, opts, events);
            t.closed && t.jobs == [] && t.nextId == s.nextId && t.settlements == s.settlements
    decreases |events|
  {
    FirstIn(s.jobs);
    if events != [] {
      ReactKeeps(s, opts, events[0]);
      assert FailEach([], Closing) == [] && Ids([]) == {};
      assert s.settlements + [] == s.settlements;
      ClosedForGood(opts, React(s, opts, events[0]), events[1..]);
    }
  }

  // ---- the class

  /** `sent` and `spawned` number what the source identifies by the process object itself. */
  class ScriptSandbox {
    const opts: Options
    var worker: Option<nat>
    var spawned: nat
    var jobs: seq<Job>
    var timers: set<nat>
    var nextId: nat
    var restarts: int
    var closed: bool
    var settlements: seq<Settlement>
    var sent: map<nat, nat>

    ghost predicate Valid()
      reads this
    {
      Inv(Abs(), opts) && restarts == spawned - 1
    }

    ghost function Abs(): State
      reads this
    {
      State(worker, spawned, jobs, timers, nextId, closed, sent, settlements)
    }

    constructor (opts: Options)
      ensures Valid() && Abs() == FRESH && restarts == 0 && this.opts == opts
    {
      this.opts := opts;
      worker, spawned, jobs, timers, nextId, closed := Some(0), 1, [], {}, 1, false;
      sent, settlements, restarts := map[], [], 0;
    }

    method SpawnWorker()
      modifies this`worker, this`spawned, this`restarts
      ensures closed ==> worker == old(worker) && spawned == old(spawned) && restarts == old(restarts)
      ensures !closed ==>
                worker == Some(old(spawned)) && spawned == old(spawned) + 1 && restarts == old(restarts) + 1
    {
      if closed {
        return;
      }
      restarts := restarts + 1;
      worker, spawned := Some(spawned), spawned + 1;
    }

    method FailAllPending(answer: Answer)
      modifies this`jobs, this`timers, this`settlements
      ensures Abs() == FailAll(old(Abs()), answer)
    {
      var n := |jobs|;
      for i := 0 to n
        invariant jobs == old(jobs) && n == |jobs|
        invariant timers == old(timers) - Ids(jobs[..i])
        invariant settlements == old(settlements) + FailEach(jobs[..i], answer)
      {
        assert jobs[..i + 1] == jobs[..i] + [jobs[i]];
        IdsAppend(jobs[..i], jobs[i]);
        assert FailEach(jobs[..i + 1], answer) == FailEach(jobs[..i], answer) + [Settlement(jobs[i].id, answer)];
        timers := timers - {jobs[i].id};
        settlements := settlements + [Settlement(jobs[i].id, answer)];
      }
      assert jobs[..n] == jobs;
      jobs := [];
    }

    method SettleJob(id: nat, answer: Answer)
      modifies this`jobs, this`timers, this`settlements
      ensures Abs() == Settle(old(Abs()), id, answer)
    {
      jobs := Without(jobs, id);
      timers := timers - {id};
      settlements := settlements + [Settlement(id, answer)];
    }

    /** `None` is a promise rejected at once, without a job. */
    method Submit(timeoutMs: Option<int>, connected: bool) returns (id: Option<nat>)
      requires Valid()
      modifies this
      ensures Valid() && Abs() == React(old(Abs()), opts, Event.Submit(timeoutMs, connected))
      ensures id == if old(closed) || !connected then None else Some(old(nextId))
    {
      ReactKeeps(Abs(), opts, Event.Submit(timeoutMs, connected));
      if closed {
        return None;
      }
      if worker.None? || !connected {
        return None;
      }
      var effectiveTimeout := Clamp(opts, timeoutMs);
      id := Some(nextId);
      nextId := nextId + 1;
      timers := timers + {id.value};
      jobs := jobs + [Job(id.value, effectiveTimeout)];
      sent := sent[id.value := worker.value];
    }

    method OnMessage(sender: nat, id: nat, answer: Result<Json, string>)
      requires Valid() && id in sent && sent[id] == sender
      modifies this
      ensures Valid() && Abs() == React(old(Abs()), opts, Message(sender, id, answer))
    {
      ReactKeeps(Abs(), opts, Message(sender, id, answer));
      var pending := Lookup(jobs, id);
      if pending.Some? {
        SettleJob(id, FromWorker(answer));
      }
    }

    method OnExit(which: nat)
      requires Valid()
      modifies this
      ensures Valid() && Abs() == React(old(Abs()), opts, Exit(which))
    {
      ReactKeeps(Abs(), opts, Exit(which));
      if worker != Some(which) {
        return;
      }
      worker := None;
      FailAllPending(WorkerExited);
      if !closed {
        SpawnWorker();
      }
    }

    method OnTimeout(id: nat)
      requires Valid() && id in timers
      modifies this
      ensures Valid() && Abs() == React(old(Abs()), opts, Timeout(id))
    {
      ReactKeeps(Abs(), opts, Timeout(id));
      var job := Lookup(jobs, id);
      SettleJob(id, TimedOut(job.value.timeoutMs));
    }

    method OnSendError(id: nat)
      requires Valid() && id in sent
      modifies this
      ensures Valid() && Abs() == React(old(Abs()), opts, SendError(id))
    {
      ReactKeeps(Abs(), opts, SendError(id));
      var pending := Lookup(jobs, id);
      if pending.Some? {
        SettleJob(id, SendFailed);
      }
    }

    method Close()
      requires Valid()
      modifies this
      ensures Valid() && Abs() == React(old(Abs()), opts, Shutdown)
      ensures closed && jobs == [] && timers == {}
    {
      ReactKeeps(Abs(), opts, Shutdown);
      closed := true;
      FailAllPending(Closing);
      worker := None;
    }
  }

  lemma IdsAppend(jobs: seq<Job>, last: Job)
    ensures Ids(jobs + [last]) == Ids(jobs) + {last.id}
  {
    assert forall i :: 0 <= i < |jobs| ==> (jobs + [last])[i] == jobs[i];
    assert (jobs + [last])[|jobs|] == last;
  }

  /** Any order of events, played to the class. */
  method Play(opts: Options, events: seq<Event>) returns (sandbox: ScriptSandbox)
    ensures sandbox.Valid() && sandbox.Abs() == Run(FRESH, opts, events) && sandbox.opts == opts
  {
    sandbox := new ScriptSandbox(opts);
    for i := 0 to |events|
      invariant sandbox.Valid() && sandbox.opts == opts && fresh(sandbox)
      invariant Run(sandbox.Abs(), opts, events[i..]) == Run(FRESH, opts, events)
    {
      var ev := events[i];
      assert events[i..][1..] == events[i + 1..];
      match ev
      case Submit(timeoutMs, connected) => var _ := sandbox.Submit(timeoutMs, connected);
      case Message(worker, id, answer) =>
        if id in sandbox.sent && sandbox.sent[id] == worker {
          sandbox.OnMessage(worker, id, answer);
        }
      case Exit(worker) => sandbox.OnExit(worker);
      case Timeout(id) =>
        if id in sandbox.timers {
          sandbox.OnTimeout(id);
        }
      case SendError(id) =>
        if id in sandbox.sent {
          sandbox.OnSendError(id);
        }
      case Shutdown => sandbox.Close();
    }
  }
}
