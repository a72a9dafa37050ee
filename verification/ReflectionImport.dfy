/**
 * Import of descriptors by server reflection (src/grpc/reflection-import.ts):
 * shared in-flight imports, negative caching, and replacement of what an
 * earlier import registered. `React` is one event of the outside.
 */
module ReflectionImport {
  import opened Common
  import opened Text
  import opened ObservedTargets

  datatype Source = Reflected(target: string) | Uploaded

  datatype Descriptor = Descriptor(id: nat, source: Source, services: seq<string>)

  datatype Reason = InvalidTarget | Unusable(why: string)

  datatype Failure = Failure(reason: Reason, at: int, retryAt: int)

  /** What a fetch brought; the registry may still refuse a descriptor set it cannot read. */
  datatype Fetch = Got(found: Found, readable: bool) | Failed(reason: Reason)

  datatype Found =
    Found(protocol: string, services: seq<string>, missing: seq<string>, files: nat, bytes: nat)

  /** What is remembered of a target's last successful import. */
  datatype ImportRecord = ImportRecord(descriptorId: nat, found: Found, at: int)

  datatype Waiter = Waiter(task: nat, target: string, service: string)

  /** A finished `run`, in the order they finished; `reason` is absent after a success. */
  datatype Completion = Completion(target: string, reason: Option<Reason>, at: int)

  /** `wellFormed` says of a trimmed target whether it is `host:port`. */
  datatype Settings = Settings(auto: bool, negativeTtlMs: int, wellFormed: string -> bool)

  datatype Event =
    | Import(target: string)
    | Ensure(target: string, service: string, allowed: bool, now: int)
    | Fetched(task: nat, fetch: Fetch, now: int)
    | Finalize(task: nat, now: int)
    | Upload(services: seq<string>)
    | Remove(id: nat)
    | Shutdown

  /**
   * `fetching` are the tasks whose fetch is running, `finishing` those whose
   * `run` is over and whose `finally` is still to come (true: it succeeded).
   */
  datatype State = State(
    closed: bool,
    inFlight: map<string, nat>,
    fetching: map<nat, string>,
    finishing: map<nat, (string, bool)>,
    nextTask: nat,
    failures: map<string, Failure>,
    imports: map<string, ImportRecord>,
    unknownServices: map<string, int>,
    waiting: seq<Waiter>,
    registry: seq<Descriptor>,
    nextId: nat,
    completions: seq<Completion>)

  const FRESH := State(false, map[], map[], map[], 0, map[], map[], map[], [], [], 0, [])

  // ---- the registry

  predicate HasService(registry: seq<Descriptor>, service: string) {
    exists i :: 0 <= i < |registry| && service in registry[i].services
  }

  function WithoutTarget(registry: seq<Descriptor>, target: string): (r: seq<Descriptor>)
    ensures forall d :: d in r <==> d in registry && d.source != Reflected(target)
    ensures |r| <= |registry|
  {
    if registry == [] then []
    else (if registry[0].source == Reflected(target) then [] else [registry[0]]) + WithoutTarget(registry[1..], target)
  }

  function WithoutId(registry: seq<Descriptor>, id: nat): (r: seq<Descriptor>)
    ensures forall d :: d in r <==> d in registry && d.id != id
    ensures |r| <= |registry|
  {
    if registry == [] then []
    else (if registry[0].id == id then [] else [registry[0]]) + WithoutId(registry[1..], id)
  }

  // ---- one event

  function UnknownKey(target: string, service: string): string {
    target + "|" + service
  }

  /** `import`: joins the running import of the trimmed target or starts a fetch. */
  function StartImport(s: State, target: string): State {
    Joined(s, Trim(target))
  }

  function Joined(s: State, key: string): State {
    if key in s.inFlight then s
    else s.(inFlight := s.inFlight[key := s.nextTask], fetching := s.fetching[s.nextTask := key], nextTask := s.nextTask + 1)
  }

  predicate EnsureStarts(s: State, opts: Settings, target: string, service: string, allowed: bool, now: int) {
    && opts.auto && !s.closed
    && service != "" && !HasService(s.registry, service)
    && allowed
    && !(UnknownKey(target, service) in s.unknownServices && s.unknownServices[UnknownKey(target, service)] > now)
    && !(target in s.failures && s.failures[target].retryAt > now)
  }

  function EnsureStep(s: State, opts: Settings, target: string, service: string, allowed: bool, now: int): State {
    if !EnsureStarts(s, opts, target, service, allowed, now) then s
    else
      var t := StartImport(s, target);
      if Trim(target) in t.inFlight then
        t.(waiting := t.waiting + [Waiter(t.inFlight[Trim(target)], target, service)])
      else t
  }

  function Complete(s: State, task: nat, target: string, reason: Option<Reason>, now: int): State {
    s.(fetching := s.fetching - {task}, finishing := s.finishing[task := (target, reason.None?)],
       completions := s.completions + [Completion(target, reason, now)])
  }

  function RunFailed(s: State, opts: Settings, task: nat, target: string, reason: Reason, now: int): State {
    var t := Complete(s, task, target, Some(reason), now);
    if reason == InvalidTarget then t
    else t.(failures := t.failures[target := Failure(reason, now, now + opts.negativeTtlMs)])
  }

  function Stored(s: State, target: string, found: Found, now: int): State {
    s.(registry := s.registry + [Descriptor(s.nextId, Reflected(target), found.services)], nextId := s.nextId + 1,
       failures := s.failures - {target}, imports := s.imports[target := ImportRecord(s.nextId, found, now)])
  }

  /** A malformed target is refused before anything is sent, and only that. */
  predicate Possible(opts: Settings, target: string, fetch: Fetch) {
    fetch == Failed(InvalidTarget) <==> !opts.wellFormed(target)
  }

  /** The rest of `run` once the fetch has settled. */
  function FetchedStep(s: State, opts: Settings, task: nat, fetch: Fetch, now: int): State
    requires task in s.fetching
  {
    var target := s.fetching[task];
    match fetch
    case Failed(reason) => RunFailed(s, opts, task, target, reason, now)
    case Got(found, readable) =>
      var cleared := s.(registry := WithoutTarget(s.registry, target));
      if !readable then RunFailed(cleared, opts, task, target, Unusable("invalid"), now)
      else Complete(Stored(cleared, target, found, now), task, target, None, now)
  }

  /** The callbacks of `ensure`: a target that answered without the service is not asked again for a while. */
  function Notify(waiting: seq<Waiter>, task: nat, registry: seq<Descriptor>, until: int, known: map<string, int>):
    map<string, int>
  {
    if waiting == [] then known
    else
      var w := waiting[0];
      Notify(waiting[1..], task, registry, until,
             if w.task == task && !HasService(registry, w.service) then known[UnknownKey(w.target, w.service) := until]
             else known)
  }

  function StillWaiting(waiting: seq<Waiter>, task: nat): seq<Waiter> {
    if waiting == [] then []
    else (if waiting[0].task == task then [] else [waiting[0]]) + StillWaiting(waiting[1..], task)
  }

  /** `finally`, and whoever waited for the import. */
  function FinalizeStep(s: State, opts: Settings, task: nat, now: int): State
    requires task in s.finishing
  {
    var (target, succeeded) := s.finishing[task];
    s.(inFlight := s.inFlight - {target}, finishing := s.finishing - {task},
       waiting := StillWaiting(s.waiting, task),
       unknownServices :=
         if succeeded then Notify(s.waiting, task, s.registry, now + opts.negativeTtlMs, s.unknownServices)
         else s.unknownServices)
  }

  /** An event that cannot happen in `s` changes nothing. */
  function React(s: State, opts: Settings, ev: Event): State {
    match ev
    case Import(target) => StartImport(s, target)
    case Ensure(target, service, allowed, now) => EnsureStep(s, opts, target, service, allowed, now)
    case Fetched(task, fetch, now) =>
      if task in s.fetching && Possible(opts, s.fetching[task], fetch) then FetchedStep(s, opts, task, fetch, now) else s
    case Finalize(task, now) => if task in s.finishing then FinalizeStep(s, opts, task, now) else s
    case Upload(services) =>
      s.(registry := s.registry + [Descriptor(s.nextId, Uploaded, services)], nextId := s.nextId + 1)
    case Remove(id) => s.(registry := WithoutId(s.registry, id))
    case Shutdown => s.(closed := true)
  }

  function Run(s: State, opts: Settings, events: seq<Event>): State
    decreases |events|
  {
    if events == [] then s else Run(React(s, opts, events[0]), opts, events[1..])
  }

  // ---- what every run keeps

  /** When the last completed import of `target`, malformed targets aside, failed; absent if it succeeded. */
  function LastFailed(completions: seq<Completion>, target: string): Option<int> {
    if completions == [] then None
    else
      var last := completions[|completions| - 1];
      if last.target != target || last.reason == Some(InvalidTarget) then
        LastFailed(completions[..|completions| - 1], target)
      else if last.reason.Some? then Some(last.at)
      else None
  }

  predicate OneReflected(registry: seq<Descriptor>) {
    forall i, j :: 0 <= i < j < |registry| && registry[i].source.Reflected? ==> registry[i].source != registry[j].source
  }

  /** Every task that is not over holds its target's place in `inFlight`, and nothing else does. */
  predicate InFlightAgrees(s: State) {
    && (forall t <- s.fetching :: t < s.nextTask && t !in s.finishing
                                  && s.fetching[t] in s.inFlight && s.inFlight[s.fetching[t]] == t)
    && (forall t <- s.finishing :: t < s.nextTask
                                   && s.finishing[t].0 in s.inFlight && s.inFlight[s.finishing[t].0] == t)
    && (forall k <- s.inFlight ::
          (s.inFlight[k] in s.fetching && s.fetching[s.inFlight[k]] == k)
          || (s.inFlight[k] in s.finishing && s.finishing[s.inFlight[k]].0 == k))
    && (forall k <- s.inFlight :: Trimmed(k))
  }

  ghost predicate FailuresAgree(failures: map<string, Failure>, completions: seq<Completion>, opts: Settings) {
    forall target ::
      && (target in failures <==> LastFailed(completions, target).Some?)
      && (target in failures ==>
            && Trimmed(target)
            && opts.wellFormed(target)
            && failures[target].at == LastFailed(completions, target).value
            && failures[target].retryAt == failures[target].at + opts.negativeTtlMs)
  }

  ghost predicate Inv(s: State, opts: Settings) {
    InFlightAgrees(s) && FailuresAgree(s.failures, s.completions, opts) && OneReflected(s.registry)
  }

  lemma LastFailedAppend(completions: seq<Completion>, last: Completion, target: string)
    ensures LastFailed(completions + [last], target)
            == if last.target != target || last.reason == Some(InvalidTarget) then LastFailed(completions, target)
               else if last.reason.Some? then Some(last.at)
               else None
  {
    assert (completions + [last])[..|completions|] == completions;
  }

  lemma {:induction false} WithoutTargetKeeps(registry: seq<Descriptor>, target: string)
    requires OneReflected(registry)
    ensures OneReflected(WithoutTarget(registry, target))
    decreases |registry|
  {
    if registry != [] {
      WithoutTargetKeeps(registry[1..], target);
      var rest := WithoutTarget(registry[1..], target);
      assert forall i :: 0 <= i < |rest| ==> rest[i] in registry[1..];
    }
  }

  lemma {:induction false} WithoutIdKeeps(registry: seq<Descriptor>, id: nat)
    requires OneReflected(registry)
    ensures OneReflected(WithoutId(registry, id))
    decreases |registry|
  {
    if registry != [] {
      WithoutIdKeeps(registry[1..], id);
      var rest := WithoutId(registry[1..], id);
      assert forall i :: 0 <= i < |rest| ==> rest[i] in registry[1..];
    }
  }

  lemma StartedInFlight(s: State, key: string)
    requires InFlightAgrees(s) && key !in s.inFlight && Trimmed(key)
    ensures InFlightAgrees(s.(inFlight := s.inFlight[key := s.nextTask], fetching := s.fetching[s.nextTask := key],
                              nextTask := s.nextTask + 1))
  {
    var inFlight, fetching := s.inFlight[key := s.nextTask], s.fetching[s.nextTask := key];
    forall k | k in inFlight
      ensures (inFlight[k] in fetching && fetching[inFlight[k]] == k)
              || (inFlight[k] in s.finishing && s.finishing[inFlight[k]].0 == k)
    {
      if k != key {
        assert k in s.inFlight;
      }
    }
  }

  lemma StartImportKeeps(s: State, opts: Settings, target: string)
    requires Inv(s, opts)
    ensures Inv(StartImport(s, target), opts) && Trim(target) in StartImport(s, target).inFlight
  {
    var key := Trim(target);
    TrimTrims(target);
    if key !in s.inFlight {
      StartedInFlight(s, key);
    }
  }

  lemma CompleteKeeps(s: State, task: nat, target: string, reason: Option<Reason>, now: int)
    requires InFlightAgrees(s) && task in s.fetching && s.fetching[task] == target
    ensures InFlightAgrees(Complete(s, task, target, reason, now)) && Trimmed(target)
  {
    var t := Complete(s, task, target, reason, now);
    forall k | k in t.inFlight
      ensures (t.inFlight[k] in t.fetching && t.fetching[t.inFlight[k]] == k)
              || (t.inFlight[k] in t.finishing && t.finishing[t.inFlight[k]].0 == k)
    {
    }
  }

  lemma FailureRecorded(
    failures: map<string, Failure>, completions: seq<Completion>, opts: Settings, target: string, reason: Reason, now: int)
    requires FailuresAgree(failures, completions, opts) && Trimmed(target) && opts.wellFormed(target)
    requires reason != InvalidTarget
    ensures FailuresAgree(failures[target := Failure(reason, now, now + opts.negativeTtlMs)],
                          completions + [Completion(target, Some(reason), now)], opts)
  {
    forall t
      ensures LastFailed(completions + [Completion(target, Some(reason), now)], t)
              == if t == target then Some(now) else LastFailed(completions, t)
    {
      LastFailedAppend(completions, Completion(target, Some(reason), now), t);
    }
  }

  lemma RefusalIgnored(
    failures: map<string, Failure>, completions: seq<Completion>, opts: Settings, target: string, now: int)
    requires FailuresAgree(failures, completions, opts)
    ensures FailuresAgree(failures, completions + [Completion(target, Some(InvalidTarget), now)], opts)
  {
    forall t
      ensures LastFailed(completions + [Completion(target, Some(InvalidTarget), now)], t) == LastFailed(completions, t)
    {
      LastFailedAppend(completions, Completion(target, Some(InvalidTarget), now), t);
    }
  }

  lemma SuccessRecorded(
    failures: map<string, Failure>, completions: seq<Completion>, opts: Settings, target: string, now: int)
    requires FailuresAgree(failures, completions, opts)
    ensures FailuresAgree(failures - {target}, completions + [Completion(target, None, now)], opts)
  {
    forall t
      ensures LastFailed(completions + [Completion(target, None, now)], t)
              == if t == target then None else LastFailed(completions, t)
    {
      LastFailedAppend(completions, Completion(target, None, now), t);
    }
  }

  lemma RunFailedKeeps(s: State, opts: Settings, task: nat, target: string, reason: Reason, now: int)
    requires Inv(s, opts) && task in s.fetching && s.fetching[task] == target
    requires reason == InvalidTarget <==> !opts.wellFormed(target)
    ensures Inv(RunFailed(s, opts, task, target, reason, now), opts)
  {
    CompleteKeeps(s, task, target, Some(reason), now);
    if reason == InvalidTarget {
      RefusalIgnored(s.failures, s.completions, opts, target, now);
    } else {
      FailureRecorded(s.failures, s.completions, opts, target, reason, now);
      SameInFlight(Complete(s, task, target, Some(reason), now), RunFailed(s, opts, task, target, reason, now));
    }
  }

  lemma SameInFlight(s: State, t: State)
    requires InFlightAgrees(s) && s.inFlight == t.inFlight && s.fetching == t.fetching && s.finishing == t.finishing
    requires s.nextTask == t.nextTask
    ensures InFlightAgrees(t)
  {
  }

  lemma AddReflectedKeeps(registry: seq<Descriptor>, target: string, d: Descriptor)
    requires OneReflected(registry) && d.source == Reflected(target)
    ensures OneReflected(WithoutTarget(registry, target) + [d])
  {
    WithoutTargetKeeps(registry, target);
    var rest := WithoutTarget(registry, target);
    assert forall i :: 0 <= i < |rest| ==> rest[i] in rest;
  }

  lemma SucceededKeeps(s: State, opts: Settings, task: nat, found: Found, now: int)
    requires Inv(s, opts) && task in s.fetching
    ensures Inv(FetchedStep(s, opts, task, Got(found, true), now), opts)
  {
    var target := s.fetching[task];
    CompleteKeeps(s, task, target, None, now);
    AddReflectedKeeps(s.registry, target, Descriptor(s.nextId, Reflected(target), found.services));
    SuccessRecorded(s.failures, s.completions, opts, target, now);
    SameInFlight(Complete(s, task, target, None, now), FetchedStep(s, opts, task, Got(found, true), now));
  }

  lemma FetchedKeeps(s: State, opts: Settings, task: nat, fetch: Fetch, now: int)
    requires Inv(s, opts) && task in s.fetching && Possible(opts, s.fetching[task], fetch)
    ensures Inv(FetchedStep(s, opts, task, fetch, now), opts)
  {
    var target := s.fetching[task];
    match fetch
    case Failed(reason) => RunFailedKeeps(s, opts, task, target, reason, now);
    case Got(found, readable) =>
      if readable {
        SucceededKeeps(s, opts, task, found, now);
      } else {
        WithoutTargetKeeps(s.registry, target);
        RunFailedKeeps(s.(registry := WithoutTarget(s.registry, target)), opts, task, target, Unusable("invalid"), now);
      }
  }

  lemma FinalizeKeeps(s: State, opts: Settings, task: nat, now: int)
    requires Inv(s, opts) && task in s.finishing
    ensures Inv(FinalizeStep(s, opts, task, now), opts)
  {
    assert InFlightAgrees(FinalizeStep(s, opts, task, now));
  }

  lemma EnsureKeeps(s: State, opts: Settings, target: string, service: string, allowed: bool, now: int)
    requires Inv(s, opts)
    ensures Inv(EnsureStep(s, opts, target, service, allowed, now), opts)
  {
    StartImportKeeps(s, opts, target);
  }

  lemma ReactKeeps(s: State, opts: Settings, ev: Event)
    requires Inv(s, opts)
    ensures Inv(React(s, opts, ev), opts)
  {
    match ev
    case Import(target) => StartImportKeeps(s, opts, target);
    case Ensure(target, service, allowed, now) => EnsureKeeps(s, opts, target, service, allowed, now);
    case Fetched(task, fetch, now) =>
      if task in s.fetching && Possible(opts, s.fetching[task], fetch) {
        FetchedKeeps(s, opts, task, fetch, now);
      }
    case Finalize(task, now) => if task in s.finishing { FinalizeKeeps(s, opts, task, now); }
    case Upload(services) =>
    case Remove(id) => WithoutIdKeeps(s.registry, id);
    case Shutdown =>
  }

  lemma {:induction false} RunKeeps(s: State, opts: Settings, events: seq<Event>)
    requires Inv(s, opts)
    ensures Inv(Run(s, opts, events), opts)
    decreases |events|
  {
    if events != [] {
      ReactKeeps(s, opts, events[0]);
      RunKeeps(React(s, opts, events[0]), opts, events[1..]);
    }
  }

  // ---- the main results

  /** At most one fetch per target is running. */
  lemma OneFetchPerTarget(opts: Settings, events: seq<Event>, a: nat, b: nat)
    requires var s := Run(FRESH, opts, events);
             a in s.fetching && b in s.fetching && s.fetching[a] == s.fetching[b]
    ensures a == b
  {
    RunKeeps(FRESH, opts, events);
  }

  /** At most one descriptor per target came from reflection. */
  lemma OneDescriptorPerTarget(opts: Settings, events: seq<Event>, i: nat, j: nat)
    requires var r := Run(FRESH, opts, events).registry;
             i < |r| && j < |r| && r[i].source.Reflected? && r[i].source == r[j].source
    ensures i == j
  {
    RunKeeps(FRESH, opts, events);
    if i < j {
      assert false;
    } else if j < i {
      assert false;
    }
  }

  /** A target has a recorded failure iff its last completed import failed, and with that import's time. */
  lemma FailureIsLastOutcome(opts: Settings, events: seq<Event>, target: string)
    ensures var s := Run(FRESH, opts, events);
            && (target in s.failures <==> LastFailed(s.completions, target).Some?)
            && (target in s.failures ==>
                  s.failures[target].retryAt == LastFailed(s.completions, target).value + opts.negativeTtlMs)
  {
    RunKeeps(FRESH, opts, events);
  }

  /** After a fetch was stored, the target's descriptor is the new one and all others are as before. */
  lemma ImportReplaces(s: State, opts: Settings, task: nat, found: Found, now: int, d: Descriptor)
    requires task in s.fetching
    ensures var t := FetchedStep(s, opts, task, Got(found, true), now);
            d in t.registry <==>
              (d in s.registry && d.source != Reflected(s.fetching[task]))
              || d == Descriptor(s.nextId, Reflected(s.fetching[task]), found.services)
  {
  }

  lemma {:induction false} WithoutTargetIs(registry: seq<Descriptor>, target: string)
    ensures WithoutTarget(registry, target) == registry <==> forall d <- registry :: d.source != Reflected(target)
    decreases |registry|
  {
    if registry != [] {
      WithoutTargetIs(registry[1..], target);
      var rest := WithoutTarget(registry[1..], target);
      assert registry == [registry[0]] + registry[1..];
      if registry[0].source == Reflected(target) {
        assert |WithoutTarget(registry, target)| < |registry|;
      } else if rest != registry[1..] {
        assert WithoutTarget(registry, target)[1..] == rest;
      }
    }
  }

  /** The import that this fetch belongs to fails. */
  predicate Fails(fetch: Fetch) {
    fetch.Failed? || !fetch.readable
  }

  /**
   * In every run an import that fails leaves the registered descriptors alone,
   * exactly unless it fails on an unreadable set while the target has a
   * descriptor of its own from an earlier import.
   */
  lemma FailedImportKeepsRegistry(opts: Settings, events: seq<Event>, task: nat, fetch: Fetch, now: int)
    requires task in Run(FRESH, opts, events).fetching && Fails(fetch)
    requires Possible(opts, Run(FRESH, opts, events).fetching[task], fetch)
    ensures var s := Run(FRESH, opts, events);
            var t := Run(FRESH, opts, events + [Fetched(task, fetch, now)]);
            var target := s.fetching[task];
            && (t.registry == s.registry <==>
                  fetch.Failed? || forall d <- s.registry :: d.source != Reflected(target))
            && (forall d :: d in t.registry ==> d in s.registry)
            && (forall d :: d in s.registry && d.source != Reflected(target) ==> d in t.registry)
  {
    var s := Run(FRESH, opts, events);
    RunAppend(FRESH, opts, events, Fetched(task, fetch, now));
    FailedRegistry(s, opts, task, fetch, now);
    WithoutTargetIs(s.registry, s.fetching[task]);
  }

  lemma FailedRegistry(s: State, opts: Settings, task: nat, fetch: Fetch, now: int)
    requires task in s.fetching && Fails(fetch) && Possible(opts, s.fetching[task], fetch)
    ensures React(s, opts, Fetched(task, fetch, now)).registry
            == if fetch.Failed? then s.registry else WithoutTarget(s.registry, s.fetching[task])
  {
  }

  lemma {:induction false} RunAppend(s: State, opts: Settings, events: seq<Event>, last: Event)
    ensures Run(s, opts, events + [last]) == React(Run(s, opts, events), opts, last)
    decreases |events|
  {
    if events == [] {
      assert events + [last] == [last] && [last][1..] == [];
    } else {
      assert (events + [last])[1..] == events[1..] + [last];
      RunAppend(React(s, opts, events[0]), opts, events[1..], last);
    }
  }

  function Offering(service: string): Found {
    Found("v1", [service], [], 1, 1)
  }

  /** A first import of `target` that succeeds, and a second one that is under way. */
  function Reimporting(target: string, service: string): seq<Event> {
    [Import(target)] + [Fetched(0, Got(Offering(service), true), 0)] + [Finalize(0, 0)] + [Import(target)]
  }

  /** What the first import leaves behind, with the second one's fetch running. */
  function Reimport(target: string, service: string): State {
    var key := Trim(target);
    FRESH.(inFlight := map[key := 1], fetching := map[1 := key], nextTask := 2,
           imports := map[key := ImportRecord(0, Offering(service), 0)],
           registry := [Descriptor(0, Reflected(key), [service])], nextId := 1,
           completions := [Completion(key, None, 0)])
  }

  lemma ReimportReached(opts: Settings, target: string, service: string)
    requires opts.wellFormed(Trim(target))
    ensures Run(FRESH, opts, Reimporting(target, service)) == Reimport(target, service)
  {
    var s1 := React(FRESH, opts, Import(target));
    var s2 := React(s1, opts, Fetched(0, Got(Offering(service), true), 0));
    var s3 := React(s2, opts, Finalize(0, 0));
    assert Run(FRESH, opts, []) == FRESH && [] + [Import(target)] == [Import(target)];
    RunAppend(FRESH, opts, [], Import(target));
    RunAppend(FRESH, opts, [Import(target)], Fetched(0, Got(Offering(service), true), 0));
    RunAppend(FRESH, opts, [Import(target)] + [Fetched(0, Got(Offering(service), true), 0)], Finalize(0, 0));
    RunAppend(FRESH, opts, [Import(target)] + [Fetched(0, Got(Offering(service), true), 0)] + [Finalize(0, 0)], Import(target));
    assert s2.registry == [Descriptor(0, Reflected(Trim(target)), [service])];
    assert s3.inFlight == map[] && s3.fetching == map[] && s3.finishing == map[];
  }

  /** The second import brings a set that cannot be read: it fails, and what the first one registered is gone. */
  lemma UnreadableDropsEarlier(opts: Settings, target: string, service: string)
    requires opts.wellFormed(Trim(target))
    ensures var before := Run(FRESH, opts, Reimporting(target, service));
            var after := Run(FRESH, opts, Reimporting(target, service) + [Fetched(1, Got(Offering(service), false), 1)]);
            && HasService(before.registry, service) && Trim(target) in before.imports
            && !HasService(after.registry, service) && after.registry == []
            && after.imports == before.imports && Trim(target) in after.failures
  {
    var s := Reimport(target, service);
    ReimportReached(opts, target, service);
    RunAppend(FRESH, opts, Reimporting(target, service), Fetched(1, Got(Offering(service), false), 1));
    assert service in s.registry[0].services;
    assert WithoutTarget(s.registry, Trim(target)) == [];
  }

  /** `ensure` for `target` leaves the upstream alone while its last failure is fresh. */
  ghost predicate KeepsBackoff(opts: Settings, target: string) {
    forall events, service, allowed, now ::
      var s := Run(FRESH, opts, events);
      var failed := LastFailed(s.completions, Trim(target));
      failed.Some? && now < failed.value + opts.negativeTtlMs ==>
        React(s, opts, Ensure(target, service, allowed, now)) == s
  }

  /** An import of `target` that fails at time 0. */
  function FailedImport(target: string): seq<Event> {
    [Import(target), Fetched(0, Failed(Unusable("refused")), 0), Finalize(0, 0)]
  }

  lemma AfterFailedImport(opts: Settings, target: string)
    requires opts.wellFormed(Trim(target))
    ensures var s := Run(FRESH, opts, FailedImport(target));
            && LastFailed(s.completions, Trim(target)) == Some(0)
            && s.failures.Keys == {Trim(target)} && s.inFlight == map[] && s.registry == [] && !s.closed
            && s.unknownServices == map[] && s.nextTask == 1
  {
    var s1 := React(FRESH, opts, Import(target));
    var s2 := React(s1, opts, Fetched(0, Failed(Unusable("refused")), 0));
    var s3 := React(s2, opts, Finalize(0, 0));
    var events := FailedImport(target);
    assert events[1..] == [Fetched(0, Failed(Unusable("refused")), 0), Finalize(0, 0)];
    assert events[1..][1..] == [Finalize(0, 0)] && [Finalize(0, 0)][1..] == [];
    assert Run(FRESH, opts, events) == Run(s1, opts, events[1..]) == Run(s2, opts, [Finalize(0, 0)]) == s3;
    LastFailedAppend([], Completion(Trim(target), Some(Unusable("refused")), 0), Trim(target));
  }

  lemma BackoffKept(opts: Settings, target: string)
    requires Trimmed(target) || !opts.wellFormed(Trim(target))
    ensures KeepsBackoff(opts, target)
  {
    TrimTrims(target);
    forall events, service, allowed, now |
      var failed := LastFailed(Run(FRESH, opts, events).completions, Trim(target));
      failed.Some? && now < failed.value + opts.negativeTtlMs
      ensures React(Run(FRESH, opts, events), opts, Ensure(target, service, allowed, now)) == Run(FRESH, opts, events)
    {
      RunKeeps(FRESH, opts, events);
      FreshFailureStops(Run(FRESH, opts, events), opts, target, service, allowed, now);
    }
  }

  lemma FreshFailureStops(s: State, opts: Settings, target: string, service: string, allowed: bool, now: int)
    requires FailuresAgree(s.failures, s.completions, opts) && (Trimmed(target) || !opts.wellFormed(Trim(target)))
    requires Trimmed(target) ==> Trim(target) == target
    requires var failed := LastFailed(s.completions, Trim(target));
             failed.Some? && now < failed.value + opts.negativeTtlMs
    ensures React(s, opts, Ensure(target, service, allowed, now)) == s
  {
    assert Trim(target) in s.failures;
  }

  lemma BackoffLost(opts: Settings, target: string)
    requires opts.auto && opts.negativeTtlMs > 0 && Trim(target) != target && opts.wellFormed(Trim(target))
    ensures !KeepsBackoff(opts, target)
  {
    var s := Run(FRESH, opts, FailedImport(target));
    AfterFailedImport(opts, target);
    assert EnsureStarts(s, opts, target, "pkg.Service", true, 0);
    assert React(s, opts, Ensure(target, "pkg.Service", true, 0)).nextTask == 2;
  }

  /**
   * The back-off holds exactly for targets without white space at their ends,
   * and for those that are malformed and so never reach an upstream: `import`
   * files failures under the trimmed target, `ensure` looks them up under the
   * target as given.
   */
  lemma BackoffKeptIff(opts: Settings, target: string)
    requires opts.auto && opts.negativeTtlMs > 0
    ensures KeepsBackoff(opts, target) <==> Trimmed(target) || !opts.wellFormed(Trim(target))
  {
    TrimTrims(target);
    if Trimmed(target) || !opts.wellFormed(Trim(target)) {
      BackoffKept(opts, target);
    } else {
      BackoffLost(opts, target);
    }
  }

  // ---- the class

  /** `fetching`, `finishing` and `waiting` stand for the pending promises and their callbacks. */
  class ReflectionImporter {
    const opts: Settings
    var closed: bool
    var inFlight: map<string, nat>
    var fetching: map<nat, string>
    var finishing: map<nat, (string, bool)>
    var nextTask: nat
    var failures: map<string, Failure>
    var imports: map<string, ImportRecord>
    var unknownServices: map<string, int>
    var waiting: seq<Waiter>
    var registry: seq<Descriptor>
    var nextId: nat
    var observed: seq<Entry>
    ghost var completions: seq<Completion>

    ghost predicate Valid()
      reads this
    {
      Inv(Abs(), opts) && Bounded(observed)
    }

    ghost function Abs(): State
      reads this
    {
      State(closed, inFlight, fetching, finishing, nextTask, failures, imports, unknownServices, waiting, registry,
            nextId, completions)
    }

    constructor (opts: Settings)
      ensures Valid() && Abs() == FRESH && observed == [] && this.opts == opts
    {
      this.opts := opts;
      closed, inFlight, fetching, finishing, nextTask := false, map[], map[], map[], 0;
      failures, imports, unknownServices, waiting := map[], map[], map[], [];
      registry, nextId, observed, completions := [], 0, [], [];
    }

    /** Joins the running import of the target or starts one. */
    method Import(target: string) returns (task: nat)
      requires Valid()
      modifies this`inFlight, this`fetching, this`nextTask
      ensures Valid() && Abs() == StartImport(old(Abs()), target)
      ensures Trim(target) in inFlight && task == inFlight[Trim(target)]
    {
      StartImportKeeps(Abs(), opts, target);
      task := JoinOrStart(Trim(target));
    }

    method JoinOrStart(key: string) returns (task: nat)
      modifies this`inFlight, this`fetching, this`nextTask
      ensures Abs() == Joined(old(Abs()), key) && key in inFlight && task == inFlight[key]
    {
      if key in inFlight {
        return inFlight[key];
      }
      task := nextTask;
      nextTask := nextTask + 1;
      fetching := fetching[task := key];
      inFlight := inFlight[key := task];
    }

    /** The catch clause of `run`. */
    method FailRun(task: nat, target: string, reason: Reason, now: int)
      modifies this`failures, this`fetching, this`finishing, this`completions
      ensures Abs() == RunFailed(old(Abs()), opts, task, target, reason, now)
    {
      if reason != InvalidTarget {
        failures := failures[target := Failure(reason, now, now + opts.negativeTtlMs)];
      }
      EndRun(task, target, Some(reason), now);
    }

    method EndRun(task: nat, target: string, reason: Option<Reason>, now: int)
      modifies this`fetching, this`finishing, this`completions
      ensures Abs() == Complete(old(Abs()), task, target, reason, now)
    {
      fetching := fetching - {task};
      finishing := finishing[task := (target, reason.None?)];
      completions := completions + [Completion(target, reason, now)];
    }

    method StoreDescriptor(target: string, found: Found, now: int)
      modifies this`failures, this`registry, this`nextId, this`imports
      ensures Abs() == Stored(old(Abs()), target, found, now)
    {
      registry := registry + [Descriptor(nextId, Reflected(target), found.services)];
      failures := failures - {target};
      imports := imports[target := ImportRecord(nextId, found, now)];
      nextId := nextId + 1;
    }

    /** The rest of `run` once the fetch has settled. */
    method AfterFetch(task: nat, fetch: Fetch, now: int)
      requires task in fetching
      modifies this`failures, this`fetching, this`finishing, this`completions, this`registry, this`nextId, this`imports
      ensures Abs() == FetchedStep(old(Abs()), opts, task, fetch, now)
    {
      var target := fetching[task];
      if fetch.Failed? {
        FailRun(task, target, fetch.reason, now);
        return;
      }
      registry := WithoutTarget(registry, target);
      if !fetch.readable {
        FailRun(task, target, Unusable("invalid"), now);
        return;
      }
      StoreDescriptor(target, fetch.found, now);
      EndRun(task, target, None, now);
    }

    method OnFetched(task: nat, fetch: Fetch, now: int)
      requires Valid() && task in fetching && Possible(opts, fetching[task], fetch)
      modifies this
      ensures Valid() && Abs() == FetchedStep(old(Abs()), opts, task, fetch, now) && observed == old(observed)
    {
      FetchedKeeps(Abs(), opts, task, fetch, now);
      GoOn(task, fetch, now, FetchedStep(Abs(), opts, task, fetch, now));
    }

    /** `after` is the state that the rest of `run` leaves. */
    method GoOn(task: nat, fetch: Fetch, now: int, ghost after: State)
      requires task in fetching && after == FetchedStep(Abs(), opts, task, fetch, now)
      requires Inv(after, opts) && Bounded(observed)
      modifies this
      ensures Valid() && Abs() == after && observed == old(observed)
    {
      AfterFetch(task, fetch, now);
    }

    method Finish(task: nat, now: int)
      requires task in finishing
      modifies this`inFlight, this`finishing, this`unknownServices, this`waiting
      ensures Abs() == FinalizeStep(old(Abs()), opts, task, now)
    {
      var (target, succeeded) := finishing[task];
      inFlight := inFlight - {target};
      finishing := finishing - {task};
      if succeeded {
        NotifyWaiters(task, now + opts.negativeTtlMs);
      }
      waiting := StillWaiting(waiting, task);
    }

    method OnFinally(task: nat, now: int)
      requires Valid() && task in finishing
      modifies this
      ensures Valid() && Abs() == FinalizeStep(old(Abs()), opts, task, now) && observed == old(observed)
    {
      FinalizeKeeps(Abs(), opts, task, now);
      Finish(task, now);
    }

    method NotifyWaiters(task: nat, until: int)
      modifies this`unknownServices
      ensures unknownServices == Notify(waiting, task, registry, until, old(unknownServices))
    {
      for i := 0 to |waiting|
        invariant Notify(waiting[i..], task, registry, until, unknownServices)
                  == Notify(waiting, task, registry, until, old(unknownServices))
      {
        var w := waiting[i];
        assert waiting[i..][1..] == waiting[i + 1..];
        if w.task == task && !HasService(registry, w.service) {
          unknownServices := unknownServices[UnknownKey(w.target, w.service) := until];
        }
      }
    }

    method EnsureImported(target: string, service: string, allowed: bool, now: int)
      requires Valid()
      modifies this
      ensures Valid() && Abs() == EnsureStep(old(Abs()), opts, target, service, allowed, now) && observed == old(observed)
    {
      EnsureKeeps(Abs(), opts, target, service, allowed, now);
      Consider(target, service, allowed, now, EnsureStep(Abs(), opts, target, service, allowed, now));
    }

    /** `after` is the state that `ensure` leaves. */
    method Consider(target: string, service: string, allowed: bool, now: int, ghost after: State)
      requires after == EnsureStep(Abs(), opts, target, service, allowed, now) && Inv(after, opts) && Bounded(observed)
      modifies this
      ensures Valid() && Abs() == after && observed == old(observed)
    {
      if !opts.auto || closed {
        return;
      }
      if service == "" || HasService(registry, service) {
        return;
      }
      if !allowed {
        return;
      }
      var unknownKey := UnknownKey(target, service);
      if unknownKey in unknownServices && unknownServices[unknownKey] > now {
        return;
      }
      if target in failures && failures[target].retryAt > now {
        return;
      }
      var task := JoinOrStart(Trim(target));
      waiting := waiting + [Waiter(task, target, service)];
    }

    /** The entry of a target, made if it is missing. */
    method EntryOf(target: string, configured: bool, now: int) returns (i: nat)
      modifies this`observed
      ensures observed == EntryFor(old(observed), target, configured, now)
      ensures IndexOf(observed, target) == Some(i)
    {
      var existing := IndexOf(observed, target);
      if existing.Some? {
        return existing.value;
      }
      if |observed| >= MAX_OBSERVED_TARGETS {
        var oldest := FindOldest(observed);
        observed := observed[..oldest] + observed[oldest + 1..];
      }
      observed := observed + [Entry(target, configured, now, now, 0, {}, {})];
      assert observed[|observed| - 1].target == target;
      i := IndexOf(observed, target).value;
    }

    method Observe(target: string, service: string, known: bool, now: int)
      requires Valid()
      modifies this`observed
      ensures Valid() && observed == Note(old(observed), Observed(target, service, known, now))
    {
      NoteKeeps(observed, Observed(target, service, known, now));
      var i := EntryOf(target, false, now);
      var entry := CountSighting(observed[i], service, known, now);
      observed := observed[i := entry];
    }

    method NoteConfiguredUpstream(target: string, now: int)
      requires Valid()
      modifies this`observed
      ensures Valid() && observed == Note(old(observed), Configured(target, now))
    {
      NoteKeeps(observed, Configured(target, now));
      var i := EntryOf(target, true, now);
      observed := observed[i := observed[i].(configured := true)];
    }
  }

  method CountSighting(before: Entry, service: string, known: bool, now: int) returns (entry: Entry)
    ensures entry == Seen(before, service, known, now)
  {
    entry := before.(lastSeenAt := now, requests := before.requests + 1);
    if service == "" {
      return;
    }
    if known {
      entry := entry.(unknownServices := entry.unknownServices - {service});
      if |entry.services| < MAX_SERVICES_PER_TARGET {
        entry := entry.(services := entry.services + {service});
      }
    } else if |entry.unknownServices| < MAX_SERVICES_PER_TARGET {
      entry := entry.(unknownServices := entry.unknownServices + {service});
    }
  }

  method FindOldest(entries: seq<Entry>) returns (oldest: nat)
    requires entries != []
    ensures oldest == Oldest(entries)
  {
    oldest := 0;
    for k := 1 to |entries|
      invariant oldest < k && oldest == Oldest(entries[..k])
    {
      assert entries[..k + 1][..k] == entries[..k];
      if entries[k].lastSeenAt < entries[oldest].lastSeenAt {
        oldest := k;
      }
    }
    assert entries[..|entries|] == entries;
  }
}
