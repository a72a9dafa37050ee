/**
 * `readBody` of src/logging/traffic-log.ts while the store is in use: the entry
 * is looked up, then the queue as it stands is waited for, and meanwhile
 * entries come and go and the file system works.
 */
module LogReading {
  import opened Common
  import opened LogNames
  import opened Paging
  import opened TrafficLog

  datatype Meanwhile = Working(op: LogOp) | Settling

  // ---- one file under the queue

  predicate NotWritten(ops: seq<DiskOp>, path: string) {
    forall i :: 0 <= i < |ops| ==> !(ops[i].WriteFile? && ops[i].path == path)
  }

  /** The file holds the body, or is gone. */
  predicate HoldsOrGone(disk: Disk, path: string, body: Bytes) {
    path in disk ==> disk[path] == body
  }

  /**
   * After the first `left` operations of the queue the file holds the body or
   * is gone, and nothing behind them writes it.
   */
  predicate Awaited(disk: Disk, pending: seq<DiskOp>, left: nat, path: string, body: Bytes) {
    && left <= |pending|
    && HoldsOrGone(ApplyAll(disk, pending[..left]), path, body)
    && NotWritten(pending[left..], path)
  }

  lemma AwaitedGrows(disk: Disk, before: seq<DiskOp>, after: seq<DiskOp>, left: nat, path: string, body: Bytes)
    requires Awaited(disk, before, left, path, body) && before <= after
    requires forall i :: |before| <= i < |after| ==> !(after[i].WriteFile? && after[i].path == path)
    ensures Awaited(disk, after, left, path, body)
  {
    assert after[..left] == before[..left];
    forall i | 0 <= i < |after[left..]|
      ensures !(after[left..][i].WriteFile? && after[left..][i].path == path)
    {
      if left + i < |before| {
        assert after[left..][i] == before[left..][i];
      }
    }
  }

  /** The operation at the head of the queue is done. */
  lemma AwaitedSettles(disk: Disk, pending: seq<DiskOp>, left: nat, path: string, body: Bytes)
    requires Awaited(disk, pending, left, path, body) && pending != []
    ensures Awaited(Apply(disk, pending[0]), pending[1..], if left > 0 then left - 1 else 0, path, body)
  {
    if left > 0 {
      assert pending[..left][1..] == pending[1..][..left - 1];
      assert pending[left..] == pending[1..][left - 1..];
    } else {
      assert pending[..0] == [] && pending[1..][..0] == [];
      assert pending[0..] == pending;
      assert !(pending[0].WriteFile? && pending[0].path == path);
      assert pending[1..][0..] == pending[1..];
      assert forall i :: 0 <= i < |pending[1..]| ==> pending[1..][i] == pending[i + 1];
    }
  }

  /** What a queue that does not write a file leaves in it was there before. */
  lemma {:induction false} NotWrittenKeeps(disk: Disk, ops: seq<DiskOp>, path: string)
    requires NotWritten(ops, path) && path in ApplyAll(disk, ops)
    ensures path in disk && disk[path] == ApplyAll(disk, ops)[path]
    decreases |ops|
  {
    if ops != [] {
      assert forall i :: 0 <= i < |ops[1..]| ==> ops[1..][i] == ops[i + 1];
      NotWrittenKeeps(Apply(disk, ops[0]), ops[1..], path);
    }
  }

  // ---- the store in use

  /** One operation on the store, none of which writes a file of an entry that is already there. */
  method Work(
    store: TrafficLogStore, op: LogOp, ghost j: nat, ghost kind: BodyKind, ghost left: nat, ghost body: Bytes)
    requires store.Valid() && j < |store.history|
    requires Awaited(store.disk, store.pending, left, BodyPath(store.dir, IdOf(store.history[j], j), kind), body)
    modifies store
    ensures store.Valid() && old(store.history) <= store.history && old(store.Lo()) <= store.Lo()
    ensures Awaited(store.disk, store.pending, left, BodyPath(store.dir, IdOf(store.history[j], j), kind), body)
  {
    ghost var path := BodyPath(store.dir, IdOf(store.history[j], j), kind);
    ghost var before, disk, fresh_ := store.pending, store.disk, |store.history|;
    match op
    case Adding(draft) =>
      var entry := store.Add(draft);
      forall i | |before| <= i < |store.pending|
        ensures !(store.pending[i].WriteFile? && store.pending[i].path == path)
      {
        if WritesFor(store.pending[i], store.dir, entry.id) {
          var other :| store.pending[i].path == BodyPath(store.dir, entry.id, other);
          PathsApart(store.dir, store.history, j, fresh_, kind, other);
        }
      }
      AwaitedGrows(disk, before, store.pending, left, path, body);
    case Retaining(now) =>
      var _ := store.ApplyRetention(now);
      AwaitedGrows(disk, before, store.pending, left, path, body);
    case Clearing =>
      var _ := store.Clear();
      AwaitedGrows(disk, before, store.pending, left, path, body);
  }

  /** `await this.flush()`: the operations queued at the call, and perhaps others, get done. */
  method AwaitQueue(
    store: TrafficLogStore, during: seq<Meanwhile>, ghost j: nat, ghost kind: BodyKind, ghost body: Bytes)
    requires store.Valid() && j < |store.history|
    requires Awaited(store.disk, store.pending, |store.pending|,
                     BodyPath(store.dir, IdOf(store.history[j], j), kind), body)
    modifies store
    ensures store.Valid() && old(store.history) <= store.history && old(store.Lo()) <= store.Lo()
    ensures Awaited(store.disk, store.pending, 0, BodyPath(store.dir, IdOf(store.history[j], j), kind), body)
  {
    var left: nat := |store.pending|;
    ghost var path := BodyPath(store.dir, IdOf(store.history[j], j), kind);
    for i := 0 to |during|
      invariant store.Valid() && old(store.history) <= store.history && old(store.Lo()) <= store.Lo()
      invariant Awaited(store.disk, store.pending, left, path, body)
    {
      match during[i]
      case Working(op) => Work(store, op, j, kind, left, body);
      case Settling =>
        if store.pending != [] {
          left := SettleOne(store, left, path, body);
        }
    }
    while left > 0
      invariant store.Valid() && old(store.history) <= store.history && old(store.Lo()) <= store.Lo()
      invariant Awaited(store.disk, store.pending, left, path, body)
    {
      left := SettleOne(store, left, path, body);
    }
  }

  method SettleOne(store: TrafficLogStore, left: nat, ghost path: string, ghost body: Bytes) returns (now: nat)
    requires store.Valid() && store.pending != [] && Awaited(store.disk, store.pending, left, path, body)
    modifies store`pending, store`disk
    ensures store.Valid() && now == (if left > 0 then left - 1 else 0)
    ensures Awaited(store.disk, store.pending, now, path, body)
  {
    AwaitedSettles(store.disk, store.pending, left, path, body);
    store.Settle();
    now := if left > 0 then left - 1 else 0;
  }

  /**
   * The body of an entry that was there at the call is read as it was added,
   * whatever happens meanwhile; only if the entry has been dropped meanwhile
   * may there be none.
   */
  method ReadBodyInUse(store: TrafficLogStore, id: string, kind: BodyKind, during: seq<Meanwhile>)
    returns (body: Option<Bytes>)
    requires store.Valid()
    modifies store
    ensures store.Valid() && old(store.history) <= store.history
    ensures id !in old(store.byId) ==> body == None
    ensures forall j :: old(store.Lo()) <= j < |old(store.history)| && id == IdOf(old(store.history)[j], j) ==>
              var bodies := old(store.history)[j].bodies;
              if kind !in bodies then body == None
              else body == Some(bodies[kind]) || (body == None && j < store.Lo())
  {
    store.ReadsBack(id, kind);
    if id !in store.byId || kind !in store.byId[id].bodyKinds {
      return None;
    }
    var path := BodyPath(store.dir, id, kind);
    ghost var j: nat, wanted := Sought(store, id, kind);
    AwaitQueue(store, during, j, kind, wanted);
    ghost var disk, pending := store.disk, store.pending;
    assert pending[..0] == [] && pending[0..] == pending;
    if store.Lo() <= j {
      store.ReadsBack(id, kind);
      NotWrittenKeeps(disk, pending, path);
    }
    return if path in store.disk then Some(store.disk[path]) else None;
  }

  /** The entry that an indexed id stands for, and the body it was added with. */
  lemma Sought(store: TrafficLogStore, id: string, kind: BodyKind) returns (j: nat, body: Bytes)
    requires store.Valid() && id in store.byId && kind in store.byId[id].bodyKinds
    ensures store.Lo() <= j < |store.history| && id == IdOf(store.history[j], j)
    ensures kind in store.history[j].bodies && body == store.history[j].bodies[kind]
    ensures Awaited(store.disk, store.pending, |store.pending|, BodyPath(store.dir, id, kind), body)
    ensures forall i :: store.Lo() <= i < |store.history| && id == IdOf(store.history[i], i) ==> i == j
  {
    IndexKeys(store.history, store.Lo(), id);
    var i :| store.Lo() <= i < |store.history| && id == IdOf(store.history[i], i);
    j := i;
    store.ReadsBack(id, kind);
    body := store.history[j].bodies[kind];
    assert store.pending[..|store.pending|] == store.pending;
    forall i | store.Lo() <= i < |store.history| && id == IdOf(store.history[i], i)
      ensures i == j
    {
      LogIdInjective(store.history[i].date, i + 1, store.history[j].date, j + 1);
    }
  }
}
