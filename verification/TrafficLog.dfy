/**
 * The traffic log store (src/logging/traffic-log.ts): a bounded FIFO with an
 * id index, a byte total, and a queue of body file writes and unlinks.
 */
module TrafficLog {
  import opened Common
  import opened LogNames
  import opened Paging

  type Bodies = map<BodyKind, Bytes>

  /** What a caller hands to `add`; `date` is the id text of `startedAt`, `text` the rest of the entry. */
  datatype Draft = Draft(startedAt: int, date: string, bodies: Bodies, text: string)

  datatype Stored = Stored(entry: LogEntry, bodyBytes: nat, bodyKinds: seq<BodyKind>)

  datatype DiskOp = WriteFile(path: string, body: Bytes) | Unlink(path: string)

  type Disk = map<string, Bytes>

  const KINDS := [RequestBody, ForwardedRequestBody, UpstreamResponseBody, ResponseBody]

  // ---- a draft and what is kept of it

  function KindsIn(kinds: seq<BodyKind>, bodies: Bodies): seq<BodyKind> {
    if kinds == [] then []
    else (if kinds[0] in bodies then [kinds[0]] else []) + KindsIn(kinds[1..], bodies)
  }

  function BytesIn(kinds: seq<BodyKind>, bodies: Bodies): nat {
    if kinds == [] then 0
    else (if kinds[0] in bodies then |bodies[kinds[0]]| else 0) + BytesIn(kinds[1..], bodies)
  }

  /** The id of the entry added after `number` others: sequence numbers start at 1. */
  function IdOf(draft: Draft, number: nat): string {
    FormatLogId(draft.date, number + 1)
  }

  function EntryOf(draft: Draft, number: nat): LogEntry {
    LogEntry(IdOf(draft, number), number, draft.startedAt, draft.text)
  }

  function StoredOf(draft: Draft, number: nat): Stored {
    Stored(EntryOf(draft, number), BytesIn(KINDS, draft.bodies), KindsIn(KINDS, draft.bodies))
  }

  // ---- the whole history, from a position on

  function StoredFrom(history: seq<Draft>, lo: nat): seq<Stored>
    requires lo <= |history|
  {
    seq(|history| - lo, i requires 0 <= i < |history| - lo => StoredOf(history[lo + i], lo + i))
  }

  function Listed(entries: seq<Stored>): seq<LogEntry> {
    seq(|entries|, i requires 0 <= i < |entries| => entries[i].entry)
  }

  function EntriesOf(history: seq<Draft>): seq<LogEntry> {
    seq(|history|, i requires 0 <= i < |history| => EntryOf(history[i], i))
  }

  function BytesFrom(history: seq<Draft>, lo: nat): nat
    requires lo <= |history|
    decreases |history| - lo
  {
    if lo == |history| then 0 else BytesIn(KINDS, history[lo].bodies) + BytesFrom(history, lo + 1)
  }

  function IndexFrom(history: seq<Draft>, lo: nat): map<string, Stored>
    requires lo <= |history|
    decreases |history| - lo
  {
    if lo == |history| then map[]
    else IndexFrom(history, lo + 1)[IdOf(history[lo], lo) := StoredOf(history[lo], lo)]
  }

  /** The body files of one entry. */
  function FilesIn(dir: string, kinds: seq<BodyKind>, bodies: Bodies, id: string): Disk {
    if kinds == [] then map[]
    else
      (if kinds[0] in bodies then map[BodyPath(dir, id, kinds[0]) := bodies[kinds[0]]] else map[])
      + FilesIn(dir, kinds[1..], bodies, id)
  }

  /** Exactly the body files of the entries from `lo` on. */
  function FilesFrom(dir: string, history: seq<Draft>, lo: nat): Disk
    requires lo <= |history|
    decreases |history| - lo
  {
    if lo == |history| then map[]
    else FilesIn(dir, KINDS, history[lo].bodies, IdOf(history[lo], lo)) + FilesFrom(dir, history, lo + 1)
  }

  // ---- the queue of file operations

  function Apply(disk: Disk, op: DiskOp): Disk {
    match op
    case WriteFile(path, body) => disk[path := body]
    case Unlink(path) => disk - {path}
  }

  /** The disk once the queue has drained, first operation first. */
  function ApplyAll(disk: Disk, ops: seq<DiskOp>): Disk
    decreases |ops|
  {
    if ops == [] then disk else ApplyAll(Apply(disk, ops[0]), ops[1..])
  }

  function WritesIn(dir: string, kinds: seq<BodyKind>, bodies: Bodies, id: string): seq<DiskOp> {
    if kinds == [] then []
    else
      (if kinds[0] in bodies then [WriteFile(BodyPath(dir, id, kinds[0]), bodies[kinds[0]])] else [])
      + WritesIn(dir, kinds[1..], bodies, id)
  }

  function UnlinksOf(dir: string, kinds: seq<BodyKind>, id: string): seq<DiskOp> {
    if kinds == [] then [] else [Unlink(BodyPath(dir, id, kinds[0]))] + UnlinksOf(dir, kinds[1..], id)
  }

  lemma UnlinksSplit(dir: string, kinds: seq<BodyKind>, i: nat, id: string)
    requires i < |kinds|
    ensures UnlinksOf(dir, kinds[i..], id)
            == [Unlink(BodyPath(dir, id, kinds[i]))] + UnlinksOf(dir, kinds[i + 1..], id)
  {
    assert kinds[i..][1..] == kinds[i + 1..];
  }

  /** The queue has grown by unlinks alone. */
  predicate GrewByUnlinks(before: seq<DiskOp>, after: seq<DiskOp>) {
    before <= after && forall i :: |before| <= i < |after| ==> after[i].Unlink?
  }

  /** The queue has grown, and the only writes among the new operations are to files of entry `id`. */
  ghost predicate GrewFor(before: seq<DiskOp>, after: seq<DiskOp>, dir: string, id: string) {
    before <= after && forall i :: |before| <= i < |after| ==> after[i].Unlink? || WritesFor(after[i], dir, id)
  }

  ghost predicate WritesFor(op: DiskOp, dir: string, id: string) {
    exists kind :: op.path == BodyPath(dir, id, kind)
  }

  lemma {:induction false} UnlinksAre(dir: string, kinds: seq<BodyKind>, id: string)
    ensures forall op <- UnlinksOf(dir, kinds, id) :: op.Unlink?
    decreases |kinds|
  {
    if kinds != [] {
      UnlinksAre(dir, kinds[1..], id);
    }
  }

  lemma {:induction false} WritesAre(dir: string, kinds: seq<BodyKind>, bodies: Bodies, id: string)
    ensures forall op <- WritesIn(dir, kinds, bodies, id) :: WritesFor(op, dir, id)
    decreases |kinds|
  {
    if kinds != [] {
      WritesAre(dir, kinds[1..], bodies, id);
      assert WritesFor(WriteFile(BodyPath(dir, id, kinds[0]), []), dir, id);
    }
  }

  lemma Regroup(before: seq<DiskOp>, op: DiskOp, rest: seq<DiskOp>)
    ensures before + ([op] + rest) == before + [op] + rest
  {
  }

  function PathsOf(dir: string, kinds: seq<BodyKind>, id: string): set<string> {
    if kinds == [] then {} else {BodyPath(dir, id, kinds[0])} + PathsOf(dir, kinds[1..], id)
  }

  lemma {:induction false} ApplyAllAppend(disk: Disk, first: seq<DiskOp>, second: seq<DiskOp>)
    ensures ApplyAll(disk, first + second) == ApplyAll(ApplyAll(disk, first), second)
    decreases |first|
  {
    if first == [] {
      assert first + second == second;
    } else {
      assert (first + second)[1..] == first[1..] + second;
      ApplyAllAppend(Apply(disk, first[0]), first[1..], second);
    }
  }

  lemma MergeAssociative(a: Disk, b: Disk, c: Disk)
    ensures (a + b) + c == a + (b + c)
  {
  }

  lemma RemoveTwice(a: Disk, first: set<string>, second: set<string>)
    ensures (a - first) - second == a - (first + second)
  {
  }

  lemma MergeFirst(disk: Disk, path: string, body: Bytes, rest: Disk)
    ensures disk[path := body] + rest == disk + (map[path := body] + rest)
  {
    assert disk[path := body] == disk + map[path := body];
    MergeAssociative(disk, map[path := body], rest);
  }

  lemma {:induction false} WritesLand(disk: Disk, dir: string, kinds: seq<BodyKind>, bodies: Bodies, id: string)
    ensures ApplyAll(disk, WritesIn(dir, kinds, bodies, id)) == disk + FilesIn(dir, kinds, bodies, id)
    decreases |kinds|
  {
    if kinds == [] {
      assert disk + map[] == disk;
    } else {
      var ops, rest := WritesIn(dir, kinds, bodies, id), FilesIn(dir, kinds[1..], bodies, id);
      if kinds[0] in bodies {
        var path, body := BodyPath(dir, id, kinds[0]), bodies[kinds[0]];
        assert ops[0] == WriteFile(path, body) && ops[1..] == WritesIn(dir, kinds[1..], bodies, id);
        WritesLand(disk[path := body], dir, kinds[1..], bodies, id);
        MergeFirst(disk, path, body, rest);
      } else {
        assert ops == WritesIn(dir, kinds[1..], bodies, id);
        WritesLand(disk, dir, kinds[1..], bodies, id);
        assert map[] + rest == rest;
      }
    }
  }

  lemma {:induction false} UnlinksLand(disk: Disk, dir: string, kinds: seq<BodyKind>, id: string)
    ensures ApplyAll(disk, UnlinksOf(dir, kinds, id)) == disk - PathsOf(dir, kinds, id)
    decreases |kinds|
  {
    if kinds == [] {
      assert disk - {} == disk;
    } else {
      var path := BodyPath(dir, id, kinds[0]);
      assert UnlinksOf(dir, kinds, id)[1..] == UnlinksOf(dir, kinds[1..], id);
      UnlinksLand(disk - {path}, dir, kinds[1..], id);
      RemoveTwice(disk, {path}, PathsOf(dir, kinds[1..], id));
    }
  }

  /** The files of an entry are the ones its recorded kinds will unlink. */
  lemma {:induction false} FilesInKeys(dir: string, kinds: seq<BodyKind>, bodies: Bodies, id: string)
    ensures FilesIn(dir, kinds, bodies, id).Keys == PathsOf(dir, KindsIn(kinds, bodies), id)
    decreases |kinds|
  {
    if kinds != [] {
      var rest := FilesIn(dir, kinds[1..], bodies, id);
      FilesInKeys(dir, kinds[1..], bodies, id);
      if kinds[0] in bodies {
        assert KindsIn(kinds, bodies)[1..] == KindsIn(kinds[1..], bodies);
        assert FilesIn(dir, kinds, bodies, id).Keys == {BodyPath(dir, id, kinds[0])} + rest.Keys;
      } else {
        assert map[] + rest == rest;
        assert KindsIn(kinds, bodies) == KindsIn(kinds[1..], bodies);
      }
    }
  }

  lemma {:induction false} FilesInPaths(dir: string, kinds: seq<BodyKind>, bodies: Bodies, id: string, path: string)
    requires path in FilesIn(dir, kinds, bodies, id)
    ensures exists kind :: kind in bodies && path == BodyPath(dir, id, kind)
    decreases |kinds|
  {
    if !(kinds[0] in bodies && path == BodyPath(dir, id, kinds[0])) {
      FilesInPaths(dir, kinds[1..], bodies, id, path);
    }
  }

  lemma {:induction false} FilesFromPaths(dir: string, history: seq<Draft>, lo: nat, path: string)
    requires lo <= |history| && path in FilesFrom(dir, history, lo)
    ensures exists j, kind :: lo <= j < |history| && kind in history[j].bodies
                              && path == BodyPath(dir, IdOf(history[j], j), kind)
    decreases |history| - lo
  {
    if path in FilesFrom(dir, history, lo + 1) {
      FilesFromPaths(dir, history, lo + 1, path);
    } else {
      FilesInPaths(dir, KINDS, history[lo].bodies, IdOf(history[lo], lo), path);
    }
  }

  lemma FileApart(dir: string, history: seq<Draft>, lo: nat, kind: BodyKind)
    requires lo < |history|
    ensures BodyPath(dir, IdOf(history[lo], lo), kind) !in FilesFrom(dir, history, lo + 1)
  {
    var id := IdOf(history[lo], lo);
    var path := BodyPath(dir, id, kind);
    if path in FilesFrom(dir, history, lo + 1) {
      FilesFromPaths(dir, history, lo + 1, path);
      var j, other :| lo < j < |history| && other in history[j].bodies
                      && path == BodyPath(dir, IdOf(history[j], j), other);
      PathsApart(dir, history, lo, j, kind, other);
    }
  }

  lemma PathsApart(dir: string, history: seq<Draft>, i: nat, j: nat, kind: BodyKind, other: BodyKind)
    requires i < j < |history|
    ensures BodyPath(dir, IdOf(history[i], i), kind) != BodyPath(dir, IdOf(history[j], j), other)
  {
    if BodyPath(dir, IdOf(history[i], i), kind) == BodyPath(dir, IdOf(history[j], j), other) {
      BodyPathInjective(dir, IdOf(history[i], i), kind, IdOf(history[j], j), other);
      LogIdInjective(history[i].date, i + 1, history[j].date, j + 1);
    }
  }

  /** No other entry's file has a name of this entry's files. */
  lemma FilesApart(dir: string, history: seq<Draft>, lo: nat)
    requires lo < |history|
    ensures FilesIn(dir, KINDS, history[lo].bodies, IdOf(history[lo], lo)).Keys
            !! FilesFrom(dir, history, lo + 1).Keys
  {
    var id := IdOf(history[lo], lo);
    forall path | path in FilesIn(dir, KINDS, history[lo].bodies, id)
      ensures path !in FilesFrom(dir, history, lo + 1)
    {
      FilesInPaths(dir, KINDS, history[lo].bodies, id, path);
      var kind :| kind in history[lo].bodies && path == BodyPath(dir, id, kind);
      FileApart(dir, history, lo, kind);
    }
  }

  lemma {:induction false} FilesFromAppend(dir: string, history: seq<Draft>, draft: Draft, lo: nat)
    requires lo <= |history|
    ensures FilesFrom(dir, history + [draft], lo)
            == FilesFrom(dir, history, lo) + FilesIn(dir, KINDS, draft.bodies, IdOf(draft, |history|))
    decreases |history| - lo
  {
    var longer := history + [draft];
    var added := FilesIn(dir, KINDS, draft.bodies, IdOf(draft, |history|));
    if lo == |history| {
      assert longer[lo] == draft && FilesFrom(dir, longer, lo + 1) == map[];
      assert added + map[] == added && map[] + added == added;
    } else {
      FilesFromAppend(dir, history, draft, lo + 1);
      MergeAssociative(FilesIn(dir, KINDS, history[lo].bodies, IdOf(history[lo], lo)),
                       FilesFrom(dir, history, lo + 1), added);
    }
  }

  lemma {:induction false} BytesFromAppend(history: seq<Draft>, draft: Draft, lo: nat)
    requires lo <= |history|
    ensures BytesFrom(history + [draft], lo) == BytesFrom(history, lo) + BytesIn(KINDS, draft.bodies)
    decreases |history| - lo
  {
    if lo < |history| {
      BytesFromAppend(history, draft, lo + 1);
    }
  }

  lemma {:induction false} IndexKeys(history: seq<Draft>, lo: nat, id: string)
    requires lo <= |history| && id in IndexFrom(history, lo)
    ensures exists j :: lo <= j < |history| && id == IdOf(history[j], j) && IndexFrom(history, lo)[id] == StoredOf(history[j], j)
    decreases |history| - lo
  {
    if id != IdOf(history[lo], lo) {
      IndexKeys(history, lo + 1, id);
    }
  }

  lemma IdFresh(history: seq<Draft>, lo: nat, j: nat)
    requires j < lo <= |history|
    ensures IdOf(history[j], j) !in IndexFrom(history, lo)
  {
    if IdOf(history[j], j) in IndexFrom(history, lo) {
      IndexKeys(history, lo, IdOf(history[j], j));
      var k :| lo <= k < |history| && IdOf(history[j], j) == IdOf(history[k], k);
      LogIdInjective(history[j].date, j + 1, history[k].date, k + 1);
    }
  }

  lemma {:induction false} IndexFromAppend(history: seq<Draft>, draft: Draft, lo: nat)
    requires lo <= |history|
    ensures IndexFrom(history + [draft], lo)
            == IndexFrom(history, lo)[IdOf(draft, |history|) := StoredOf(draft, |history|)]
    decreases |history| - lo
  {
    var longer := history + [draft];
    if lo == |history| {
      assert IndexFrom(longer, lo + 1) == map[];
    } else {
      IndexFromAppend(history, draft, lo + 1);
      if IdOf(history[lo], lo) == IdOf(draft, |history|) {
        LogIdInjective(history[lo].date, lo + 1, draft.date, |history| + 1);
      }
    }
  }

  // ---- the caps

  /** The entries from `lo` on fit both caps. */
  predicate Fits(history: seq<Draft>, lo: nat, maxEntries: nat, maxBytes: nat)
    requires lo <= |history|
  {
    |history| - lo <= maxEntries && BytesFrom(history, lo) <= maxBytes
  }

  /** No suffix that starts in [floor, lo) fits. */
  predicate NoneFit(history: seq<Draft>, floor: nat, lo: nat, maxEntries: nat, maxBytes: nat)
    requires lo <= |history|
  {
    forall i: nat :: floor <= i < lo ==> !Fits(history, i, maxEntries, maxBytes)
  }

  /** `lo` starts the longest suffix, not reaching below `floor`, that fits both caps. */
  predicate LongestFit(history: seq<Draft>, floor: nat, lo: nat, maxEntries: nat, maxBytes: nat) {
    && floor <= lo <= |history|
    && Fits(history, lo, maxEntries, maxBytes)
    && NoneFit(history, floor, lo, maxEntries, maxBytes)
  }

  /** A suffix that did not fit does not fit with one more entry either. */
  lemma NoneFitAppend(history: seq<Draft>, draft: Draft, floor: nat, lo: nat, maxEntries: nat, maxBytes: nat)
    requires lo <= |history| && NoneFit(history, floor, lo, maxEntries, maxBytes)
    ensures NoneFit(history + [draft], floor, lo, maxEntries, maxBytes)
  {
    forall i: nat | floor <= i < lo ensures !Fits(history + [draft], i, maxEntries, maxBytes) {
      assert !Fits(history, i, maxEntries, maxBytes);
      BytesFromAppend(history, draft, i);
    }
  }

  /** A longer suffix than one that fits may be cut anywhere: shorter ones fit as well. */
  lemma {:induction false} FitsShorter(history: seq<Draft>, lo: nat, hi: nat, maxEntries: nat, maxBytes: nat)
    requires lo <= hi <= |history| && Fits(history, lo, maxEntries, maxBytes)
    ensures Fits(history, hi, maxEntries, maxBytes)
    decreases hi - lo
  {
    if lo < hi {
      FitsShorter(history, lo + 1, hi, maxEntries, maxBytes);
    }
  }

  // ---- what one add and one removal do to the derived state

  lemma AddAgrees(dir: string, history: seq<Draft>, draft: Draft, lo: nat, disk: Disk, pending: seq<DiskOp>)
    requires lo <= |history| && ApplyAll(disk, pending) == FilesFrom(dir, history, lo)
    ensures var longer, id := history + [draft], IdOf(draft, |history|);
            && StoredFrom(longer, lo) == StoredFrom(history, lo) + [StoredOf(draft, |history|)]
            && IndexFrom(longer, lo) == IndexFrom(history, lo)[id := StoredOf(draft, |history|)]
            && BytesFrom(longer, lo) == BytesFrom(history, lo) + BytesIn(KINDS, draft.bodies)
            && ApplyAll(disk, pending + WritesIn(dir, KINDS, draft.bodies, id)) == FilesFrom(dir, longer, lo)
  {
    var writes := WritesIn(dir, KINDS, draft.bodies, IdOf(draft, |history|));
    IndexFromAppend(history, draft, lo);
    BytesFromAppend(history, draft, lo);
    FilesFromAppend(dir, history, draft, lo);
    ApplyAllAppend(disk, pending, writes);
    WritesLand(ApplyAll(disk, pending), dir, KINDS, draft.bodies, IdOf(draft, |history|));
  }

  lemma RemoveFirst(own: Disk, rest: Disk)
    requires own.Keys !! rest.Keys
    ensures (own + rest) - own.Keys == rest
  {
  }

  lemma RemoveAgrees(dir: string, history: seq<Draft>, lo: nat, disk: Disk, pending: seq<DiskOp>)
    requires lo < |history| && ApplyAll(disk, pending) == FilesFrom(dir, history, lo)
    ensures var stored := StoredOf(history[lo], lo);
            && IndexFrom(history, lo) - {stored.entry.id} == IndexFrom(history, lo + 1)
            && BytesFrom(history, lo) - stored.bodyBytes == BytesFrom(history, lo + 1)
            && ApplyAll(disk, pending + UnlinksOf(dir, stored.bodyKinds, stored.entry.id))
               == FilesFrom(dir, history, lo + 1)
  {
    var draft, id := history[lo], IdOf(history[lo], lo);
    IdFresh(history, lo + 1, lo);
    assert IndexFrom(history, lo) - {id} == IndexFrom(history, lo + 1);
    ApplyAllAppend(disk, pending, UnlinksOf(dir, KindsIn(KINDS, draft.bodies), id));
    UnlinksLand(ApplyAll(disk, pending), dir, KindsIn(KINDS, draft.bodies), id);
    FilesInKeys(dir, KINDS, draft.bodies, id);
    FilesApart(dir, history, lo);
    RemoveFirst(FilesIn(dir, KINDS, draft.bodies, id), FilesFrom(dir, history, lo + 1));
  }

  /** `number` counts the adds so far, so it is also `seq`; ghost fields keep the full history. */
  class TrafficLogStore {
    const dir: string
    const maxEntries: nat
    const maxBytes: nat
    const retentionMs: int
    var entries: seq<Stored>
    var byId: map<string, Stored>
    var number: nat
    var totalBodyBytes: int
    var pending: seq<DiskOp>
    var disk: Disk
    ghost var history: seq<Draft>
    ghost var floor: nat

    /** Position of the oldest entry still held. */
    ghost function Lo(): int
      reads this
    {
      |history| - |entries|
    }

    /** Index, total and files agree with the history from `lo` on. */
    ghost predicate Agrees(lo: nat)
      reads this
    {
      && lo <= |history|
      && number == |history|
      && byId == IndexFrom(history, lo)
      && totalBodyBytes == BytesFrom(history, lo)
      && ApplyAll(disk, pending) == FilesFrom(dir, history, lo)
    }

    ghost predicate Holds(lo: nat)
      reads this
    {
      lo <= |history| && entries == StoredFrom(history, lo) && Agrees(lo)
    }

    ghost predicate Valid()
      reads this
    {
      0 <= Lo() && Holds(Lo()) && LongestFit(history, floor, Lo(), maxEntries, maxBytes)
    }

    constructor (dir: string, maxEntries: nat, maxBytes: nat, retentionMs: int)
      ensures Valid() && history == [] && floor == 0
      ensures this.dir == dir && this.maxEntries == maxEntries && this.maxBytes == maxBytes
      ensures this.retentionMs == retentionMs
    {
      this.dir, this.maxEntries, this.maxBytes, this.retentionMs := dir, maxEntries, maxBytes, retentionMs;
      entries, byId, number, totalBodyBytes, pending, disk := [], map[], 0, 0, [], map[];
      history, floor := [], 0;
    }

    /** `buildMessage` for each message of `all`: counts the bodies and queues their writes. */
    method BuildMessages(all: seq<BodyKind>, bodies: Bodies, id: string)
      returns (kinds: seq<BodyKind>, bytes: nat)
      modifies this`pending
      ensures kinds == KindsIn(all, bodies) && bytes == BytesIn(all, bodies)
      ensures pending == old(pending) + WritesIn(dir, all, bodies, id)
    {
      kinds, bytes := [], 0;
      var i := 0;
      while i < |all|
        invariant 0 <= i <= |all|
        invariant kinds + KindsIn(all[i..], bodies) == KindsIn(all, bodies)
        invariant bytes + BytesIn(all[i..], bodies) == BytesIn(all, bodies)
        invariant pending + WritesIn(dir, all[i..], bodies, id) == old(pending) + WritesIn(dir, all, bodies, id)
      {
        var kind := all[i];
        assert all[i..][1..] == all[i + 1..];
        i := i + 1;
        if kind in bodies {
          kinds := kinds + [kind];
          bytes := bytes + |bodies[kind]|;
          pending := pending + [WriteFile(BodyPath(dir, id, kind), bodies[kind])];
        }
      }
    }

    /** Adds one entry and evicts from the old end until both caps hold. */
    method Add(draft: Draft) returns (entry: LogEntry)
      requires Valid()
      modifies this
      ensures Valid() && history == old(history) + [draft] && floor == old(floor)
      ensures entry == EntryOf(draft, |old(history)|) && Later(old(View()), View())
      ensures GrewFor(old(pending), pending, dir, entry.id) && disk == old(disk)
    {
      ghost var lo: nat := Lo();
      NoneFitAppend(history, draft, floor, lo, maxEntries, maxBytes);
      entry := Append(draft, lo);
      EnforceCaps(lo);
    }

    /** `add` up to the caps. */
    method Append(draft: Draft, ghost lo: nat) returns (entry: LogEntry)
      requires Holds(lo)
      modifies this`number, this`entries, this`byId, this`totalBodyBytes, this`pending, this`history
      ensures Holds(lo) && history == old(history) + [draft] && entry == EntryOf(draft, |old(history)|)
      ensures GrewFor(old(pending), pending, dir, entry.id)
    {
      WritesAre(dir, KINDS, draft.bodies, IdOf(draft, |history|));
      AddAgrees(dir, history, draft, lo, disk, pending);
      number := number + 1;
      var id := FormatLogId(draft.date, number);
      var kinds, bytes := BuildMessages(KINDS, draft.bodies, id);
      entry := LogEntry(id, number - 1, draft.startedAt, draft.text);
      var stored := Stored(entry, bytes, kinds);
      entries := entries + [stored];
      byId := byId[id := stored];
      totalBodyBytes := totalBodyBytes + bytes;
      history := history + [draft];
    }

    /** Drops an entry from the index and the total and queues the unlinks of its files. */
    method RemoveStored(stored: Stored, ghost lo: nat)
      requires Agrees(lo) && lo < |history| && stored == StoredOf(history[lo], lo)
      modifies this`byId, this`totalBodyBytes, this`pending
      ensures Agrees(lo + 1) && GrewByUnlinks(old(pending), pending)
    {
      UnlinksAre(dir, stored.bodyKinds, stored.entry.id);
      RemoveAgrees(dir, history, lo, disk, pending);
      byId := byId - {stored.entry.id};
      totalBodyBytes := totalBodyBytes - stored.bodyBytes;
      QueueUnlinks(stored.bodyKinds, stored.entry.id);
    }

    method QueueUnlinks(kinds: seq<BodyKind>, id: string)
      modifies this`pending
      ensures pending == old(pending) + UnlinksOf(dir, kinds, id)
    {
      for i := 0 to |kinds|
        invariant pending + UnlinksOf(dir, kinds[i..], id) == old(pending) + UnlinksOf(dir, kinds, id)
      {
        UnlinksSplit(dir, kinds, i, id);
        Regroup(pending, Unlink(BodyPath(dir, id, kinds[i])), UnlinksOf(dir, kinds[i + 1..], id));
        pending := pending + [Unlink(BodyPath(dir, id, kinds[i]))];
      }
    }

    /** `entries.shift()` and `removeStored` of what it returned. */
    method Shift(ghost lo: nat)
      requires Holds(lo) && lo < |history|
      modifies this`entries, this`byId, this`totalBodyBytes, this`pending
      ensures Holds(lo + 1) && entries == old(entries[1..]) && GrewByUnlinks(old(pending), pending)
      ensures old(entries) != [] && old(entries)[0].entry.startedAt == history[lo].startedAt
    {
      assert entries[0] == StoredOf(history[lo], lo);
      var oldest := entries[0];
      entries := entries[1..];
      RemoveStored(oldest, lo);
    }

    method EnforceCaps(ghost from: nat)
      requires Holds(from) && floor <= from && NoneFit(history, floor, from, maxEntries, maxBytes)
      modifies this`entries, this`byId, this`totalBodyBytes, this`pending
      ensures Valid() && from <= Lo() && GrewByUnlinks(old(pending), pending)
    {
      ghost var lo := EnforceMaxEntries(from);
      lo := EnforceMaxBytes(lo);
    }

    /** The first loop. */
    method EnforceMaxEntries(ghost from: nat) returns (ghost lo: nat)
      requires Holds(from) && floor <= from && NoneFit(history, floor, from, maxEntries, maxBytes)
      modifies this`entries, this`byId, this`totalBodyBytes, this`pending
      ensures from <= lo && Holds(lo) && |entries| <= maxEntries
      ensures NoneFit(history, floor, lo, maxEntries, maxBytes) && GrewByUnlinks(old(pending), pending)
    {
      lo := from;
      while |entries| > maxEntries
        invariant from <= lo && Holds(lo) && NoneFit(history, floor, lo, maxEntries, maxBytes)
        invariant GrewByUnlinks(old(pending), pending)
        decreases |entries|
      {
        lo := EvictOldest(lo);
      }
    }

    /** The second loop. */
    method EnforceMaxBytes(ghost from: nat) returns (ghost lo: nat)
      requires Holds(from) && floor <= from && |entries| <= maxEntries
      requires NoneFit(history, floor, from, maxEntries, maxBytes)
      modifies this`entries, this`byId, this`totalBodyBytes, this`pending
      ensures Valid() && from <= lo == Lo() && GrewByUnlinks(old(pending), pending)
    {
      lo := from;
      while totalBodyBytes > maxBytes && |entries| > 0
        invariant from <= lo && Holds(lo) && |entries| <= maxEntries
        invariant NoneFit(history, floor, lo, maxEntries, maxBytes) && GrewByUnlinks(old(pending), pending)
        decreases |entries|
      {
        lo := EvictOldest(lo);
      }
    }

    /** One turn of either loop: what is left did not fit. */
    method EvictOldest(ghost lo: nat) returns (ghost next: nat)
      requires Holds(lo) && floor <= lo && |entries| > 0 && (|entries| > maxEntries || totalBodyBytes > maxBytes)
      requires NoneFit(history, floor, lo, maxEntries, maxBytes)
      modifies this`entries, this`byId, this`totalBodyBytes, this`pending
      ensures next == lo + 1 && Holds(next) && NoneFit(history, floor, next, maxEntries, maxBytes)
      ensures entries == old(entries[1..]) && GrewByUnlinks(old(pending), pending)
    {
      assert !Fits(history, lo, maxEntries, maxBytes);
      next := lo + 1;
      Shift(lo);
    }

    /**
     * Drops the leading entries older than the cutoff and stops at the first
     * one that is not, even if expired entries follow it.
     */
    method ApplyRetention(now: int) returns (removed: nat)
      requires Valid()
      modifies this`entries, this`byId, this`totalBodyBytes, this`pending, this`floor
      ensures Valid() && Lo() == old(Lo()) + removed && Later(old(View()), View())
      ensures Expired(old(Lo()), Lo(), now - retentionMs)
      ensures |entries| > 0 ==> entries[0].entry.startedAt >= now - retentionMs
      ensures GrewByUnlinks(old(pending), pending)
    {
      ghost var from: nat := Lo();
      removed := DropExpired(now - retentionMs, from);
      FitsShorter(history, from, from + removed, maxEntries, maxBytes);
      if removed > 0 {
        floor := from + removed;
      }
    }

    /** The loop of `applyRetention`. */
    method DropExpired(cutoff: int, ghost from: nat) returns (removed: nat)
      requires Holds(from)
      modifies this`entries, this`byId, this`totalBodyBytes, this`pending
      ensures Holds(from + removed) && GrewByUnlinks(old(pending), pending) && Expired(from, from + removed, cutoff)
      ensures |entries| > 0 ==> entries[0].entry.startedAt >= cutoff
    {
      removed := 0;
      ghost var lo := from;
      while |entries| > 0
        invariant lo == from + removed && Holds(lo) && GrewByUnlinks(old(pending), pending)
        invariant Expired(from, lo, cutoff)
        decreases |entries|
      {
        var dropped := DropOne(cutoff, lo);
        if !dropped {
          break;
        }
        lo := lo + 1;
        removed := removed + 1;
      }
    }

    /** Every entry of the history in that range is older than the cutoff. */
    ghost predicate Expired(from: nat, to: nat, cutoff: int)
      reads this
    {
      forall i :: from <= i < to && i < |history| ==> history[i].startedAt < cutoff
    }

    /** One turn of it. */
    method DropOne(cutoff: int, ghost lo: nat) returns (dropped: bool)
      requires Holds(lo)
      modifies this`entries, this`byId, this`totalBodyBytes, this`pending
      ensures GrewByUnlinks(old(pending), pending)
      ensures dropped ==> Holds(lo + 1) && |entries| == |old(entries)| - 1 && Expired(lo, lo + 1, cutoff)
      ensures !dropped ==>
                Holds(lo) && entries == old(entries) && (|entries| > 0 ==> entries[0].entry.startedAt >= cutoff)
    {
      if |entries| == 0 || entries[0].entry.startedAt >= cutoff {
        return false;
      }
      Shift(lo);
      return true;
    }

    method Clear() returns (removed: nat)
      requires Valid()
      modifies this`entries, this`byId, this`totalBodyBytes, this`pending, this`floor
      ensures Valid() && entries == [] && removed == old(|entries|) && Later(old(View()), View())
      ensures GrewByUnlinks(old(pending), pending)
    {
      removed := |entries|;
      RemoveAll(Lo());
      entries := [];
      floor := |history|;
    }

    /** The loop of `clear`. */
    method RemoveAll(ghost lo: nat)
      requires Holds(lo)
      modifies this`byId, this`totalBodyBytes, this`pending
      ensures Agrees(|history|) && GrewByUnlinks(old(pending), pending)
    {
      for i := 0 to |entries|
        invariant lo + i <= |history| && Agrees(lo + i) && GrewByUnlinks(old(pending), pending)
      {
        RemoveStored(entries[i], lo + i);
      }
    }

    /** The file system finishes the operation at the head of the queue. */
    method Settle()
      requires Valid() && pending != []
      modifies this`pending, this`disk
      ensures Valid() && pending == old(pending[1..]) && disk == Apply(old(disk), old(pending[0]))
    {
      disk := Apply(disk, pending[0]);
      pending := pending[1..];
    }

    /** `flush`: afterwards the disk holds exactly the bodies of the live entries. */
    method Flush()
      requires Valid()
      modifies this`pending, this`disk
      ensures Valid() && pending == []
      ensures disk == FilesFrom(dir, history, Lo())
    {
      while pending != []
        invariant Valid()
        decreases |pending|
      {
        Settle();
      }
    }

    /** A live entry's body comes back as it was added; anything else is `None`. */
    method ReadBody(id: string, kind: BodyKind) returns (body: Option<Bytes>)
      requires Valid()
      modifies this`pending, this`disk
      ensures Valid()
      ensures forall j :: Lo() <= j < |history| && id == IdOf(history[j], j) ==>
                body == if kind in history[j].bodies then Some(history[j].bodies[kind]) else None
      ensures id !in byId ==> body == None
    {
      ReadsBack(id, kind);
      if id !in byId || kind !in byId[id].bodyKinds {
        return None;
      }
      Flush();
      var path := BodyPath(dir, id, kind);
      return if path in disk then Some(disk[path]) else None;
    }

    /** Index and file of a live entry, if `id` is one. */
    lemma ReadsBack(id: string, kind: BodyKind)
      requires 0 <= Lo() && byId == IndexFrom(history, Lo())
      ensures forall j :: Lo() <= j < |history| && id == IdOf(history[j], j) ==>
                && id in byId
                && (kind in byId[id].bodyKinds <==> kind in history[j].bodies)
                && (kind in history[j].bodies ==>
                      && BodyPath(dir, id, kind) in FilesFrom(dir, history, Lo())
                      && FilesFrom(dir, history, Lo())[BodyPath(dir, id, kind)] == history[j].bodies[kind])
    {
      forall j | Lo() <= j < |history| && id == IdOf(history[j], j)
        ensures id in byId && byId[id] == StoredOf(history[j], j)
        ensures kind in KindsIn(KINDS, history[j].bodies) <==> kind in history[j].bodies
        ensures kind in history[j].bodies ==>
                  && BodyPath(dir, id, kind) in FilesFrom(dir, history, Lo())
                  && FilesFrom(dir, history, Lo())[BodyPath(dir, id, kind)] == history[j].bodies[kind]
      {
        IndexHas(history, Lo(), j);
        AllKinds(kind);
        KindsInAre(KINDS, history[j].bodies, kind);
        if kind in history[j].bodies {
          FileThere(dir, history, Lo(), j, kind);
        }
      }
    }

    /** The log as pagination sees it. */
    ghost function View(): Log
      reads this
      requires 0 <= Lo()
    {
      Log(EntriesOf(history), Lo())
    }

    lemma ViewValid()
      requires Valid()
      ensures View().Valid() && View().Entries() == Listed(entries)
    {
      var log := View();
      forall i | 0 <= i < |entries| ensures log.Entries()[i] == Listed(entries)[i] {
        assert entries[i] == StoredOf(history[Lo() + i], Lo() + i);
      }
      forall i, j | 0 <= i < j < |log.history| ensures log.history[i].id != log.history[j].id {
        if log.history[i].id == log.history[j].id {
          LogIdInjective(history[i].date, i + 1, history[j].date, j + 1);
        }
      }
    }

    method ListPage(matches: LogEntry -> bool, limit: nat, cursor: Option<string>) returns (page: Page)
      requires Valid()
      ensures page == PageAt(View(), matches, limit, cursor)
    {
      ViewValid();
      page := List(Listed(entries), matches, limit, cursor);
    }
  }

  lemma {:induction false} IndexHas(history: seq<Draft>, lo: nat, j: nat)
    requires lo <= j < |history|
    ensures IdOf(history[j], j) in IndexFrom(history, lo)
    ensures IndexFrom(history, lo)[IdOf(history[j], j)] == StoredOf(history[j], j)
    decreases j - lo
  {
    if lo < j {
      IndexHas(history, lo + 1, j);
      if IdOf(history[lo], lo) == IdOf(history[j], j) {
        LogIdInjective(history[lo].date, lo + 1, history[j].date, j + 1);
      }
    }
  }

  lemma {:induction false} KindsInAre(kinds: seq<BodyKind>, bodies: Bodies, kind: BodyKind)
    ensures kind in KindsIn(kinds, bodies) <==> kind in kinds && kind in bodies
    decreases |kinds|
  {
    if kinds != [] {
      KindsInAre(kinds[1..], bodies, kind);
    }
  }

  lemma AllKinds(kind: BodyKind)
    ensures kind in KINDS
  {
    match kind
    case RequestBody => assert KINDS[0] == kind;
    case ForwardedRequestBody => assert KINDS[1] == kind;
    case UpstreamResponseBody => assert KINDS[2] == kind;
    case ResponseBody => assert KINDS[3] == kind;
  }

  lemma {:induction false} FileInThere(dir: string, kinds: seq<BodyKind>, bodies: Bodies, id: string, kind: BodyKind)
    requires kind in kinds && kind in bodies
    ensures BodyPath(dir, id, kind) in FilesIn(dir, kinds, bodies, id)
    ensures FilesIn(dir, kinds, bodies, id)[BodyPath(dir, id, kind)] == bodies[kind]
    decreases |kinds|
  {
    var path := BodyPath(dir, id, kind);
    if path in FilesIn(dir, kinds[1..], bodies, id) {
      FilesInPaths(dir, kinds[1..], bodies, id, path);
      FileInKind(dir, kinds[1..], bodies, id, kind);
    } else if kinds[0] != kind {
      FileInThere(dir, kinds[1..], bodies, id, kind);
    }
  }

  /** Whatever is filed under a kind's path is that kind's body. */
  lemma {:induction false} FileInKind(dir: string, kinds: seq<BodyKind>, bodies: Bodies, id: string, kind: BodyKind)
    requires BodyPath(dir, id, kind) in FilesIn(dir, kinds, bodies, id)
    ensures kind in bodies && FilesIn(dir, kinds, bodies, id)[BodyPath(dir, id, kind)] == bodies[kind]
    decreases |kinds|
  {
    if BodyPath(dir, id, kind) in FilesIn(dir, kinds[1..], bodies, id) {
      FileInKind(dir, kinds[1..], bodies, id, kind);
    } else {
      BodyPathInjective(dir, id, kind, id, kinds[0]);
    }
  }

  lemma {:induction false} FileThere(dir: string, history: seq<Draft>, lo: nat, j: nat, kind: BodyKind)
    requires lo <= j < |history| && kind in history[j].bodies
    ensures var path := BodyPath(dir, IdOf(history[j], j), kind);
            path in FilesFrom(dir, history, lo) && FilesFrom(dir, history, lo)[path] == history[j].bodies[kind]
    decreases j - lo
  {
    if lo < j {
      FileThere(dir, history, lo + 1, j, kind);
    } else {
      AllKinds(kind);
      FileInThere(dir, KINDS, history[lo].bodies, IdOf(history[lo], lo), kind);
      FilesApart(dir, history, lo);
    }
  }

  // ---- following the pages of a store in use

  datatype LogOp = Adding(draft: Draft) | Retaining(now: int) | Clearing

  method Perform(store: TrafficLogStore, ops: seq<LogOp>)
    requires store.Valid()
    modifies store
    ensures store.Valid() && Later(old(store.View()), store.View())
  {
    for i := 0 to |ops|
      invariant store.Valid() && Later(old(store.View()), store.View())
    {
      match ops[i]
      case Adding(draft) => var _ := store.Add(draft);
      case Retaining(now) => var _ := store.ApplyRetention(now);
      case Clearing => var _ := store.Clear();
    }
  }

  /**
   * A client follows `nextCursor` while the store is worked on between its
   * pages. When it gets to the last page it has seen no entry twice, newer
   * ones before older ones, and every matching entry that was there at its
   * first page and still is at its last. It gets there unless every page has
   * had entries on it.
   */
  method Follow(store: TrafficLogStore, matches: LogEntry -> bool, limit: nat, between: seq<seq<LogOp>>)
    returns (shown: seq<LogEntry>, complete: bool)
    requires store.Valid() && limit >= 1
    modifies store
    ensures store.Valid()
    ensures complete ==> Descending(shown)
    ensures complete ==>
              forall e :: matches(e) && old(store.View()).Holds(e) && store.View().Holds(e) ==> e in shown
    ensures complete ==> forall e <- shown :: matches(e)
    ensures !complete ==> |shown| > |between|
  {
    ghost var logs;
    shown, complete, logs := FollowFrom(store, matches, limit, None, None, between);
    if complete {
      NeverTwice(logs, matches, limit, None);
      forall e | matches(e) && logs[0].Holds(e) && store.View().Holds(e)
        ensures e in shown
      {
        NoneMissed(logs, matches, limit, None, e);
      }
      forall e | e in shown
        ensures matches(e)
      {
        ShownIsHeld(logs, matches, limit, None, e);
      }
    }
  }

  /** From one page on; `logs` is what each page was taken from. */
  method FollowFrom(
    store: TrafficLogStore, matches: LogEntry -> bool, limit: nat, cursor: Option<string>, ghost at: Option<LogEntry>,
    between: seq<seq<LogOp>>) returns (shown: seq<LogEntry>, complete: bool, ghost logs: seq<Log>)
    requires store.Valid() && limit >= 1 && Known(store.View(), at) && cursor == CursorId(at)
    modifies store
    ensures store.Valid() && logs != [] && logs[0] == old(store.View())
    ensures complete ==> logs[|logs| - 1] == store.View()
    ensures !complete ==> |shown| > |between|
    ensures complete ==>
              Session(logs) && Complete(logs, matches, limit, cursor) && shown == Browse(logs, matches, limit, cursor)
    decreases |between|
  {
    ghost var now := store.View();
    store.ViewValid();
    var page := store.ListPage(matches, limit, cursor);
    ghost var next := PageIs(now, matches, limit, at);
    logs := [now];
    if page.nextCursor.None? {
      return page.items, true, logs;
    }
    if between == [] {
      return page.items, false, logs;
    }
    Perform(store, between[0]);
    ghost var rest;
    var more, done;
    more, done, rest := FollowFrom(store, matches, limit, page.nextCursor, next, between[1..]);
    logs := [now] + rest;
    if done {
      BrowseCons(now, rest, matches, limit, cursor);
    }
    return page.items + more, done, logs;
  }
}
