/**
 * The bounded record of upstreams seen in traffic (src/grpc/reflection-import.ts,
 * `observe`, `noteConfiguredUpstream`, `entryFor`): a list in insertion order,
 * from which the least recently seen upstream is dropped when it is full.
 */
module ObservedTargets {
  import opened Common

  const MAX_OBSERVED_TARGETS := 200
  const MAX_SERVICES_PER_TARGET := 500

  datatype Entry = Entry(
    target: string,
    configured: bool,
    firstSeenAt: int,
    lastSeenAt: int,
    requests: nat,
    services: set<string>,
    unknownServices: set<string>)

  function Targets(entries: seq<Entry>): set<string> {
    set i | 0 <= i < |entries| :: entries[i].target
  }

  predicate Distinct(entries: seq<Entry>) {
    forall i, j :: 0 <= i < j < |entries| ==> entries[i].target != entries[j].target
  }

  function IndexOf(entries: seq<Entry>, target: string): (r: Option<nat>)
    ensures r.Some? <==> target in Targets(entries)
    ensures r.Some? ==> r.value < |entries| && entries[r.value].target == target
  {
    if entries == [] then None
    else if entries[0].target == target then Some(0)
    else
      assert Targets(entries) == {entries[0].target} + Targets(entries[1..]);
      match IndexOf(entries[1..], target)
      case None => None
      case Some(i) => Some(i + 1)
  }

  /** The first of the least recently seen. */
  function Oldest(entries: seq<Entry>): (r: nat)
    requires entries != []
    ensures r < |entries|
    ensures forall i :: 0 <= i < |entries| ==> entries[r].lastSeenAt <= entries[i].lastSeenAt
    ensures forall i :: 0 <= i < r ==> entries[r].lastSeenAt < entries[i].lastSeenAt
  {
    if |entries| == 1 then 0
    else
      var r := Oldest(entries[..|entries| - 1]);
      if entries[|entries| - 1].lastSeenAt < entries[r].lastSeenAt then |entries| - 1 else r
  }

  /** Makes room for one more. */
  function Room(entries: seq<Entry>): seq<Entry> {
    if |entries| < MAX_OBSERVED_TARGETS then entries
    else var o := Oldest(entries); entries[..o] + entries[o + 1..]
  }

  function EntryFor(entries: seq<Entry>, target: string, configured: bool, now: int): seq<Entry> {
    if IndexOf(entries, target).Some? then entries
    else Room(entries) + [Entry(target, configured, now, now, 0, {}, {})]
  }

  function Seen(e: Entry, service: string, known: bool, now: int): Entry {
    var t := e.(lastSeenAt := now, requests := e.requests + 1);
    if service == "" then t
    else if known then
      t.(unknownServices := t.unknownServices - {service},
         services := if |t.services| < MAX_SERVICES_PER_TARGET then t.services + {service} else t.services)
    else if |t.unknownServices| < MAX_SERVICES_PER_TARGET then
      t.(unknownServices := t.unknownServices + {service})
    else t
  }

  /** One event; an absent service is written as the empty string. */
  datatype Sighting =
    | Observed(target: string, service: string, known: bool, now: int)
    | Configured(target: string, now: int)

  function Note(entries: seq<Entry>, sight: Sighting): seq<Entry> {
    match sight
    case Observed(target, service, known, now) =>
      var there := EntryFor(entries, target, false, now);
      var i := IndexOf(there, target);
      if i.Some? then there[i.value := Seen(there[i.value], service, known, now)] else there
    case Configured(target, now) =>
      var there := EntryFor(entries, target, true, now);
      var i := IndexOf(there, target);
      if i.Some? then there[i.value := there[i.value].(configured := true)] else there
  }

  function NoteAll(entries: seq<Entry>, sights: seq<Sighting>): seq<Entry>
    decreases |sights|
  {
    if sights == [] then entries else NoteAll(Note(entries, sights[0]), sights[1..])
  }

  predicate Bounded(entries: seq<Entry>) {
    && |entries| <= MAX_OBSERVED_TARGETS
    && Distinct(entries)
    && forall e <- entries :: |e.services| <= MAX_SERVICES_PER_TARGET && |e.unknownServices| <= MAX_SERVICES_PER_TARGET
  }

  lemma RoomKeeps(entries: seq<Entry>)
    requires Bounded(entries)
    ensures Bounded(Room(entries)) && |Room(entries)| < MAX_OBSERVED_TARGETS
    ensures Targets(Room(entries)) <= Targets(entries)
    ensures forall e <- Room(entries) :: e in entries
  {
    var room := Room(entries);
    if |entries| >= MAX_OBSERVED_TARGETS {
      var o := Oldest(entries);
      assert forall i :: 0 <= i < |room| ==> room[i] == entries[if i < o then i else i + 1];
    }
  }

  lemma EntryForKeeps(entries: seq<Entry>, target: string, configured: bool, now: int)
    requires Bounded(entries)
    ensures var there := EntryFor(entries, target, configured, now);
            Bounded(there) && target in Targets(there)
  {
    if IndexOf(entries, target).None? {
      RoomKeeps(entries);
      var there := EntryFor(entries, target, configured, now);
      assert there[|there| - 1].target == target;
    }
  }

  lemma SeenBounded(e: Entry, service: string, known: bool, now: int)
    requires |e.services| <= MAX_SERVICES_PER_TARGET && |e.unknownServices| <= MAX_SERVICES_PER_TARGET
    ensures var t := Seen(e, service, known, now);
            |t.services| <= MAX_SERVICES_PER_TARGET && |t.unknownServices| <= MAX_SERVICES_PER_TARGET
  {
    assert e.unknownServices - {service} <= e.unknownServices;
    SubsetSmaller(e.unknownServices - {service}, e.unknownServices);
  }

  lemma {:induction false} SubsetSmaller<T>(a: set<T>, b: set<T>)
    requires a <= b
    ensures |a| <= |b|
  {
    if a != {} {
      var x :| x in a;
      SubsetSmaller(a - {x}, b - {x});
    }
  }

  lemma NoteKeeps(entries: seq<Entry>, sight: Sighting)
    requires Bounded(entries)
    ensures Bounded(Note(entries, sight)) && sight.target in Targets(Note(entries, sight))
  {
    EntryForKeeps(entries, sight.target, sight.Configured?, sight.now);
    var there := EntryFor(entries, sight.target, sight.Configured?, sight.now);
    var i := IndexOf(there, sight.target).value;
    if sight.Observed? {
      SeenBounded(there[i], sight.service, sight.known, sight.now);
    }
    var after := Note(entries, sight);
    assert forall j :: 0 <= j < |there| ==> after[j].target == there[j].target;
    assert after[i].target == sight.target;
  }

  /** However much traffic there is, the record stays bounded. */
  lemma {:induction false} NeverTooMany(entries: seq<Entry>, sights: seq<Sighting>)
    requires Bounded(entries)
    ensures Bounded(NoteAll(entries, sights))
    decreases |sights|
  {
    if sights != [] {
      NoteKeeps(entries, sights[0]);
      NeverTooMany(Note(entries, sights[0]), sights[1..]);
    }
  }

  // ---- who is forgotten

  function Others(sights: seq<Sighting>): set<string> {
    set i | 0 <= i < |sights| :: sights[i].target
  }

  /** `target` was last seen at `at`; whoever was seen no earlier is one of `since`. */
  predicate Remembered(entries: seq<Entry>, target: string, at: int, since: set<string>) {
    && target in Targets(entries)
    && target !in since
    && (forall e <- entries :: e.target == target ==> e.lastSeenAt == at)
    && (forall e <- entries :: e.target != target && e.lastSeenAt >= at ==> e.target in since)
  }

  lemma {:induction false} TargetsSize(entries: seq<Entry>)
    requires Distinct(entries)
    ensures |Targets(entries)| == |entries|
  {
    if entries != [] {
      var n := |entries| - 1;
      TargetsSize(entries[..n]);
      assert Targets(entries) == Targets(entries[..n]) + {entries[n].target};
    }
  }

  /** The target itself can only be dropped once 200 others have been seen since. */
  lemma RoomRemembers(entries: seq<Entry>, target: string, at: int, since: set<string>, new_: string)
    requires Bounded(entries) && Remembered(entries, target, at, since)
    requires new_ !in Targets(entries) && new_ in since && |since| < MAX_OBSERVED_TARGETS
    ensures target in Targets(Room(entries))
  {
    if |entries| >= MAX_OBSERVED_TARGETS {
      var o := Oldest(entries);
      if entries[o].target == target {
        var others := Targets(entries) - {target};
        forall t | t in others
          ensures t in since
        {
          var i :| 0 <= i < |entries| && entries[i].target == t;
          assert entries[i] in entries && entries[o] in entries;
        }
        TargetsSize(entries);
        SubsetSmaller(others + {new_}, since);
        assert false;
      } else {
        var i :| 0 <= i < |entries| && entries[i].target == target;
        var room := Room(entries);
        assert room[if i < o then i else i - 1] == entries[i];
      }
    }
  }

  lemma AddRemembers(entries: seq<Entry>, added: Entry, target: string, at: int, since: set<string>)
    requires Remembered(entries, target, at, since) && added.target != target && added.target in since
    ensures Remembered(entries + [added], target, at, since)
  {
    var i :| 0 <= i < |entries| && entries[i].target == target;
    assert (entries + [added])[i] == entries[i];
  }

  lemma UpdateRemembers(entries: seq<Entry>, k: nat, e: Entry, target: string, at: int, since: set<string>)
    requires Remembered(entries, target, at, since) && k < |entries|
    requires e.target == entries[k].target != target && e.target in since
    ensures Remembered(entries[k := e], target, at, since)
  {
    var i :| 0 <= i < |entries| && entries[i].target == target;
    assert entries[k := e][i] == entries[i];
    forall x | x in entries[k := e]
      ensures x == e || x in entries
    {
    }
  }

  lemma RoomStillRemembers(entries: seq<Entry>, target: string, at: int, since: set<string>, new_: string)
    requires Bounded(entries) && Remembered(entries, target, at, since)
    requires new_ !in Targets(entries) && new_ in since && |since| < MAX_OBSERVED_TARGETS
    ensures Remembered(Room(entries), target, at, since)
  {
    RoomKeeps(entries);
    RoomRemembers(entries, target, at, since, new_);
  }

  lemma NoteRemembers(entries: seq<Entry>, sight: Sighting, target: string, at: int, since: set<string>)
    requires Bounded(entries) && Remembered(entries, target, at, since)
    requires sight.target != target && sight.target in since && |since| < MAX_OBSERVED_TARGETS
    ensures Remembered(Note(entries, sight), target, at, since)
  {
    var there := EntryFor(entries, sight.target, sight.Configured?, sight.now);
    if IndexOf(entries, sight.target).None? {
      RoomStillRemembers(entries, target, at, since, sight.target);
      AddRemembers(Room(entries), Entry(sight.target, sight.Configured?, sight.now, sight.now, 0, {}, {}), target, at, since);
    }
    EntryForKeeps(entries, sight.target, sight.Configured?, sight.now);
    var k := IndexOf(there, sight.target).value;
    UpdateRemembers(there, k, Note(entries, sight)[k], target, at, since);
  }

  /**
   * Least recently seen goes first: an upstream stays on record until at least
   * 200 other upstreams have been seen since it was.
   */
  lemma {:induction false} StaysUntilPushedOut(
    entries: seq<Entry>, sights: seq<Sighting>, target: string, at: int, since: set<string>)
    requires Bounded(entries) && Remembered(entries, target, at, since)
    requires Others(sights) <= since && |since| < MAX_OBSERVED_TARGETS
    ensures target in Targets(NoteAll(entries, sights))
    decreases |sights|
  {
    if sights != [] {
      assert sights[0].target in Others(sights);
      NoteKeeps(entries, sights[0]);
      NoteRemembers(entries, sights[0], target, at, since);
      assert Others(sights[1..]) <= Others(sights) by {
        assert forall i :: 0 <= i < |sights| - 1 ==> sights[1..][i] == sights[i + 1];
      }
      StaysUntilPushedOut(Note(entries, sights[0]), sights[1..], target, at, since);
    }
  }
}
