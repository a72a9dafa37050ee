/** Cursor pagination over the bounded log (`list` of src/logging/traffic-log.ts). */
module Paging {
  import opened Common

  /** `number` entries were added before this one. */
  datatype LogEntry = LogEntry(id: string, number: nat, startedAt: int, text: string)

  datatype Page = Page(items: seq<LogEntry>, nextCursor: Option<string>)

  /** The entries older than the cursor entry; none when the cursor is gone. */
  function OlderThan(entries: seq<LogEntry>, id: string): seq<LogEntry> {
    if entries == [] then []
    else
      var newest := entries[|entries| - 1];
      if newest.id == id then entries[..|entries| - 1] else OlderThan(entries[..|entries| - 1], id)
  }

  function Scope(entries: seq<LogEntry>, cursor: Option<string>): seq<LogEntry> {
    if cursor.None? then entries else OlderThan(entries, cursor.value)
  }

  /** The matching entries, newest first. */
  function NewestFirst(entries: seq<LogEntry>, matches: LogEntry -> bool): seq<LogEntry> {
    if entries == [] then []
    else
      var newest := entries[|entries| - 1];
      (if matches(newest) then [newest] else []) + NewestFirst(entries[..|entries| - 1], matches)
  }

  function PageOf(entries: seq<LogEntry>, matches: LogEntry -> bool, limit: nat, cursor: Option<string>): Page {
    var all := NewestFirst(Scope(entries, cursor), matches);
    if |all| <= limit then Page(all, None)
    else Page(all[..limit], if limit == 0 then None else Some(all[limit - 1].id))
  }

  /** The scan of `list`: newest to oldest, one flag for the cursor. */
  method List(entries: seq<LogEntry>, matches: LogEntry -> bool, limit: nat, cursor: Option<string>)
    returns (page: Page)
    ensures page == PageOf(entries, matches, limit, cursor)
  {
    var items: seq<LogEntry> := [];
    var nextCursor: Option<string> := None;
    var passedCursor := cursor.None?;
    var i := |entries|;
    ghost var all := NewestFirst(Scope(entries, cursor), matches);
    assert entries[..i] == entries;
    while i > 0
      invariant 0 <= i <= |entries|
      invariant nextCursor == None && |items| <= limit
      invariant !passedCursor ==> cursor.Some? && items == []
                                  && all == NewestFirst(OlderThan(entries[..i], cursor.value), matches)
      invariant passedCursor ==> all == items + NewestFirst(entries[..i], matches)
    {
      i := i - 1;
      var entry := entries[i];
      assert entries[..i + 1][..i] == entries[..i];
      if !passedCursor {
        if entry.id == cursor.value {
          passedCursor := true;
        }
        continue;
      }
      if !matches(entry) {
        continue;
      }
      if |items| == limit {
        nextCursor := if |items| > 0 then Some(items[|items| - 1].id) else None;
        assert all[..limit] == items && |all| > limit;
        break;
      }
      items := items + [entry];
    }
    return Page(items, nextCursor);
  }

  // ---- the log between two pages

  /** All entries ever added, of which the ones from `lo` on are still held. */
  datatype Log = Log(history: seq<LogEntry>, lo: nat)
  {
    predicate Valid() {
      && lo <= |history|
      && (forall i :: 0 <= i < |history| ==> history[i].number == i)
      && (forall i, j :: 0 <= i < j < |history| ==> history[i].id != history[j].id)
    }

    function Entries(): seq<LogEntry>
      requires lo <= |history|
    {
      history[lo..]
    }

    predicate Holds(e: LogEntry) {
      lo <= e.number < |history| && history[e.number] == e
    }
  }

  /** Entries may have been added at one end and dropped at the other. */
  predicate Later(before: Log, after: Log) {
    before.history <= after.history && before.lo <= after.lo
  }

  predicate Session(logs: seq<Log>) {
    && |logs| > 0
    && (forall k :: 0 <= k < |logs| ==> logs[k].Valid())
    && (forall k :: 0 <= k < |logs| - 1 ==> Later(logs[k], logs[k + 1]))
  }

  function PageAt(log: Log, matches: LogEntry -> bool, limit: nat, cursor: Option<string>): Page
    requires log.lo <= |log.history|
  {
    PageOf(log.Entries(), matches, limit, cursor)
  }

  /** Page k is served by `logs[k]`, and exactly the last page ends the listing. */
  predicate Complete(logs: seq<Log>, matches: LogEntry -> bool, limit: nat, cursor: Option<string>)
    requires Session(logs)
    decreases |logs|
  {
    var page := PageAt(logs[0], matches, limit, cursor);
    if |logs| == 1 then page.nextCursor.None?
    else page.nextCursor.Some? && Complete(logs[1..], matches, limit, page.nextCursor)
  }

  /** Everything a client that follows `nextCursor` gets to see. */
  function Browse(logs: seq<Log>, matches: LogEntry -> bool, limit: nat, cursor: Option<string>): seq<LogEntry>
    requires Session(logs)
    decreases |logs|
  {
    var page := PageAt(logs[0], matches, limit, cursor);
    if |logs| == 1 then page.items
    else page.items + Browse(logs[1..], matches, limit, page.nextCursor)
  }

  /** A page in front of a listing that goes on from its cursor. */
  lemma BrowseCons(now: Log, rest: seq<Log>, matches: LogEntry -> bool, limit: nat, cursor: Option<string>)
    requires now.Valid() && Session(rest) && Later(now, rest[0])
    requires var page := PageAt(now, matches, limit, cursor);
             page.nextCursor.Some? && Complete(rest, matches, limit, page.nextCursor)
    ensures Session([now] + rest) && Complete([now] + rest, matches, limit, cursor)
    ensures var page := PageAt(now, matches, limit, cursor);
            Browse([now] + rest, matches, limit, cursor)
            == page.items + Browse(rest, matches, limit, page.nextCursor)
  {
    var logs := [now] + rest;
    assert logs[1..] == rest && logs[0] == now;
    assert forall k :: 0 < k < |logs| ==> logs[k] == rest[k - 1];
  }

  predicate Descending(entries: seq<LogEntry>) {
    forall i, j :: 0 <= i < j < |entries| ==> entries[i].number > entries[j].number
  }

  /** Only entries numbered below this can follow the cursor. */
  function Bound(log: Log, cursor: Option<LogEntry>): nat {
    if cursor.None? then |log.history| else cursor.value.number
  }

  function CursorId(cursor: Option<LogEntry>): Option<string> {
    if cursor.None? then None else Some(cursor.value.id)
  }

  predicate Known(log: Log, cursor: Option<LogEntry>) {
    cursor.Some? ==> cursor.value.number < |log.history| && log.history[cursor.value.number] == cursor.value
  }

  lemma {:induction false} OlderThanFound(entries: seq<LogEntry>, i: nat)
    requires i < |entries|
    requires forall j, k :: 0 <= j < k < |entries| ==> entries[j].id != entries[k].id
    ensures OlderThan(entries, entries[i].id) == entries[..i]
    decreases |entries|
  {
    if i < |entries| - 1 {
      OlderThanFound(entries[..|entries| - 1], i);
      assert entries[..|entries| - 1][..i] == entries[..i];
    }
  }

  lemma {:induction false} OlderThanGone(entries: seq<LogEntry>, id: string)
    requires forall e :: e in entries ==> e.id != id
    ensures OlderThan(entries, id) == []
    decreases |entries|
  {
    if entries != [] {
      assert entries[|entries| - 1] in entries;
      OlderThanGone(entries[..|entries| - 1], id);
    }
  }

  /** A page looks at the held entries numbered below the cursor, even when the cursor entry is gone. */
  lemma ScopeIsWindow(log: Log, cursor: Option<LogEntry>)
    requires log.Valid() && Known(log, cursor)
    ensures Scope(log.Entries(), CursorId(cursor))
            == if log.lo <= Bound(log, cursor) then log.history[log.lo..Bound(log, cursor)] else []
  {
    if cursor.Some? {
      var c := cursor.value;
      if log.lo <= c.number {
        OlderThanFound(log.Entries(), c.number - log.lo);
        assert log.Entries()[..c.number - log.lo] == log.history[log.lo..c.number];
      } else {
        forall e | e in log.Entries() ensures e.id != c.id {
          var k :| 0 <= k < |log.Entries()| && log.Entries()[k] == e;
          assert e == log.history[log.lo + k];
        }
        OlderThanGone(log.Entries(), c.id);
      }
    }
  }

  lemma NewestFirstStep(log: Log, hi: nat, matches: LogEntry -> bool)
    requires log.Valid() && log.lo < hi <= |log.history|
    ensures NewestFirst(log.history[log.lo..hi], matches)
            == (if matches(log.history[hi - 1]) then [log.history[hi - 1]] else [])
               + NewestFirst(log.history[log.lo..hi - 1], matches)
  {
    var window := log.history[log.lo..hi];
    assert window[..|window| - 1] == log.history[log.lo..hi - 1];
  }

  lemma {:induction false} NewestFirstHolds(log: Log, hi: nat, matches: LogEntry -> bool, e: LogEntry)
    requires log.Valid() && log.lo <= hi <= |log.history|
    ensures e in NewestFirst(log.history[log.lo..hi], matches) <==> log.Holds(e) && e.number < hi && matches(e)
    decreases hi
  {
    if hi > log.lo {
      NewestFirstHolds(log, hi - 1, matches, e);
      NewestFirstStep(log, hi, matches);
      assert log.history[hi - 1].number == hi - 1;
    }
  }

  lemma PrependDescending(first: LogEntry, rest: seq<LogEntry>)
    requires Descending(rest) && forall e <- rest :: e.number < first.number
    ensures Descending([first] + rest)
  {
    assert forall k :: 0 <= k < |rest| ==> rest[k] in rest;
  }

  lemma {:induction false} NewestFirstDescends(log: Log, hi: nat, matches: LogEntry -> bool)
    requires log.Valid() && log.lo <= hi <= |log.history|
    ensures Descending(NewestFirst(log.history[log.lo..hi], matches))
    decreases hi
  {
    if hi > log.lo {
      NewestFirstDescends(log, hi - 1, matches);
      NewestFirstStep(log, hi, matches);
      var rest := NewestFirst(log.history[log.lo..hi - 1], matches);
      forall e | e in rest ensures e.number < hi - 1 {
        NewestFirstHolds(log, hi - 1, matches, e);
      }
      PrependDescending(log.history[hi - 1], rest);
    }
  }

  lemma NewestFirstIs(log: Log, hi: nat, matches: LogEntry -> bool)
    requires log.Valid() && log.lo <= hi <= |log.history|
    ensures var all := NewestFirst(log.history[log.lo..hi], matches);
            && Descending(all)
            && (forall e :: e in all <==> log.Holds(e) && e.number < hi && matches(e))
  {
    NewestFirstDescends(log, hi, matches);
    forall e
      ensures e in NewestFirst(log.history[log.lo..hi], matches) <==> log.Holds(e) && e.number < hi && matches(e)
    {
      NewestFirstHolds(log, hi, matches, e);
    }
  }

  /** Cutting a descending list keeps exactly the entries down to the cut. */
  lemma CutDescending(all: seq<LogEntry>, limit: nat)
    requires Descending(all) && 1 <= limit <= |all|
    ensures Descending(all[..limit])
    ensures forall e :: e in all[..limit] <==> e in all && e.number >= all[limit - 1].number
  {
    forall e | e in all && e.number >= all[limit - 1].number ensures e in all[..limit] {
      var k :| 0 <= k < |all| && all[k] == e;
      assert k < limit;
      assert all[..limit][k] == e;
    }
    forall e | e in all[..limit] ensures e in all && e.number >= all[limit - 1].number {
      var k :| 0 <= k < limit && all[..limit][k] == e;
      assert all[k] == e;
    }
  }

  /** The matching entries a page can draw from. */
  predicate Candidate(log: Log, matches: LogEntry -> bool, cursor: Option<LogEntry>, e: LogEntry) {
    log.Holds(e) && e.number < Bound(log, cursor) && matches(e)
  }

  lemma CandidatesAre(log: Log, matches: LogEntry -> bool, cursor: Option<LogEntry>)
    requires log.Valid() && Known(log, cursor)
    ensures var all := NewestFirst(Scope(log.Entries(), CursorId(cursor)), matches);
            && Descending(all)
            && forall e :: e in all <==> Candidate(log, matches, cursor, e)
  {
    ScopeIsWindow(log, cursor);
    if log.lo <= Bound(log, cursor) {
      NewestFirstIs(log, Bound(log, cursor), matches);
    }
  }

  /** What one page delivers, and what it leaves for the next. */
  lemma PageIs(log: Log, matches: LogEntry -> bool, limit: nat, cursor: Option<LogEntry>) returns (next: Option<LogEntry>)
    requires log.Valid() && Known(log, cursor) && limit >= 1
    ensures var page := PageAt(log, matches, limit, CursorId(cursor));
            && Descending(page.items)
            && page.nextCursor == CursorId(next) && Known(log, next)
            && (next.Some? ==> Candidate(log, matches, cursor, next.value))
            && (forall e :: e in page.items <==>
                  Candidate(log, matches, cursor, e) && (next.Some? ==> e.number >= next.value.number))
  {
    CandidatesAre(log, matches, cursor);
    var all := NewestFirst(Scope(log.Entries(), CursorId(cursor)), matches);
    if |all| <= limit {
      next := None;
    } else {
      next := Some(all[limit - 1]);
      assert all[limit - 1] in all;
      CutDescending(all, limit);
    }
  }

  /** Following the cursor never shows an entry twice, and shows entries newest first throughout. */
  lemma {:induction false} NeverTwice(
      logs: seq<Log>, matches: LogEntry -> bool, limit: nat, cursor: Option<LogEntry>)
    requires Session(logs) && limit >= 1 && Known(logs[0], cursor)
    requires Complete(logs, matches, limit, CursorId(cursor))
    ensures Descending(Browse(logs, matches, limit, CursorId(cursor)))
    ensures cursor.Some? ==> forall e :: e in Browse(logs, matches, limit, CursorId(cursor)) ==>
                               e.number < cursor.value.number
    decreases |logs|
  {
    var next := PageIs(logs[0], matches, limit, cursor);
    if |logs| > 1 {
      assert Later(logs[0], logs[1]);
      NeverTwice(logs[1..], matches, limit, next);
      var items := PageAt(logs[0], matches, limit, CursorId(cursor)).items;
      var rest := Browse(logs[1..], matches, limit, CursorId(next));
      assert forall k :: 0 <= k < |items| ==> items[k] in items;
      assert forall k :: 0 <= k < |rest| ==> rest[k] in rest;
    }
  }

  lemma {:induction false} SessionForward(logs: seq<Log>, k: nat)
    requires Session(logs) && k < |logs|
    ensures logs[0].lo <= logs[k].lo && logs[0].history <= logs[k].history
    decreases k
  {
    if k > 0 {
      SessionForward(logs, k - 1);
      assert Later(logs[k - 1], logs[k]);
    }
  }

  /** Every matching entry that is held from the first page to the last is shown. */
  lemma {:induction false} NoneMissed(
      logs: seq<Log>, matches: LogEntry -> bool, limit: nat, cursor: Option<LogEntry>, e: LogEntry)
    requires Session(logs) && limit >= 1 && Known(logs[0], cursor)
    requires Complete(logs, matches, limit, CursorId(cursor))
    requires matches(e) && logs[0].Holds(e) && logs[|logs| - 1].Holds(e)
    requires e.number < Bound(logs[0], cursor)
    ensures e in Browse(logs, matches, limit, CursorId(cursor))
    decreases |logs|
  {
    var next := PageIs(logs[0], matches, limit, cursor);
    if |logs| > 1 && e.number < next.value.number {
      assert Later(logs[0], logs[1]);
      SessionForward(logs[1..], |logs| - 2);
      assert logs[1..][|logs| - 2] == logs[|logs| - 1];
      assert logs[1].Holds(e);
      NoneMissed(logs[1..], matches, limit, next, e);
    }
  }

  /** Strictly descending listings with the same members are the same listing. */
  lemma {:induction false} DescendingUnique(left: seq<LogEntry>, right: seq<LogEntry>)
    requires Descending(left) && Descending(right)
    requires forall e :: e in left <==> e in right
    ensures left == right
    decreases |left|
  {
    if left == [] {
      assert forall k :: 0 <= k < |right| ==> right[k] in right;
    } else {
      assert left[0] in left && left[0] in right;
      assert right[0] in right && right[0] in left;
      forall e ensures e in left[1..] <==> e in right[1..] {
        assert e in left <==> e == left[0] || e in left[1..];
        assert e in right <==> e == right[0] || e in right[1..];
        assert left[0] !in left[1..] by {
          assert forall k :: 0 <= k < |left[1..]| ==> left[1..][k] == left[k + 1];
        }
        assert right[0] !in right[1..] by {
          assert forall k :: 0 <= k < |right[1..]| ==> right[1..][k] == right[k + 1];
        }
      }
      DescendingUnique(left[1..], right[1..]);
    }
  }

  /** With nothing happening in between, the pages add up to the whole filtered log. */
  lemma QuietBrowse(logs: seq<Log>, log: Log, matches: LogEntry -> bool, limit: nat)
    requires Session(logs) && limit >= 1 && Complete(logs, matches, limit, None)
    requires forall k :: 0 <= k < |logs| ==> logs[k] == log
    ensures Browse(logs, matches, limit, None) == NewestFirst(log.Entries(), matches)
  {
    var all := NewestFirst(log.Entries(), matches);
    var shown := Browse(logs, matches, limit, CursorId(None));
    assert log.history[log.lo..|log.history|] == log.Entries();
    NewestFirstIs(log, |log.history|, matches);
    NeverTwice(logs, matches, limit, None);
    forall e | e in all ensures e in shown {
      NoneMissed(logs, matches, limit, None, e);
    }
    forall e | e in shown ensures e in all {
      ShownIsHeld(logs, matches, limit, None, e);
    }
    DescendingUnique(shown, all);
  }

  /** Nothing is made up: what is shown matched and was held by the log of its page. */
  lemma {:induction false} ShownIsHeld(
      logs: seq<Log>, matches: LogEntry -> bool, limit: nat, cursor: Option<LogEntry>, e: LogEntry)
    requires Session(logs) && limit >= 1 && Known(logs[0], cursor)
    requires Complete(logs, matches, limit, CursorId(cursor))
    requires e in Browse(logs, matches, limit, CursorId(cursor))
    ensures matches(e) && exists k :: 0 <= k < |logs| && logs[k].Holds(e)
    decreases |logs|
  {
    var next := PageIs(logs[0], matches, limit, cursor);
    var page := PageAt(logs[0], matches, limit, CursorId(cursor));
    if e in page.items {
      assert logs[0].Holds(e);
    } else {
      assert Later(logs[0], logs[1]);
      ShownIsHeld(logs[1..], matches, limit, next, e);
      var k :| 0 <= k < |logs[1..]| && logs[1..][k].Holds(e);
      assert logs[k + 1].Holds(e);
    }
  }

  /** The same log, page after page. */
  function Still(log: Log, pages: nat): (logs: seq<Log>)
    ensures |logs| == pages && forall k :: 0 <= k < pages ==> logs[k] == log
  {
    if pages == 0 then [] else [log] + Still(log, pages - 1)
  }

  /** Against an unchanged log the cursor runs out. */
  lemma {:induction false} QuietEnds(log: Log, matches: LogEntry -> bool, limit: nat, cursor: Option<LogEntry>)
    returns (pages: nat)
    requires log.Valid() && Known(log, cursor) && limit >= 1
    ensures 1 <= pages <= Bound(log, cursor) + 1
    ensures Session(Still(log, pages)) && Complete(Still(log, pages), matches, limit, CursorId(cursor))
    decreases Bound(log, cursor)
  {
    var next := PageIs(log, matches, limit, cursor);
    if next.None? {
      pages := 1;
    } else {
      var rest := QuietEnds(log, matches, limit, next);
      pages := rest + 1;
      assert Still(log, pages)[1..] == Still(log, rest);
    }
  }
}
