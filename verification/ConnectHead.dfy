/** The CONNECT request head reader (src/proxy/connect-listener.ts). */
module ConnectHead {
  import opened Common

  const HEAD_LIMIT: nat := 8192
  const CR: byte := 13
  const LF: byte := 10

  /** `head.indexOf('\r\n\r\n')` from index `from` on. */
  function FindBlankLine(bytes: Bytes, from: nat): (r: Option<nat>)
    ensures r.Some? ==> from <= r.value && r.value + 4 <= |bytes|
    ensures r.Some? ==> bytes[r.value..r.value + 4] == [CR, LF, CR, LF]
    decreases |bytes| - from
  {
    if from + 4 > |bytes| then None
    else if bytes[from..from + 4] == [CR, LF, CR, LF] then Some(from)
    else FindBlankLine(bytes, from + 1)
  }

  /** What has become of a connection. `Tunnelled` carries all bytes the tunnel still gets to read. */
  datatype Progress =
    | Reading(head: Bytes)
    | Tunnelled(authority: Bytes, rest: Bytes)
    | NotAllowed
    | Destroyed

  // ---- the request line

  predicate IsSpace(b: byte) {
    9 <= b <= 13 || b == 32 || b == 160
  }

  function Upper(b: byte): byte {
    if 97 <= b <= 122 then b - 32 else b
  }

  predicate EqualsIgnoreCase(bytes: Bytes, word: Bytes) {
    |bytes| == |word| && forall i :: 0 <= i < |bytes| ==> Upper(bytes[i]) == word[i]
  }

  const CONNECT: Bytes := [67, 79, 78, 78, 69, 67, 84]
  const HTTP_1: Bytes := [72, 84, 84, 80, 47, 49, 46]

  /** Length of the leading run of bytes that are (or are not) white space. */
  function Run(bytes: Bytes, space: bool): (n: nat)
    ensures n <= |bytes|
    ensures forall i :: 0 <= i < n ==> IsSpace(bytes[i]) == space
    ensures n < |bytes| ==> IsSpace(bytes[n]) != space
  {
    if bytes == [] || IsSpace(bytes[0]) != space then 0 else 1 + Run(bytes[1..], space)
  }

  predicate IsVersion(bytes: Bytes) {
    |bytes| == 8 && EqualsIgnoreCase(bytes[..7], HTTP_1) && (bytes[7] == 48 || bytes[7] == 49)
  }

  /** A run of the given kind and what follows it. */
  function TakeRun(bytes: Bytes, space: bool): (Bytes, Bytes) {
    (bytes[..Run(bytes, space)], bytes[Run(bytes, space)..])
  }

  /** The authority of a `CONNECT host:port HTTP/1.x` line. */
  function ParseLine(line: Bytes): Option<Bytes> {
    if |line| < 7 || !EqualsIgnoreCase(line[..7], CONNECT) then None
    else
      var (gap1, tail1) := TakeRun(line[7..], true);
      var (authority, tail2) := TakeRun(tail1, false);
      var (gap2, version) := TakeRun(tail2, true);
      if gap1 != [] && authority != [] && gap2 != [] && IsVersion(version) then Some(authority) else None
  }

  function FirstLine(head: Bytes): Bytes {
    FirstLineFrom(head, 0)
  }

  function FirstLineFrom(head: Bytes, from: nat): Bytes
    requires from <= |head|
    decreases |head| - from
  {
    if from + 2 > |head| then head
    else if head[from] == CR && head[from + 1] == LF then head[..from]
    else FirstLineFrom(head, from + 1)
  }

  function ParseConnectAuthority(head: Bytes): Option<Bytes> {
    ParseLine(FirstLine(head))
  }

  predicate AllSpace(bytes: Bytes, space: bool) {
    |bytes| > 0 && forall i :: 0 <= i < |bytes| ==> IsSpace(bytes[i]) == space
  }

  /** The regular expression of the source, as a split of the line. */
  predicate Reads(line: Bytes, method_: Bytes, gap1: Bytes, authority: Bytes, gap2: Bytes, version: Bytes) {
    && line == method_ + (gap1 + (authority + (gap2 + version)))
    && EqualsIgnoreCase(method_, CONNECT)
    && AllSpace(gap1, true) && AllSpace(authority, false) && AllSpace(gap2, true)
    && IsVersion(version)
  }

  lemma {:induction false} TakeRunIs(run: Bytes, next: Bytes, space: bool)
    requires AllSpace(run, space) && next != [] && IsSpace(next[0]) != space
    ensures TakeRun(run + next, space) == (run, next)
    decreases |run|
  {
    var whole := run + next;
    assert whole[1..] == run[1..] + next;
    if |run| == 1 {
      assert whole[1..] == next;
    } else {
      TakeRunIs(run[1..], next, space);
    }
    assert Run(whole, space) == |run|;
  }

  lemma VersionStarts(v: Bytes)
    requires IsVersion(v)
    ensures !IsSpace(v[0])
  {
    assert Upper(v[..7][0]) == HTTP_1[0];
  }

  lemma ReadsParses(line: Bytes, m: Bytes, g1: Bytes, authority: Bytes, g2: Bytes, v: Bytes)
    requires Reads(line, m, g1, authority, g2, v)
    ensures ParseLine(line) == Some(authority)
  {
    assert line[..7] == m && line[7..] == g1 + (authority + (g2 + v));
    VersionStarts(v);
    TakeRunIs(g1, authority + (g2 + v), true);
    TakeRunIs(authority, g2 + v, false);
    TakeRunIs(g2, v, true);
  }

  lemma TakeRunSplits(bytes: Bytes, space: bool)
    ensures var (run, next) := TakeRun(bytes, space);
            bytes == run + next && (run != [] ==> AllSpace(run, space))
  {
  }

  lemma ParsesReads(line: Bytes, authority: Bytes) returns (g1: Bytes, g2: Bytes, v: Bytes)
    requires ParseLine(line) == Some(authority)
    ensures Reads(line, line[..7], g1, authority, g2, v)
  {
    g1 := TakeRun(line[7..], true).0;
    var tail1 := TakeRun(line[7..], true).1;
    var tail2 := TakeRun(tail1, false).1;
    g2 := TakeRun(tail2, true).0;
    v := TakeRun(tail2, true).1;
    TakeRunSplits(line[7..], true);
    TakeRunSplits(tail1, false);
    TakeRunSplits(tail2, true);
    Glue(line, g1, tail1, authority, tail2, g2, v);
  }

  lemma Glue(line: Bytes, g1: Bytes, tail1: Bytes, authority: Bytes, tail2: Bytes, g2: Bytes, v: Bytes)
    requires |line| >= 7 && line[7..] == g1 + tail1 && tail1 == authority + tail2 && tail2 == g2 + v
    ensures line == line[..7] + (g1 + (authority + (g2 + v)))
  {
    assert line == line[..7] + line[7..];
  }

  /** The scanner finds the authority of every line the expression accepts, and of no other. */
  lemma ParseLineExact(line: Bytes, authority: Bytes)
    ensures ParseLine(line) == Some(authority) <==>
            exists m, g1, g2, v :: Reads(line, m, g1, authority, g2, v)
  {
    if ParseLine(line) == Some(authority) {
      var g1, g2, v := ParsesReads(line, authority);
      assert Reads(line, line[..7], g1, authority, g2, v);
    }
    if exists m, g1, g2, v :: Reads(line, m, g1, authority, g2, v) {
      var m, g1, g2, v :| Reads(line, m, g1, authority, g2, v);
      ReadsParses(line, m, g1, authority, g2, v);
    }
  }

  // ---- the read loop

  /** What a complete head leads to; `rest` follows its blank line. */
  function Answer(head: Bytes, rest: Bytes): Progress {
    var authority := ParseConnectAuthority(head);
    if authority.None? then NotAllowed else Tunnelled(authority.value, rest)
  }

  /** One chunk read from the socket while the head is incomplete; `later` is still unread. */
  function OnChunk(head: Bytes, chunk: Bytes, later: Bytes): Progress {
    var grown := head + chunk;
    var end := FindBlankLine(grown, 0);
    if end.Some? then Answer(grown[..end.value], grown[end.value + 4..] + later)
    else if |grown| > HEAD_LIMIT then Destroyed
    else Reading(grown)
  }

  function ReadAll(p: Progress, chunks: seq<Bytes>): Progress
    decreases |chunks|
  {
    if chunks == [] || !p.Reading? then p
    else ReadAll(OnChunk(p.head, chunks[0], Flatten(chunks[1..])), chunks[1..])
  }

  /** One accepted socket. `unread` is what the socket hands out next. */
  class Connection {
    var head: Bytes
    var listening: bool
    var authority: Option<Bytes>
    var notAllowed: bool
    var destroyed: bool
    var unread: seq<Bytes>

    constructor ()
      ensures Where() == Reading([]) && unread == []
    {
      head := [];
      listening := true;
      authority := None;
      notAllowed, destroyed := false, false;
      unread := [];
    }

    ghost function Where(): Progress
      reads this
    {
      if destroyed then Destroyed
      else if notAllowed then NotAllowed
      else if authority.Some? then Tunnelled(authority.value, Flatten(unread))
      else Reading(head)
    }

    /** The `readable` handler: reads until the socket is drained or the head is settled. */
    method OnReadable(arrived: seq<Bytes>)
      requires listening && unread == [] && Where().Reading?
      modifies this
      ensures Where() == ReadAll(old(Where()), arrived)
      ensures Where().Reading? ==> listening && unread == []
    {
      unread := arrived;
      while unread != []
        invariant listening && Where().Reading?
        invariant ReadAll(old(Where()), arrived) == ReadAll(Where(), unread)
        decreases |unread|
      {
        ghost var next := OnChunk(head, unread[0], Flatten(unread[1..]));
        Take();
        assert Where() == next;
        if !listening || destroyed {
          return;
        }
      }
    }

    /** One turn of the loop: the next chunk is read and the head, if now complete, is answered. */
    method Take()
      requires listening && unread != [] && Where().Reading?
      modifies this
      ensures Where() == old(OnChunk(head, unread[0], Flatten(unread[1..])))
      ensures Where().Reading? ==> listening && unread == old(unread[1..])
      ensures !Where().Reading? <==> !listening || destroyed
    {
      var chunk := unread[0];
      unread := unread[1..];
      assert |head| == 0 ==> head + chunk == chunk;
      head := if |head| == 0 then chunk else head + chunk;
      var end := FindBlankLine(head, 0);
      if end.Some? {
        AnswerHead(end.value);
        return;
      }
      if |head| > HEAD_LIMIT {
        destroyed := true;
      }
    }

    /** The head is complete: the tunnel gets what was read past its blank line back in front. */
    method AnswerHead(end: nat)
      requires listening && Where().Reading? && end + 4 <= |head|
      modifies this`listening, this`notAllowed, this`authority, this`unread
      ensures !listening && Where() == old(Answer(head[..end], head[end + 4..] + Flatten(unread)))
    {
      listening := false;
      var parsed := ParseConnectAuthority(head[..end]);
      var leftover := head[end + 4..];
      if parsed.None? {
        notAllowed := true;
        return;
      }
      if |leftover| > 0 {
        unread := [leftover] + unread;
      } else {
        assert leftover + Flatten(unread) == Flatten(unread);
      }
      authority := parsed;
    }
  }

  /** A prefix shows the blank line exactly when it contains it whole. */
  lemma {:induction false} FoundInPrefix(bytes: Bytes, n: nat, from: nat)
    requires n <= |bytes|
    ensures FindBlankLine(bytes[..n], from)
            == match FindBlankLine(bytes, from)
               case Some(end) => if end + 4 <= n then Some(end) else None
               case None => None
    decreases |bytes| - from
  {
    if from + 4 <= n {
      assert bytes[..n][from..from + 4] == bytes[from..from + 4];
      FoundInPrefix(bytes, n, from + 1);
    }
  }

  /** The verdict on a byte stream that does not depend on how it was cut. */
  function Verdict(whole: Bytes): Progress {
    var end := FindBlankLine(whole, 0);
    if end.Some? then Answer(whole[..end.value], whole[end.value + 4..])
    else if |whole| > HEAD_LIMIT then Destroyed
    else Reading(whole)
  }

  /** The chunk that completes the blank line settles the connection. */
  lemma ChunkCompletes(head: Bytes, chunk: Bytes, later: Bytes)
    requires FindBlankLine(head + chunk, 0).Some?
    ensures OnChunk(head, chunk, later) == Verdict(head + chunk + later)
  {
    var grown := head + chunk;
    var whole := grown + later;
    var end := FindBlankLine(grown, 0).value;
    assert whole[..|grown|] == grown;
    FoundInPrefix(whole, |grown|, 0);
    assert whole[..end] == grown[..end] && whole[end + 4..] == grown[end + 4..] + later;
  }

  lemma {:induction false} ReadAllVerdict(head: Bytes, chunks: seq<Bytes>)
    requires FindBlankLine(head, 0).None? && |head| <= HEAD_LIMIT
    requires var end := FindBlankLine(head + Flatten(chunks), 0); end.Some? ==> end.value + 3 <= HEAD_LIMIT
    ensures ReadAll(Reading(head), chunks) == Verdict(head + Flatten(chunks))
    decreases |chunks|
  {
    if chunks == [] {
      assert head + Flatten(chunks) == head;
    } else {
      var grown, later := head + chunks[0], Flatten(chunks[1..]);
      assert head + Flatten(chunks) == grown + later;
      if FindBlankLine(grown, 0).Some? {
        ChunkCompletes(head, chunks[0], later);
      } else {
        assert (grown + later)[..|grown|] == grown;
        FoundInPrefix(grown + later, |grown|, 0);
        if |grown| <= HEAD_LIMIT {
          ReadAllVerdict(grown, chunks[1..]);
        }
      }
    }
  }

  /**
   * However the bytes are segmented, the authority and the tunnel's bytes are
   * the same, provided the blank line is complete within the limit.
   */
  lemma SegmentationIrrelevant(chunks: seq<Bytes>)
    requires var end := FindBlankLine(Flatten(chunks), 0); end.Some? ==> end.value + 3 <= HEAD_LIMIT
    ensures ReadAll(Reading([]), chunks) == Verdict(Flatten(chunks))
  {
    assert [] + Flatten(chunks) == Flatten(chunks);
    ReadAllVerdict([], chunks);
  }

  /** Past the limit segmentation decides: one chunk gets through, a cut just before its end does not. */
  lemma SegmentationMatters(whole: Bytes, end: nat)
    requires FindBlankLine(whole, 0) == Some(end) && end + 3 > HEAD_LIMIT
    ensures ReadAll(Reading([]), [whole]) == Verdict(whole) && Verdict(whole) != Destroyed
    ensures ReadAll(Reading([]), [whole[..end + 3]] + [whole[end + 3..]]) == Destroyed
  {
    OneChunk(whole);
    CutFails(whole, end);
  }

  lemma CutFails(whole: Bytes, end: nat)
    requires FindBlankLine(whole, 0) == Some(end) && end + 3 > HEAD_LIMIT && end + 3 <= |whole|
    ensures ReadAll(Reading([]), [whole[..end + 3]] + [whole[end + 3..]]) == Destroyed
  {
    CutHasNone(whole, end);
    var first, second := whole[..end + 3], whole[end + 3..];
    TooLong(first, [second]);
  }

  lemma CutHasNone(whole: Bytes, end: nat)
    requires FindBlankLine(whole, 0) == Some(end) && end + 3 <= |whole|
    ensures FindBlankLine(whole[..end + 3], 0).None?
  {
    FoundInPrefix(whole, end + 3, 0);
  }

  lemma TooLong(chunk: Bytes, later: seq<Bytes>)
    requires FindBlankLine(chunk, 0).None? && |chunk| > HEAD_LIMIT
    ensures ReadAll(Reading([]), [chunk] + later) == Destroyed
  {
    var chunks := [chunk] + later;
    assert chunks[0] == chunk && [] + chunk == chunk;
    assert OnChunk([], chunks[0], Flatten(chunks[1..])) == Destroyed;
  }

  lemma OneChunk(whole: Bytes)
    requires FindBlankLine(whole, 0).Some?
    ensures ReadAll(Reading([]), [whole]) == Verdict(whole)
  {
    var end := FindBlankLine(whole, 0).value;
    assert [whole][1..] == [] && [] + whole == whole;
    assert whole[end + 4..] + [] == whole[end + 4..];
    assert ReadAll(OnChunk([], whole, []), []) == OnChunk([], whole, []);
  }
}
