/**
 * JSON masking (src/logging/mask.ts). A path is a list of segments; arrays are
 * transparent and "*" stands for every key of an object.
 */
module Mask {
  import opened Common
  import opened JsonModel

  type Path = seq<string>

  const MASKED: Json := Str("***")

  predicate SegmentMatches(segment: string, key: string) {
    segment == "*" || segment == key
  }

  /** The document left behind by one in-place application of a path. */
  function ApplyPath(node: Json, path: Path): Json
    decreases node
  {
    if path == [] then node
    else match node
      case Arr(items) => Arr(seq(|items|, i requires 0 <= i < |items| => ApplyPath(items[i], path)))
      case Obj(fields) =>
        Obj(map key | key in fields ::
              if !SegmentMatches(path[0], key) then fields[key]
              else if |path| == 1 then MASKED
              else ApplyPath(fields[key], path[1..]))
      case _ => node
  }

  /** `maskJsonValue`: every configured path in turn. */
  function ApplyPaths(node: Json, paths: seq<Path>): Json
    decreases |paths|
  {
    if paths == [] then node else ApplyPaths(ApplyPath(node, paths[0]), paths[1..])
  }

  /** What is left of the paths that survive a step to `key`. */
  function Tails(paths: set<Path>, key: string): set<Path> {
    set p | p in paths && p != [] && SegmentMatches(p[0], key) :: p[1..]
  }

  /**
   * Reference semantics: all paths at once, in one descent that knows no order.
   */
  function MaskAll(node: Json, paths: set<Path>): Json
    decreases node
  {
    match node
    case Arr(items) => Arr(seq(|items|, i requires 0 <= i < |items| => MaskAll(items[i], paths)))
    case Obj(fields) =>
      Obj(map key | key in fields ::
            if [] in Tails(paths, key) then MASKED else MaskAll(fields[key], Tails(paths, key)))
    case _ => node
  }

  function PathSet(paths: seq<Path>): set<Path> {
    set p | p in paths
  }

  lemma TailsAdd(paths: set<Path>, p: Path, key: string)
    requires p != []
    ensures Tails(paths + {p}, key) ==
            Tails(paths, key) + (if SegmentMatches(p[0], key) then {p[1..]} else {})
  {
    forall t | t in Tails(paths + {p}, key)
      ensures t in Tails(paths, key) + (if SegmentMatches(p[0], key) then {p[1..]} else {})
    {
      var q :| q in paths + {p} && q != [] && SegmentMatches(q[0], key) && q[1..] == t;
      assert q in paths ==> t in Tails(paths, key);
    }
  }

  lemma {:induction false} MaskNothing(node: Json)
    ensures MaskAll(node, {}) == node
  {
    match node
    case Arr(items) =>
      forall i | 0 <= i < |items| ensures MaskAll(items[i], {}) == items[i] {
        MaskNothing(items[i]);
      }
      assert MaskAll(node, {}).items == items;
    case Obj(fields) =>
      forall key | key in fields ensures MaskAll(node, {}).fields[key] == fields[key] {
        assert Tails({}, key) == {};
        MaskNothing(fields[key]);
      }
      assert MaskAll(node, {}).fields == fields;
    case _ =>
  }

  /** One more in-place pass is one more path in the simultaneous masking. */
  lemma {:induction false} ApplyAfterMask(node: Json, paths: set<Path>, p: Path)
    requires p != []
    ensures ApplyPath(MaskAll(node, paths), p) == MaskAll(node, paths + {p})
    decreases node
  {
    match node
    case Arr(items) =>
      forall i | 0 <= i < |items|
        ensures ApplyPath(MaskAll(items[i], paths), p) == MaskAll(items[i], paths + {p})
      {
        ApplyAfterMask(items[i], paths, p);
      }
      assert ApplyPath(MaskAll(node, paths), p).items == MaskAll(node, paths + {p}).items;
    case Obj(fields) =>
      var once := MaskAll(node, paths).fields;
      forall key | key in fields
        ensures ApplyPath(MaskAll(node, paths), p).fields[key] == MaskAll(node, paths + {p}).fields[key]
      {
        TailsAdd(paths, p, key);
        if SegmentMatches(p[0], key) && |p| > 1 && [] !in Tails(paths, key) {
          ApplyAfterMask(fields[key], Tails(paths, key), p[1..]);
        } else if !SegmentMatches(p[0], key) {
          assert Tails(paths + {p}, key) == Tails(paths, key);
        }
      }
      assert ApplyPath(MaskAll(node, paths), p).fields == MaskAll(node, paths + {p}).fields;
    case _ =>
  }

  lemma {:induction false} ApplyPathsAfterMask(node: Json, done: set<Path>, paths: seq<Path>)
    requires [] !in paths
    ensures ApplyPaths(MaskAll(node, done), paths) == MaskAll(node, done + PathSet(paths))
    decreases |paths|
  {
    if paths == [] {
      assert done + PathSet(paths) == done;
    } else {
      ApplyAfterMask(node, done, paths[0]);
      ApplyPathsAfterMask(node, done + {paths[0]}, paths[1..]);
      assert done + {paths[0]} + PathSet(paths[1..]) == done + PathSet(paths);
    }
  }

  /** The sequential passes compute the simultaneous masking of the path set. */
  lemma ApplyPathsIsMaskAll(node: Json, paths: seq<Path>)
    requires [] !in paths
    ensures ApplyPaths(node, paths) == MaskAll(node, PathSet(paths))
  {
    MaskNothing(node);
    ApplyPathsAfterMask(node, {}, paths);
    assert {} + PathSet(paths) == PathSet(paths);
  }

  /** Order and repetition of the configured paths are irrelevant. */
  lemma OrderIndependent(node: Json, first: seq<Path>, second: seq<Path>)
    requires [] !in first && [] !in second && PathSet(first) == PathSet(second)
    ensures ApplyPaths(node, first) == ApplyPaths(node, second)
  {
    ApplyPathsIsMaskAll(node, first);
    ApplyPathsIsMaskAll(node, second);
  }

  lemma ApplyPathsConcat(node: Json, first: seq<Path>, second: seq<Path>)
    ensures ApplyPaths(node, first + second) == ApplyPaths(ApplyPaths(node, first), second)
    decreases |first|
  {
    if first == [] {
      assert first + second == second;
    } else {
      assert (first + second)[1..] == first[1..] + second;
      ApplyPathsConcat(ApplyPath(node, first[0]), first[1..], second);
    }
  }

  lemma Idempotent(node: Json, paths: seq<Path>)
    requires [] !in paths
    ensures ApplyPaths(ApplyPaths(node, paths), paths) == ApplyPaths(node, paths)
  {
    ApplyPathsConcat(node, paths, paths);
    assert PathSet(paths + paths) == PathSet(paths);
    OrderIndependent(node, paths + paths, paths);
  }

  lemma Commute(node: Json, p: Path, q: Path)
    ensures ApplyPath(ApplyPath(node, p), q) == ApplyPath(ApplyPath(node, q), p)
  {
    if p != [] && q != [] {
      assert [p, q][1..] == [q] && [q, p][1..] == [p];
      assert ApplyPaths(ApplyPath(node, p), [q]) == ApplyPath(ApplyPath(node, p), q);
      assert ApplyPaths(ApplyPath(node, q), [p]) == ApplyPath(ApplyPath(node, q), p);
      assert PathSet([p, q]) == PathSet([q, p]);
      OrderIndependent(node, [p, q], [q, p]);
    }
  }

  // ---- which values change

  datatype Step = Key(key: string) | Index(index: nat)

  /** The value at a concrete location of a document. */
  function Lookup(node: Json, loc: seq<Step>): Option<Json>
    decreases |loc|
  {
    if loc == [] then Some(node)
    else match loc[0]
      case Key(key) => if node.Obj? && key in node.fields then Lookup(node.fields[key], loc[1..]) else None
      case Index(i) => if node.Arr? && i < |node.items| then Lookup(node.items[i], loc[1..]) else None
  }

  /** The object keys on the way to a location; array steps do not count. */
  function Keys(loc: seq<Step>): seq<string> {
    if loc == [] then []
    else if loc[0].Key? then [loc[0].key] + Keys(loc[1..])
    else Keys(loc[1..])
  }

  predicate PathMatches(p: Path, keys: seq<string>) {
    |p| == |keys| && forall i :: 0 <= i < |p| ==> SegmentMatches(p[i], keys[i])
  }

  /** A path of the set names the value at `loc`, which an object holds. */
  predicate Reached(paths: set<Path>, loc: seq<Step>) {
    loc != [] && loc[|loc| - 1].Key? && exists p :: p in paths && PathMatches(p, Keys(loc))
  }

  /** Neither the value at `loc` nor a container above it is named by a path. */
  predicate Untouched(paths: set<Path>, loc: seq<Step>) {
    forall n :: 0 < n <= |loc| ==> !Reached(paths, loc[..n])
  }

  lemma ReachedThroughKey(paths: set<Path>, key: string, loc: seq<Step>)
    requires loc != []
    ensures Reached(paths, [Key(key)] + loc) <==> Reached(Tails(paths, key), loc)
  {
    var whole := [Key(key)] + loc;
    assert whole[1..] == loc;
    assert whole[|whole| - 1] == loc[|loc| - 1];
    if Reached(paths, whole) {
      var p :| p in paths && PathMatches(p, Keys(whole));
      assert p[1..] in Tails(paths, key) && PathMatches(p[1..], Keys(loc));
    }
    if Reached(Tails(paths, key), loc) {
      var t :| t in Tails(paths, key) && PathMatches(t, Keys(loc));
      var p :| p in paths && p != [] && SegmentMatches(p[0], key) && p[1..] == t;
      assert forall i :: 0 < i < |p| ==> p[i] == t[i - 1];
      assert PathMatches(p, Keys(whole));
    }
  }

  lemma ReachedAtKey(paths: set<Path>, key: string)
    ensures Reached(paths, [Key(key)]) <==> [] in Tails(paths, key)
  {
    assert Keys([Key(key)]) == [key];
    if [] in Tails(paths, key) {
      var p :| p in paths && p != [] && SegmentMatches(p[0], key) && p[1..] == [];
      assert PathMatches(p, [key]);
    }
    if Reached(paths, [Key(key)]) {
      var p :| p in paths && PathMatches(p, [key]);
      assert p[1..] == [];
    }
  }

  lemma ReachedThroughIndex(paths: set<Path>, i: nat, loc: seq<Step>)
    requires loc != []
    ensures Reached(paths, [Index(i)] + loc) <==> Reached(paths, loc)
  {
    var whole := [Index(i)] + loc;
    assert whole[1..] == loc;
    assert whole[|whole| - 1] == loc[|loc| - 1];
  }

  lemma UntouchedBelow(paths: set<Path>, loc: seq<Step>)
    requires loc != []
    requires Untouched(paths, loc)
    ensures loc[0].Key? ==> [] !in Tails(paths, loc[0].key) && Untouched(Tails(paths, loc[0].key), loc[1..])
    ensures loc[0].Index? ==> Untouched(paths, loc[1..])
  {
    assert loc[..1] == [loc[0]];
    forall n | 0 < n <= |loc| - 1
      ensures loc[0].Key? ==> !Reached(Tails(paths, loc[0].key), loc[1..][..n])
      ensures loc[0].Index? ==> !Reached(paths, loc[1..][..n])
    {
      assert loc[..n + 1] == [loc[0]] + loc[1..][..n];
      if loc[0].Key? {
        ReachedThroughKey(paths, loc[0].key, loc[1..][..n]);
      } else {
        ReachedThroughIndex(paths, loc[0].index, loc[1..][..n]);
      }
    }
    if loc[0].Key? {
      ReachedAtKey(paths, loc[0].key);
    }
  }

  /** A location no path names keeps its scalar, or its kind, keys and length. */
  lemma {:induction false} UntouchedKept(node: Json, paths: set<Path>, loc: seq<Step>)
    requires Untouched(paths, loc)
    ensures var before, after := Lookup(node, loc), Lookup(MaskAll(node, paths), loc);
            && (before.None? <==> after.None?)
            && (before.Some? && !before.value.IsContainer() ==> after == before)
            && (before.Some? && before.value.Obj? ==>
                  after.value.Obj? && after.value.fields.Keys == before.value.fields.Keys)
            && (before.Some? && before.value.Arr? ==>
                  after.value.Arr? && |after.value.items| == |before.value.items|)
    decreases |loc|
  {
    if loc != [] {
      UntouchedBelow(paths, loc);
      match loc[0]
      case Key(key) =>
        if node.Obj? && key in node.fields {
          UntouchedKept(node.fields[key], Tails(paths, key), loc[1..]);
        }
      case Index(i) =>
        if node.Arr? && i < |node.items| {
          UntouchedKept(node.items[i], paths, loc[1..]);
        }
    }
  }

  /** A value some path names, below no other named value, becomes "***". */
  lemma {:induction false} ReachedMasked(node: Json, paths: set<Path>, loc: seq<Step>)
    requires Reached(paths, loc) && Untouched(paths, loc[..|loc| - 1])
    requires Lookup(node, loc).Some?
    ensures Lookup(MaskAll(node, paths), loc) == Some(MASKED)
    decreases |loc|
  {
    if |loc| == 1 {
      assert loc == [Key(loc[0].key)];
      ReachedAtKey(paths, loc[0].key);
    } else {
      UntouchedBelow(paths, loc[..|loc| - 1]);
      assert loc[..|loc| - 1][1..] == loc[1..][..|loc| - 2];
      assert loc == [loc[0]] + loc[1..];
      match loc[0]
      case Key(key) =>
        ReachedThroughKey(paths, key, loc[1..]);
        ReachedMasked(node.fields[key], Tails(paths, key), loc[1..]);
      case Index(i) =>
        ReachedThroughIndex(paths, i, loc[1..]);
        ReachedMasked(node.items[i], paths, loc[1..]);
    }
  }

  /** Masking leaves alone every location the configured paths do not name. */
  lemma UnnamedKept(node: Json, paths: seq<Path>, loc: seq<Step>)
    requires [] !in paths && Untouched(PathSet(paths), loc)
    ensures Lookup(node, loc).None? <==> Lookup(ApplyPaths(node, paths), loc).None?
    ensures Lookup(node, loc).Some? && !Lookup(node, loc).value.IsContainer() ==>
              Lookup(ApplyPaths(node, paths), loc) == Lookup(node, loc)
  {
    ApplyPathsIsMaskAll(node, paths);
    UntouchedKept(node, PathSet(paths), loc);
  }

  /** Masking hides every value the configured paths name. */
  lemma NamedMasked(node: Json, paths: seq<Path>, loc: seq<Step>)
    requires [] !in paths && Reached(PathSet(paths), loc)
    requires Untouched(PathSet(paths), loc[..|loc| - 1]) && Lookup(node, loc).Some?
    ensures Lookup(ApplyPaths(node, paths), loc) == Some(MASKED)
  {
    ApplyPathsIsMaskAll(node, paths);
    ReachedMasked(node, PathSet(paths), loc);
  }
}
