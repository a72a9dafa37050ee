/**
 * Masking in place (src/logging/mask.ts): `applyPath` and `maskJsonValue` on a
 * tree of mutable containers. `doc` is the document a node stands for.
 */
module MaskTree {
  import opened JsonModel
  import opened Mask
  import opened Text
  import opened Matchers

  datatype Value = Scalar(json: Json) | Ref(node: Node)

  class Node {
    const isArray: bool
    var items: seq<Value>
    var fields: map<string, Value>
    ghost var doc: Json
    ghost var repr: set<Node>

    /** `child` is a part of this tree, and this node no part of the child's. */
    ghost predicate Owns(child: Node)
      reads this, repr
      decreases repr, 0
    {
      this in repr && child in repr && child.repr <= repr - {this} && child.Valid()
    }

    ghost predicate OwnsItems()
      reads this, repr
      decreases repr, 1
    {
      && (forall i :: 0 <= i < |items| && items[i].Ref? ==> Owns(items[i].node))
      && (forall i :: 0 <= i < |items| && items[i].Scalar? ==> !items[i].json.IsContainer())
      && (forall i, j :: 0 <= i < |items| && 0 <= j < |items| && i != j && items[i].Ref? && items[j].Ref? ==>
            items[i].node in repr && items[j].node in repr && items[i].node.repr !! items[j].node.repr)
    }

    ghost predicate OwnsFields()
      reads this, repr
      decreases repr, 1
    {
      && (forall k :: k in fields && fields[k].Ref? ==> Owns(fields[k].node))
      && (forall k :: k in fields && fields[k].Scalar? ==> !fields[k].json.IsContainer())
      && (forall k, l :: k in fields && l in fields && k != l && fields[k].Ref? && fields[l].Ref? ==>
            fields[k].node in repr && fields[l].node in repr && fields[k].node.repr !! fields[l].node.repr)
    }

    /** A tree without sharing, and `doc` is what it holds. */
    ghost predicate Valid()
      reads this, repr
      decreases repr, 2
    {
      && this in repr
      && if isArray then
           OwnsItems() && doc.Arr? && |doc.items| == |items| && (forall i :: 0 <= i < |items| ==>
              (items[i].Ref? ==> items[i].node in repr) && Doc(items[i]) == doc.items[i])
         else
           OwnsFields() && doc.Obj? && doc.fields.Keys == fields.Keys && (forall k :: k in fields ==>
              (fields[k].Ref? ==> fields[k].node in repr) && Doc(fields[k]) == doc.fields[k])
    }
  }

  ghost function Doc(v: Value): Json
    reads if v.Ref? then {v.node} else {}
  {
    match v
    case Scalar(json) => json
    case Ref(node) => node.doc
  }

  method ApplyPathIn(v: Value, segments: Path)
    requires v.Ref? ==> v.node.Valid()
    requires v.Scalar? ==> !v.json.IsContainer()
    modifies if v.Ref? then v.node.repr else {}
    ensures v.Ref? ==> v.node.Valid() && v.node.repr == old(v.node.repr)
    ensures Doc(v) == ApplyPath(old(Doc(v)), segments)
    decreases if v.Ref? then v.node.repr else {}, 5
  {
    if v.Scalar? || segments == [] {
      return;
    }
    if v.node.isArray {
      MaskItems(v.node, segments);
    } else {
      MaskFields(v.node, segments);
    }
  }

  /** One element; the others do not notice. */
  method MaskItem(node: Node, i: nat, segments: Path)
    requires node in node.repr && node.OwnsItems() && i < |node.items|
    modifies node.repr - {node}
    ensures node.OwnsItems()
    ensures forall j :: 0 <= j < |node.items| ==>
              Doc(node.items[j]) == if j == i then ApplyPath(old(Doc(node.items[j])), segments) else old(Doc(node.items[j]))
    decreases node.repr, 0
  {
    if node.items[i].Scalar? {
      return;
    }
    assert node.Owns(node.items[i].node);
    ghost var changing := node.items[i].node.repr;
    label before:
    ApplyPathIn(node.items[i], segments);
    forall j | 0 <= j < |node.items| && j != i && node.items[j].Ref?
      ensures node.Owns(node.items[j].node) && node.items[j].node.repr == old@before(node.items[j].node.repr)
      ensures Doc(node.items[j]) == old@before(Doc(node.items[j]))
    {
      ghost var other := node.items[j].node;
      assert old@before(node.Owns(other)) && old@before(other.repr) !! changing;
      assert old@before(other.Valid());
      assert other in old@before(other.repr);
      assert other.Valid();
    }
    assert node.Owns(node.items[i].node);
  }

  /** Arrays are transparent: the same path applies to every element. */
  method MaskItems(node: Node, segments: Path)
    requires node.Valid() && node.isArray && segments != []
    modifies node.repr
    ensures node.Valid() && node.repr == old(node.repr)
    ensures node.doc == ApplyPath(old(node.doc), segments)
    decreases node.repr, 1
  {
    ghost var before := node.doc.items;
    for i := 0 to |node.items|
      invariant node.items == old(node.items) && node.repr == old(node.repr) && node.doc == old(node.doc)
      invariant node in node.repr && node.OwnsItems()
      invariant forall j :: 0 <= j < |node.items| ==>
                  Doc(node.items[j]) == if j < i then ApplyPath(before[j], segments) else before[j]
    {
      MaskItem(node, i, segments);
    }
    SetDoc(node, Arr(seq(|before|, i requires 0 <= i < |before| => ApplyPath(before[i], segments))));
  }

  /** Only the ghost copy changes: the parts stay what they are. */
  ghost method SetDoc(node: Node, doc: Json)
    requires node in node.repr && (if node.isArray then node.OwnsItems() else node.OwnsFields())
    modifies node`doc
    ensures node.doc == doc && (if node.isArray then node.OwnsItems() else node.OwnsFields())
    ensures forall i :: 0 <= i < |node.items| && node.isArray ==> Doc(node.items[i]) == old(Doc(node.items[i]))
    ensures forall k :: k in node.fields && !node.isArray ==> Doc(node.fields[k]) == old(Doc(node.fields[k]))
  {
    node.doc := doc;
    if node.isArray {
      forall i | 0 <= i < |node.items| && node.items[i].Ref?
        ensures node.Owns(node.items[i].node) && Doc(node.items[i]) == old(Doc(node.items[i]))
      {
        assert old(node.Owns(node.items[i].node));
        assert node.items[i].node.Valid();
      }
    } else {
      forall k | k in node.fields && node.fields[k].Ref?
        ensures node.Owns(node.fields[k].node) && Doc(node.fields[k]) == old(Doc(node.fields[k]))
      {
        assert old(node.Owns(node.fields[k].node));
        assert node.fields[k].node.Valid();
      }
    }
  }

  /** What the loop over the keys makes of one member. */
  ghost function MaskedMember(value: Json, segments: Path): Json
    requires segments != []
  {
    if |segments| == 1 then MASKED else ApplyPath(value, segments[1..])
  }

  /** One member; the others do not notice. */
  method MaskField(node: Node, key: string, rest: Path)
    requires node in node.repr && node.OwnsFields() && key in node.fields && rest != []
    modifies node.repr - {node}
    ensures node.OwnsFields()
    ensures forall k :: k in node.fields ==>
              Doc(node.fields[k]) == if k == key then ApplyPath(old(Doc(node.fields[k])), rest) else old(Doc(node.fields[k]))
    decreases node.repr, 0
  {
    if node.fields[key].Scalar? {
      return;
    }
    assert node.Owns(node.fields[key].node);
    ghost var changing := node.fields[key].node.repr;
    label before:
    ApplyPathIn(node.fields[key], rest);
    forall k | k in node.fields && k != key && node.fields[k].Ref?
      ensures node.Owns(node.fields[k].node) && node.fields[k].node.repr == old@before(node.fields[k].node.repr)
      ensures Doc(node.fields[k]) == old@before(Doc(node.fields[k]))
    {
      ghost var other := node.fields[k].node;
      assert old@before(node.Owns(other)) && old@before(other.repr) !! changing;
      assert old@before(other.Valid());
      assert other in old@before(other.repr);
      assert other.Valid();
    }
    assert node.Owns(node.fields[key].node);
  }

  /** `record[key] = MASKED_VALUE`. */
  method OverwriteField(node: Node, key: string)
    requires node in node.repr && node.OwnsFields() && key in node.fields
    modifies node`fields
    ensures node.OwnsFields() && node.fields == old(node.fields)[key := Scalar(MASKED)]
    ensures forall k :: k in node.fields ==>
              Doc(node.fields[k]) == if k == key then MASKED else old(Doc(node.fields[k]))
  {
    node.fields := node.fields[key := Scalar(MASKED)];
    forall k | k in node.fields && node.fields[k].Ref?
      ensures node.Owns(node.fields[k].node) && Doc(node.fields[k]) == old(Doc(node.fields[k]))
    {
      assert old(node.Owns(node.fields[k].node));
      assert node.fields[k].node.Valid();
    }
  }

  /** The loop body. */
  method MaskKey(node: Node, key: string, segments: Path)
    requires node in node.repr && node.OwnsFields() && key in node.fields && segments != []
    modifies node`fields, node.repr - {node}
    ensures node.OwnsFields() && node.fields.Keys == old(node.fields.Keys)
    ensures forall k :: k in node.fields ==>
              Doc(node.fields[k]) == if k == key then MaskedMember(old(Doc(node.fields[k])), segments) else old(Doc(node.fields[k]))
    decreases node.repr, 1
  {
    var rest := segments[1..];
    if rest == [] {
      OverwriteField(node, key);
    } else {
      MaskField(node, key, rest);
    }
  }

  /** The members once the given keys have been seen to. */
  ghost function SoFar(before: map<string, Json>, done: set<string>, segments: Path): map<string, Json>
    requires segments != []
  {
    map k | k in before :: if k in done then MaskedMember(before[k], segments) else before[k]
  }

  /** With every key that the first segment stands for, that is the masked object. */
  lemma AllSeenTo(before: map<string, Json>, keys: set<string>, segments: Path)
    requires segments != [] && forall k :: k in keys <==> k in before && SegmentMatches(segments[0], k)
    ensures ApplyPath(Obj(before), segments) == Obj(SoFar(before, keys, segments))
  {
    var after := ApplyPath(Obj(before), segments).fields;
    assert after.Keys == before.Keys;
    forall k | k in before
      ensures after[k] == SoFar(before, keys, segments)[k]
    {
    }
  }

  /** The members of `node` are whole trees that stand for `docs`. */
  ghost predicate Shows(node: Node, docs: map<string, Json>)
    reads node, node.repr
  {
    && node in node.repr && node.OwnsFields() && node.fields.Keys == docs.Keys
    && forall k :: k in node.fields ==>
         (node.fields[k].Ref? ==> node.fields[k].node in node.repr) && Doc(node.fields[k]) == docs[k]
  }

  /** One turn of the loop. */
  method VisitKey(node: Node, key: string, segments: Path, ghost before: map<string, Json>, ghost done: set<string>)
    requires segments != [] && key in node.fields && key !in done && Shows(node, SoFar(before, done, segments))
    modifies node`fields, node.repr - {node}
    ensures node.repr == old(node.repr) && Shows(node, SoFar(before, done + {key}, segments))
    decreases node.repr, 2
  {
    MaskKey(node, key, segments);
  }

  /** The loop over the keys, in any order. */
  method VisitKeys(node: Node, keys: set<string>, segments: Path, ghost before: map<string, Json>)
    requires segments != [] && keys <= before.Keys && Shows(node, before)
    modifies node`fields, node.repr - {node}
    ensures node.repr == old(node.repr) && Shows(node, SoFar(before, keys, segments))
    decreases node.repr, 3
  {
    var pending := keys;
    assert SoFar(before, {}, segments) == before && keys - pending == {};
    while pending != {}
      invariant pending <= keys && node.repr == old(node.repr)
      invariant Shows(node, SoFar(before, keys - pending, segments))
    {
      var key :| key in pending;
      VisitKey(node, key, segments, before, keys - pending);
      assert keys - (pending - {key}) == keys - pending + {key};
      pending := pending - {key};
    }
    assert keys - pending == keys;
  }

  /** Every key the first segment stands for. */
  method MaskFields(node: Node, segments: Path)
    requires node.Valid() && !node.isArray && segments != []
    modifies node.repr
    ensures node.Valid() && node.repr == old(node.repr)
    ensures node.doc == ApplyPath(old(node.doc), segments)
    decreases node.repr, 4
  {
    ghost var before := node.doc.fields;
    var head := segments[0];
    var keys := if head == "*" then node.fields.Keys else if head in node.fields then {head} else {};
    AllSeenTo(before, keys, segments);
    VisitKeys(node, keys, segments, before);
    SetDoc(node, Obj(SoFar(before, keys, segments)));
  }

  /** Every path in turn. */
  method MaskPaths(v: Value, jsonPaths: seq<Path>)
    requires v.Ref? ==> v.node.Valid()
    requires v.Scalar? ==> !v.json.IsContainer()
    requires [] !in jsonPaths
    modifies if v.Ref? then v.node.repr else {}
    ensures v.Ref? ==> v.node.Valid()
    ensures Doc(v) == MaskAll(old(Doc(v)), PathSet(jsonPaths))
  {
    for i := 0 to |jsonPaths|
      invariant v.Ref? ==> v.node.Valid() && v.node.repr == old(v.node.repr)
      invariant ApplyPaths(Doc(v), jsonPaths[i..]) == ApplyPaths(old(Doc(v)), jsonPaths)
    {
      assert jsonPaths[i..][1..] == jsonPaths[i + 1..];
      ApplyPathIn(v, jsonPaths[i]);
    }
    ApplyPathsIsMaskAll(old(Doc(v)), jsonPaths);
  }

  // ---- the configured paths

  /** `s.split('.')`: never empty, and joining with dots gives `s` back. */
  function Split(s: string): (parts: Path)
    ensures parts != []
    decreases |s|
  {
    if s == [] then [""]
    else
      var rest := Split(s[1..]);
      if s[0] == '.' then [""] + rest else [[s[0]] + rest[0]] + rest[1..]
  }

  function Join(parts: Path): string {
    if parts == [] then "" else if |parts| == 1 then parts[0] else parts[0] + "." + Join(parts[1..])
  }

  /** The parts are those between the dots. */
  lemma {:induction false} JoinSplit(s: string)
    ensures Join(Split(s)) == s
    ensures forall part <- Split(s) :: '.' !in part
    decreases |s|
  {
    if s != [] {
      JoinSplit(s[1..]);
      var rest := Split(s[1..]);
      assert s == [s[0]] + s[1..];
      if s[0] == '.' {
        assert ([""] + rest)[1..] == rest;
      } else {
        assert ([[s[0]] + rest[0]] + rest[1..])[1..] == rest[1..];
      }
    }
  }

  predicate Usable(raw: string) {
    |raw| > 2 && raw[..2] == "$."
  }

  function PathOf(raw: string): Path
    requires Usable(raw)
  {
    Split(raw[2..])
  }

  /** A masked header keeps its name and the number of its values. */
  function MaskedHeader(value: HeaderValue): HeaderValue {
    match value
    case One(_) => One(MASKED_HEADER)
    case Many(values) => Many(seq(|values|, _ => MASKED_HEADER))
  }

  const MASKED_HEADER := "***"

  class MaskRegistry {
    var headers: set<string>
    var rawJsonPaths: seq<string>
    var jsonPaths: seq<Path>

    ghost predicate Valid()
      reads this
    {
      && (forall i :: 0 <= i < |rawJsonPaths| ==> Usable(rawJsonPaths[i]))
      && |jsonPaths| == |rawJsonPaths|
      && forall i :: 0 <= i < |jsonPaths| ==> jsonPaths[i] == PathOf(rawJsonPaths[i])
    }

    constructor (names: seq<string>, paths: seq<string>)
      ensures Valid() && forall raw :: raw in rawJsonPaths <==> raw in paths && Usable(raw)
      ensures headers == set name | name in names :: ToLower(name)
    {
      headers, rawJsonPaths, jsonPaths := {}, [], [];
      new;
      Set(names, paths);
    }

    /** Unusable paths are dropped without a word; header names are taken in lower case. */
    method Set(names: seq<string>, paths: seq<string>)
      modifies this
      ensures Valid() && forall raw :: raw in rawJsonPaths <==> raw in paths && Usable(raw)
      ensures headers == set name | name in names :: ToLower(name)
    {
      headers := set name | name in names :: ToLower(name);
      rawJsonPaths, jsonPaths := [], [];
      for i := 0 to |paths|
        invariant Valid() && forall raw :: raw in rawJsonPaths <==> raw in paths[..i] && Usable(raw)
        invariant headers == set name | name in names :: ToLower(name)
      {
        assert paths[..i + 1] == paths[..i] + [paths[i]];
        if Usable(paths[i]) {
          rawJsonPaths := rawJsonPaths + [paths[i]];
          jsonPaths := jsonPaths + [PathOf(paths[i])];
        }
      }
      assert paths[..|paths|] == paths;
    }

    /** No header is lost or renamed; those on the list are masked whatever their case, all others kept. */
    method MaskHeaders(received: map<string, HeaderValue>) returns (masked: map<string, HeaderValue>)
      ensures masked.Keys == received.Keys
      ensures forall name :: name in received ==>
                masked[name] == if ToLower(name) in headers then MaskedHeader(received[name]) else received[name]
    {
      masked := map[];
      var pending := received.Keys;
      while pending != {}
        invariant pending <= received.Keys && masked.Keys == received.Keys - pending
        invariant forall name :: name in masked ==>
                    masked[name] == if ToLower(name) in headers then MaskedHeader(received[name]) else received[name]
      {
        var name :| name in pending;
        if ToLower(name) in headers {
          masked := masked[name := MaskedHeader(received[name])];
        } else {
          masked := masked[name := received[name]];
        }
        pending := pending - {name};
      }
    }

    /** Masks exactly what the usable paths reach, whatever order they were given in. */
    method MaskJsonValue(v: Value)
      requires Valid() && (v.Ref? ==> v.node.Valid()) && (v.Scalar? ==> !v.json.IsContainer())
      modifies if v.Ref? then v.node.repr else {}
      ensures v.Ref? ==> v.node.Valid()
      ensures Doc(v) == MaskAll(old(Doc(v)), set raw | raw in rawJsonPaths && Usable(raw) :: PathOf(raw))
    {
      ghost var wanted := set raw | raw in rawJsonPaths && Usable(raw) :: PathOf(raw);
      assert PathSet(jsonPaths) == wanted by {
        forall p | p in wanted
          ensures p in jsonPaths
        {
          var raw :| raw in rawJsonPaths && Usable(raw) && PathOf(raw) == p;
          var i :| 0 <= i < |rawJsonPaths| && rawJsonPaths[i] == raw;
          assert jsonPaths[i] == p;
        }
        forall p | p in jsonPaths
          ensures p in wanted
        {
          var i :| 0 <= i < |jsonPaths| && jsonPaths[i] == p;
          assert rawJsonPaths[i] in rawJsonPaths;
        }
      }
      MaskPaths(v, jsonPaths);
    }
  }
}
