/** The in-memory rule store (src/rules/store.ts). */
module Store {
  import opened Common
  import opened RuleTypes
  import opened Text

  type RuleMap = map<string, Rule>

  datatype StoreError = RevisionConflict(expected: int, actual: int) | DuplicateRuleId(id: string) | RuleNotFound(id: string)

  datatype RuleSetSnapshot = RuleSetSnapshot(revision: nat, rules: seq<Rule>)

  datatype ImportMode = Merge | Replace

  /** The comparator: priority descending, creation time ascending, id ascending. */
  function CompareRules(a: Rule, b: Rule): int {
    if a.priority != b.priority then b.priority - a.priority
    else if a.createdAt != b.createdAt then if StringLess(a.createdAt, b.createdAt) then -1 else 1
    else if StringLess(a.id, b.id) then -1
    else if StringLess(b.id, a.id) then 1
    else 0
  }

  predicate Before(a: Rule, b: Rule) {
    CompareRules(a, b) < 0
  }

  lemma BeforeIrreflexive(a: Rule)
    ensures !Before(a, a)
  {
    StringLessIrreflexive(a.id);
  }

  lemma BeforeTransitive(a: Rule, b: Rule, c: Rule)
    requires Before(a, b) && Before(b, c)
    ensures Before(a, c)
  {
    StringLessConnected(a.createdAt, b.createdAt);
    StringLessConnected(b.createdAt, c.createdAt);
    if a.createdAt != b.createdAt && b.createdAt != c.createdAt && a.priority == b.priority == c.priority {
      StringLessTransitive(a.createdAt, b.createdAt, c.createdAt);
      StringLessIrreflexive(a.createdAt);
    }
    if StringLess(a.id, b.id) && StringLess(b.id, c.id) {
      StringLessTransitive(a.id, b.id, c.id);
    }
  }

  lemma BeforeAsymmetric(a: Rule, b: Rule)
    requires Before(a, b)
    ensures !Before(b, a)
  {
    if Before(b, a) {
      BeforeTransitive(a, b, a);
      BeforeIrreflexive(a);
    }
  }

  /** With distinct ids the comparator never calls two rules equal: it is a strict total order. */
  lemma BeforeConnected(a: Rule, b: Rule)
    requires a.id != b.id
    ensures Before(a, b) || Before(b, a)
  {
    StringLessConnected(a.createdAt, b.createdAt);
    StringLessConnected(a.id, b.id);
    if a.createdAt != b.createdAt && StringLess(a.createdAt, b.createdAt) && StringLess(b.createdAt, a.createdAt) {
      StringLessTransitive(a.createdAt, b.createdAt, a.createdAt);
      StringLessIrreflexive(a.createdAt);
    }
  }

  // ---- sorting

  function Insert(rule: Rule, sorted: seq<Rule>): seq<Rule> {
    if sorted == [] then [rule]
    else if Before(rule, sorted[0]) then [rule] + sorted
    else [sorted[0]] + Insert(rule, sorted[1..])
  }

  /** `Array.prototype.sort` with the comparator above. */
  function SortRules(rules: seq<Rule>): seq<Rule> {
    if rules == [] then [] else Insert(rules[0], SortRules(rules[1..]))
  }

  predicate Sorted(rules: seq<Rule>) {
    forall i, j :: 0 <= i < j < |rules| ==> Before(rules[i], rules[j])
  }

  predicate DistinctIds(rules: seq<Rule>) {
    forall i, j :: 0 <= i < j < |rules| ==> rules[i].id != rules[j].id
  }

  lemma {:induction false} InsertMember(rule: Rule, sorted: seq<Rule>, x: Rule)
    ensures x in Insert(rule, sorted) <==> x == rule || x in sorted
    decreases |sorted|
  {
    if sorted != [] && !Before(rule, sorted[0]) {
      InsertMember(rule, sorted[1..], x);
    }
  }

  lemma {:induction false} InsertSorted(rule: Rule, sorted: seq<Rule>)
    requires Sorted(sorted)
    requires forall x :: x in sorted ==> x.id != rule.id
    ensures Sorted(Insert(rule, sorted))
    decreases |sorted|
  {
    if sorted == [] {
    } else if Before(rule, sorted[0]) {
      forall j | 0 < j < |sorted| ensures Before(rule, sorted[j]) {
        BeforeTransitive(rule, sorted[0], sorted[j]);
      }
    } else {
      assert sorted[0] in sorted;
      BeforeConnected(rule, sorted[0]);
      InsertSorted(rule, sorted[1..]);
      var rest := Insert(rule, sorted[1..]);
      forall j | 0 <= j < |rest| ensures Before(sorted[0], rest[j]) {
        InsertMember(rule, sorted[1..], rest[j]);
        if rest[j] != rule {
          var k :| 0 <= k < |sorted[1..]| && sorted[1..][k] == rest[j];
          assert sorted[k + 1] == rest[j];
        }
      }
    }
  }

  lemma {:induction false} SortMember(rules: seq<Rule>, x: Rule)
    ensures x in SortRules(rules) <==> x in rules
    decreases |rules|
  {
    if rules != [] {
      SortMember(rules[1..], x);
      InsertMember(rules[0], SortRules(rules[1..]), x);
    }
  }

  lemma {:induction false} SortSorted(rules: seq<Rule>)
    requires DistinctIds(rules)
    ensures Sorted(SortRules(rules))
    decreases |rules|
  {
    if rules != [] {
      SortSorted(rules[1..]);
      forall x | x in SortRules(rules[1..]) ensures x.id != rules[0].id {
        SortMember(rules[1..], x);
      }
      InsertSorted(rules[0], SortRules(rules[1..]));
    }
  }

  // ---- the snapshot of a rule set

  predicate KeyedById(rules: RuleMap) {
    forall id :: id in rules ==> rules[id].id == id
  }

  /** `list` holds exactly the rules of the set, in strictly ascending comparator order. */
  predicate IsSnapshotOf(list: seq<Rule>, rules: RuleMap) {
    && Sorted(list)
    && (forall x :: x in list ==> x.id in rules && rules[x.id] == x)
    && (forall id :: id in rules ==> rules[id] in list)
  }

  lemma SnapshotTail(list: seq<Rule>, rules: RuleMap)
    requires KeyedById(rules) && IsSnapshotOf(list, rules) && list != []
    ensures IsSnapshotOf(list[1..], rules - {list[0].id})
  {
    forall x | x in list[1..] ensures x.id in rules - {list[0].id} {
      var i :| 0 <= i < |list[1..]| && list[1..][i] == x;
      assert x == list[i + 1] && Before(list[0], list[i + 1]);
      assert x in list;
      if x.id == list[0].id {
        assert list[0] in list;
        BeforeIrreflexive(x);
      }
    }
    forall id | id in rules - {list[0].id} ensures rules[id] in list[1..] {
      assert rules[id] in list && rules[id] != list[0];
    }
  }

  lemma NonEmpty(list: seq<Rule>)
    ensures list != [] ==> exists x :: x in list
  {
    if list != [] {
      assert list[0] in list;
    }
  }

  /** There is only one sorted listing of a rule set. */
  lemma {:induction false} SnapshotUnique(left: seq<Rule>, right: seq<Rule>, rules: RuleMap)
    requires KeyedById(rules) && IsSnapshotOf(left, rules) && IsSnapshotOf(right, rules)
    ensures left == right
    decreases |left|
  {
    if left == [] {
      NonEmpty(right);
    } else {
      assert left[0] in left;
      assert rules[left[0].id] in right;
      assert right[0] in right;
      assert rules[right[0].id] in left;
      if left[0] != right[0] {
        var i :| 0 <= i < |right| && right[i] == left[0];
        var j :| 0 <= j < |left| && left[j] == right[0];
        assert Before(right[0], right[i]) && Before(left[0], left[j]);
        BeforeAsymmetric(left[0], right[0]);
      }
      SnapshotTail(left, rules);
      SnapshotTail(right, rules);
      SnapshotUnique(left[1..], right[1..], rules - {left[0].id});
    }
  }

  // ---- a JavaScript Map: the entries and the order in which keys were first set

  ghost predicate OrderOf(order: seq<string>, rules: RuleMap) {
    && (forall i, j :: 0 <= i < j < |order| ==> order[i] != order[j])
    && (forall id :: id in order <==> id in rules)
  }

  function Values(order: seq<string>, rules: RuleMap): seq<Rule>
    requires OrderOf(order, rules)
  {
    seq(|order|, i requires 0 <= i < |order| => assert order[i] in order; rules[order[i]])
  }

  function OrderWith(order: seq<string>, id: string): seq<string> {
    if id in order then order else order + [id]
  }

  function OrderWithout(order: seq<string>, id: string): seq<string> {
    if order == [] then []
    else if order[0] == id then order[1..]
    else [order[0]] + OrderWithout(order[1..], id)
  }

  lemma {:induction false} OrderWithoutKeeps(order: seq<string>, id: string)
    requires forall i, j :: 0 <= i < j < |order| ==> order[i] != order[j]
    ensures var left := OrderWithout(order, id);
            && (forall i, j :: 0 <= i < j < |left| ==> left[i] != left[j])
            && (forall x :: x in left <==> x in order && x != id)
    decreases |order|
  {
    if order != [] {
      OrderWithoutKeeps(order[1..], id);
      assert forall x :: x in order <==> x == order[0] || x in order[1..];
      if order[0] != id {
        var rest := OrderWithout(order[1..], id);
        forall i | 0 <= i < |rest| ensures rest[i] != order[0] {
          assert rest[i] in rest && rest[i] in order[1..];
          var k :| 0 <= k < |order[1..]| && order[1..][k] == rest[i];
          assert order[k + 1] == rest[i];
        }
        assert OrderWithout(order, id) == [order[0]] + rest;
      }
    }
  }

  /** Sorting the values of the Map gives the snapshot, whatever the insertion order. */
  lemma SortIsSnapshot(order: seq<string>, rules: RuleMap)
    requires OrderOf(order, rules) && KeyedById(rules)
    ensures IsSnapshotOf(SortRules(Values(order, rules)), rules)
  {
    var values := Values(order, rules);
    forall i, j | 0 <= i < j < |values| ensures values[i].id != values[j].id {
      assert order[i] in order && order[j] in order;
    }
    SortSorted(values);
    forall x ensures x in SortRules(values) <==> x in values {
      SortMember(values, x);
    }
    forall id | id in rules ensures rules[id] in values {
      var i :| 0 <= i < |order| && order[i] == id;
      assert values[i] == rules[id];
    }
    forall x | x in values ensures x.id in rules && rules[x.id] == x {
      var i :| 0 <= i < |values| && values[i] == x;
      assert order[i] in order;
    }
  }

  /** Two Maps with the same entries give the same snapshot, however they were filled. */
  lemma InsertionOrderIrrelevant(first: seq<string>, second: seq<string>, rules: RuleMap)
    requires OrderOf(first, rules) && OrderOf(second, rules) && KeyedById(rules)
    ensures SortRules(Values(first, rules)) == SortRules(Values(second, rules))
  {
    SortIsSnapshot(first, rules);
    SortIsSnapshot(second, rules);
    SnapshotUnique(SortRules(Values(first, rules)), SortRules(Values(second, rules)), rules);
  }

  // ---- what the operations do to a rule set

  function Stamped(rule: Rule, timestamp: string): Rule {
    rule.(createdAt := if rule.createdAt != "" then rule.createdAt else timestamp, updatedAt := timestamp)
  }

  /** The rule set after importing a list on top of it. */
  function Imported(rules: RuleMap, list: seq<Rule>, timestamp: string): RuleMap {
    if list == [] then rules
    else
      var last := list[|list| - 1];
      Imported(rules, list[..|list| - 1], timestamp)[last.id := Stamped(last, timestamp)]
  }

  /** The ids of a list that a rule set already holds, in list order. */
  function Replaced(rules: RuleMap, list: seq<Rule>): seq<string> {
    if list == [] then []
    else
      var last := list[|list| - 1];
      Replaced(rules, list[..|list| - 1]) + (if last.id in rules then [last.id] else [])
  }

  /** The rule set once the rules of the given ids have been disabled. */
  function DisabledAmong(rules: RuleMap, ids: seq<string>, timestamp: string): RuleMap {
    map id | id in rules ::
      if id in ids && rules[id].enabled then rules[id].(enabled := false, updatedAt := timestamp) else rules[id]
  }

  function Disabled(rules: RuleMap, timestamp: string): RuleMap {
    map id | id in rules ::
      if rules[id].enabled then rules[id].(enabled := false, updatedAt := timestamp) else rules[id]
  }

  lemma DisabledStep(rules: RuleMap, ids: seq<string>, id: string, timestamp: string)
    requires id in rules && id !in ids
    ensures var before, after := DisabledAmong(rules, ids, timestamp), DisabledAmong(rules, ids + [id], timestamp);
            && before[id] == rules[id]
            && after == if rules[id].enabled
                        then before[id := rules[id].(enabled := false, updatedAt := timestamp)] else before
  {
    var before, after := DisabledAmong(rules, ids, timestamp), DisabledAmong(rules, ids + [id], timestamp);
    var expected := if rules[id].enabled
                    then before[id := rules[id].(enabled := false, updatedAt := timestamp)] else before;
    forall x | x in rules ensures after[x] == expected[x] {
    }
    assert after == expected;
  }

  lemma AllDisabled(rules: RuleMap, ids: seq<string>, timestamp: string)
    requires forall id :: id in rules ==> id in ids
    ensures DisabledAmong(rules, ids, timestamp) == Disabled(rules, timestamp)
  {
  }

  lemma DisabledDiffers(rules: RuleMap, id: string, timestamp: string)
    requires id in rules && rules[id].enabled
    ensures Disabled(rules, timestamp) != rules
  {
    assert Disabled(rules, timestamp)[id] != rules[id];
  }

  lemma {:induction false} ImportedKeyed(rules: RuleMap, list: seq<Rule>, timestamp: string)
    requires KeyedById(rules)
    ensures KeyedById(Imported(rules, list, timestamp))
    ensures forall id :: id in Imported(rules, list, timestamp) <==>
              id in rules || exists i :: 0 <= i < |list| && list[i].id == id
    decreases |list|
  {
    if list != [] {
      var last, front := list[|list| - 1], list[..|list| - 1];
      ImportedKeyed(rules, front, timestamp);
      forall id ensures id in Imported(rules, list, timestamp) <==>
                        id in rules || exists i :: 0 <= i < |list| && list[i].id == id
      {
        if exists i :: 0 <= i < |list| && list[i].id == id {
          var i :| 0 <= i < |list| && list[i].id == id;
          assert i < |list| - 1 ==> front[i].id == id;
        }
        if exists i :: 0 <= i < |front| && front[i].id == id {
          var i :| 0 <= i < |front| && front[i].id == id;
          assert list[i].id == id;
        }
      }
    }
  }

  lemma DisabledKeeps(rules: RuleMap, timestamp: string)
    requires KeyedById(rules)
    ensures KeyedById(Disabled(rules, timestamp)) && Disabled(rules, timestamp).Keys == rules.Keys
  {
  }

  /** With distinct ids, an imported rule replaces only what was there before the import. */
  lemma ReplacesOnlyOld(rules: RuleMap, list: seq<Rule>, i: nat, timestamp: string)
    requires KeyedById(rules) && DistinctIds(list) && i < |list|
    ensures KeyedById(Imported(rules, list[..i], timestamp))
    ensures list[i].id in Imported(rules, list[..i], timestamp) <==> list[i].id in rules
    ensures Imported(rules, list[..i + 1], timestamp)
            == Imported(rules, list[..i], timestamp)[list[i].id := Stamped(list[i], timestamp)]
    ensures Replaced(rules, list[..i + 1])
            == Replaced(rules, list[..i]) + (if list[i].id in rules then [list[i].id] else [])
  {
    assert list[..i + 1][..i] == list[..i];
    ImportedKeyed(rules, list[..i], timestamp);
    assert !exists j :: 0 <= j < |list[..i]| && list[..i][j].id == list[i].id;
  }

  function RevisionError(expectedRevision: Option<int>, revision: nat): Option<StoreError> {
    if expectedRevision.Some? && expectedRevision.value != revision then
      Some(RevisionConflict(expectedRevision.value, revision))
    else None
  }

  /** `changed` records the calls of the `onRuleChanged` callback. */
  class RuleStore {
    var rules: RuleMap
    var order: seq<string>
    var revisionValue: nat
    var cachedSnapshot: Option<RuleSetSnapshot>
    var changed: seq<string>

    ghost predicate Valid()
      reads this
    {
      && KeyedById(rules)
      && OrderOf(order, rules)
      && (cachedSnapshot.Some? ==>
            cachedSnapshot.value.revision == revisionValue && IsSnapshotOf(cachedSnapshot.value.rules, rules))
    }

    constructor ()
      ensures Valid() && rules == map[] && revisionValue == 1 && changed == []
    {
      rules := map[];
      order := [];
      revisionValue := 1;
      cachedSnapshot := None;
      changed := [];
    }

    method Bump()
      modifies this`revisionValue, this`cachedSnapshot
      ensures revisionValue == old(revisionValue) + 1 && cachedSnapshot == None
    {
      revisionValue := revisionValue + 1;
      cachedSnapshot := None;
    }

    /** The error an outdated `expectedRevision` is answered with. */
    method CheckRevision(expectedRevision: Option<int>) returns (error: Option<StoreError>)
      ensures error == RevisionError(expectedRevision, revisionValue)
    {
      if expectedRevision.Some? && expectedRevision.value != revisionValue {
        return Some(RevisionConflict(expectedRevision.value, revisionValue));
      }
      return None;
    }

    /** `Map.set`. */
    method Put(id: string, rule: Rule)
      requires OrderOf(order, rules)
      modifies this`rules, this`order
      ensures rules == old(rules)[id := rule] && OrderOf(order, rules)
    {
      order := OrderWith(order, id);
      rules := rules[id := rule];
    }

    method Create(rule: Rule, timestamp: string) returns (r: Result<Rule, StoreError>)
      requires Valid()
      modifies this
      ensures Valid() && changed == old(changed)
      ensures rule.id in old(rules) ==>
                r == Err(DuplicateRuleId(rule.id)) && rules == old(rules) && revisionValue == old(revisionValue)
      ensures rule.id !in old(rules) ==>
                && r == Ok(Stamped(rule, timestamp))
                && rules == old(rules)[rule.id := r.value]
                && revisionValue == old(revisionValue) + 1
    {
      if rule.id in rules {
        return Err(DuplicateRuleId(rule.id));
      }
      var stored := rule.(createdAt := if rule.createdAt != "" then rule.createdAt else timestamp);
      stored := stored.(updatedAt := timestamp);
      Put(stored.id, stored);
      Bump();
      return Ok(stored);
    }

    method Update(id: string, rule: Rule, expectedRevision: Option<int>, timestamp: string)
      returns (r: Result<Rule, StoreError>)
      requires Valid()
      modifies this
      ensures Valid()
      ensures r.Err? <==> RevisionError(expectedRevision, old(revisionValue)).Some? || id !in old(rules)
      ensures r.Err? ==> r.error == GetOr(RevisionError(expectedRevision, old(revisionValue)), RuleNotFound(id))
      ensures r.Err? ==> rules == old(rules) && revisionValue == old(revisionValue) && changed == old(changed)
      ensures r.Ok? ==>
                && r.value == rule.(id := id, createdAt := old(rules)[id].createdAt, updatedAt := timestamp)
                && rules == old(rules)[id := r.value]
                && revisionValue == old(revisionValue) + 1
                && changed == old(changed) + [id]
    {
      var error := CheckRevision(expectedRevision);
      if error.Some? {
        return Err(error.value);
      }
      if id !in rules {
        return Err(RuleNotFound(id));
      }
      var stored := rule.(id := id, createdAt := rules[id].createdAt, updatedAt := timestamp);
      Put(id, stored);
      Bump();
      changed := changed + [id];
      return Ok(stored);
    }

    method Delete(id: string, expectedRevision: Option<int>) returns (error: Option<StoreError>)
      requires Valid()
      modifies this
      ensures Valid()
      ensures error.Some? <==>
              RevisionError(expectedRevision, old(revisionValue)).Some? || id !in old(rules)
      ensures error.Some? ==> error.value == GetOr(RevisionError(expectedRevision, old(revisionValue)), RuleNotFound(id))
      ensures error.Some? ==> rules == old(rules) && revisionValue == old(revisionValue) && changed == old(changed)
      ensures error.None? ==>
                && rules == old(rules) - {id}
                && revisionValue == old(revisionValue) + 1
                && changed == old(changed) + [id]
    {
      error := CheckRevision(expectedRevision);
      if error.Some? {
        return;
      }
      if id !in rules {
        return Some(RuleNotFound(id));
      }
      OrderWithoutKeeps(order, id);
      order := OrderWithout(order, id);
      rules := rules - {id};
      Bump();
      changed := changed + [id];
    }

    /** Counters survive: no callback. The revision moves only when a rule did. */
    method DisableAll(expectedRevision: Option<int>, timestamp: string) returns (r: Result<nat, StoreError>)
      requires Valid()
      modifies this
      ensures Valid() && changed == old(changed)
      ensures r.Err? <==> RevisionError(expectedRevision, old(revisionValue)).Some?
      ensures r.Err? ==> Some(r.error) == RevisionError(expectedRevision, old(revisionValue))
      ensures r.Err? ==> rules == old(rules) && revisionValue == old(revisionValue)
      ensures r.Ok? ==> rules == Disabled(old(rules), timestamp)
      ensures r.Ok? ==> (rules == old(rules) <==> r.value == 0)
      ensures r.Ok? ==> revisionValue == old(revisionValue) + (if rules == old(rules) then 0 else 1)
    {
      var error := CheckRevision(expectedRevision);
      if error.Some? {
        return Err(error.value);
      }
      DisabledKeeps(rules, timestamp);
      var count := DisableEach(timestamp);
      if count > 0 {
        Bump();
      }
      return Ok(count);
    }

    /** One turn of the loop of `disableAll`. */
    method DisableNext(ghost before: RuleMap, i: nat, timestamp: string) returns (wasEnabled: bool)
      requires OrderOf(order, before) && i < |order| && rules == DisabledAmong(before, order[..i], timestamp)
      modifies this`rules
      ensures rules == DisabledAmong(before, order[..i + 1], timestamp)
      ensures order[i] in before && wasEnabled == before[order[i]].enabled
      ensures !wasEnabled ==> rules == old(rules)
    {
      var id := order[i];
      assert id in order;
      assert id !in order[..i] by {
        assert forall j :: 0 <= j < i ==> order[j] != id;
      }
      assert order[..i + 1] == order[..i] + [id];
      DisabledStep(before, order[..i], id, timestamp);
      wasEnabled := rules[id].enabled;
      if wasEnabled {
        rules := rules[id := rules[id].(enabled := false, updatedAt := timestamp)];
      }
    }

    /** The loop of `disableAll`; counts the rules that were still enabled. */
    method DisableEach(timestamp: string) returns (count: nat)
      requires KeyedById(rules) && OrderOf(order, rules)
      modifies this`rules
      ensures rules == Disabled(old(rules), timestamp)
      ensures rules == old(rules) <==> count == 0
    {
      count := 0;
      ghost var before, flipped := rules, "";
      for i := 0 to |order|
        invariant rules == DisabledAmong(before, order[..i], timestamp)
        invariant count == 0 ==> rules == before
        invariant count > 0 ==> flipped in before && before[flipped].enabled
      {
        var wasEnabled := DisableNext(before, i, timestamp);
        if wasEnabled {
          flipped := order[i];
          count := count + 1;
        }
      }
      assert order[..|order|] == order;
      AllDisabled(before, order, timestamp);
      if count > 0 {
        DisabledDiffers(before, flipped, timestamp);
      }
    }

    /**
     * Atomic import: nothing changes on an error, and every id whose rule is
     * replaced or dropped is reported.
     */
    method ImportRules(list: seq<Rule>, mode: ImportMode, expectedRevision: Option<int>, timestamp: string)
      returns (error: Option<StoreError>)
      requires Valid()
      modifies this
      ensures Valid()
      ensures error.Some? <==>
              RevisionError(expectedRevision, old(revisionValue)).Some? || !DistinctIds(list)
      ensures error.Some? ==> error == RevisionError(expectedRevision, old(revisionValue))
                              || (RevisionError(expectedRevision, old(revisionValue)).None? && error.value.DuplicateRuleId?)
      ensures error.Some? ==> rules == old(rules) && revisionValue == old(revisionValue) && changed == old(changed)
      ensures error.None? ==>
                && revisionValue == old(revisionValue) + 1
                && rules == Imported(if mode == Replace then map[] else old(rules), list, timestamp)
                && changed == old(changed) + if mode == Replace then old(order) else Replaced(old(rules), list)
    {
      error := CheckRevision(expectedRevision);
      if error.Some? {
        return;
      }
      error := FindDuplicate(list);
      if error.Some? {
        return;
      }
      if mode == Replace {
        changed := changed + order;
        rules := map[];
        order := [];
        NothingReplaced(list);
      }
      PutAll(list, timestamp);
      Bump();
    }

    method FindDuplicate(list: seq<Rule>) returns (error: Option<StoreError>)
      ensures error.None? <==> DistinctIds(list)
      ensures error.Some? ==> error.value.DuplicateRuleId?
    {
      var seen: set<string> := {};
      for i := 0 to |list|
        invariant seen == set j | 0 <= j < i :: list[j].id
        invariant DistinctIds(list[..i])
      {
        assert list[..i + 1][..i] == list[..i];
        if list[i].id in seen {
          return Some(DuplicateRuleId(list[i].id));
        }
        seen := seen + {list[i].id};
      }
      assert list[..|list|] == list;
      return None;
    }

    method PutNext(ghost base: RuleMap, list: seq<Rule>, i: nat, timestamp: string, ghost reported: seq<string>)
      requires KeyedById(base) && DistinctIds(list) && i < |list| && OrderOf(order, rules)
      requires rules == Imported(base, list[..i], timestamp) && changed == reported + Replaced(base, list[..i])
      modifies this`rules, this`order, this`changed
      ensures OrderOf(order, rules) && rules == Imported(base, list[..i + 1], timestamp)
      ensures changed == reported + Replaced(base, list[..i + 1])
    {
      var rule := list[i];
      ReplacesOnlyOld(base, list, i, timestamp);
      if rule.id in rules {
        changed := changed + [rule.id];
      }
      var stored := rule.(createdAt := if rule.createdAt != "" then rule.createdAt else timestamp);
      Put(rule.id, stored.(updatedAt := timestamp));
    }

    /** The loop of `importRules`. */
    method PutAll(list: seq<Rule>, timestamp: string)
      requires KeyedById(rules) && OrderOf(order, rules) && DistinctIds(list)
      modifies this`rules, this`order, this`changed
      ensures KeyedById(rules) && OrderOf(order, rules)
      ensures rules == Imported(old(rules), list, timestamp)
      ensures changed == old(changed) + Replaced(old(rules), list)
    {
      ghost var base := rules;
      for i := 0 to |list|
        invariant OrderOf(order, rules)
        invariant rules == Imported(base, list[..i], timestamp)
        invariant changed == old(changed) + Replaced(base, list[..i])
      {
        PutNext(base, list, i, timestamp, old(changed));
      }
      assert list[..|list|] == list;
      ImportedKeyed(base, list, timestamp);
    }

    /** Sorted once per revision, then served from the cache. */
    method Snapshot() returns (snapshot: RuleSetSnapshot)
      requires Valid()
      modifies this`cachedSnapshot
      ensures Valid() && cachedSnapshot == Some(snapshot)
      ensures snapshot.revision == revisionValue && IsSnapshotOf(snapshot.rules, rules)
    {
      if cachedSnapshot.None? {
        SortIsSnapshot(order, rules);
        cachedSnapshot := Some(RuleSetSnapshot(revisionValue, SortRules(Values(order, rules))));
      }
      return cachedSnapshot.value;
    }
  }

  lemma NothingReplaced(list: seq<Rule>)
    ensures Replaced(map[], list) == []
  {
  }
}
