/** Export and import of the rule set (src/admin/rules-api.ts). */
module RulesApi {
  import opened Common
  import opened JsonModel
  import opened RuleTypes
  import opened RuleJson
  import opened Validate
  import opened NormalRules
  import opened Store
  import RuleValidator

  datatype ApiError = ApiError(status: int, code: string)

  /** `mapStoreError`. */
  function ApiErrorOf(error: StoreError): ApiError {
    match error
    case RevisionConflict(_, _) => ApiError(409, "revision_conflict")
    case DuplicateRuleId(_) => ApiError(400, "duplicate_rule_id")
    case RuleNotFound(_) => ApiError(404, "rule_not_found")
  }

  predicate Outdated(expectedRevision: Option<int>, revision: nat) {
    RevisionError(expectedRevision, revision).Some?
  }

  // ---- rules that came through validation

  /** A rule as the store keeps it: normal, with the time of its creation. */
  predicate Kept(rule: Rule, opts: Options) {
    Normal(rule, opts) && rule.createdAt != ""
  }

  predicate AllKept(rules: RuleMap, opts: Options) {
    KeyedById(rules) && forall id <- rules :: Kept(rules[id], opts)
  }

  /** The clock writes dates that `Date.parse` understands. */
  predicate ClockTime(timestamp: string, opts: Options) {
    timestamp != "" && opts.dateOk(timestamp)
  }

  lemma StampedKept(rule: Rule, timestamp: string, opts: Options)
    requires Normal(rule, opts) && ClockTime(timestamp, opts)
    ensures Kept(Stamped(rule, timestamp), opts)
  {
  }

  /** Every way to change the store keeps its rules normal, given that validation let the new ones through. */
  lemma ChangesKeepNormal(rules: RuleMap, rule: Rule, id: string, timestamp: string, opts: Options)
    requires AllKept(rules, opts) && Normal(rule, opts) && ClockTime(timestamp, opts)
    ensures AllKept(rules[rule.id := Stamped(rule, timestamp)], opts)
    ensures id in rules ==>
              AllKept(rules[id := rule.(id := id, createdAt := rules[id].createdAt, updatedAt := timestamp)], opts)
    ensures AllKept(rules - {id}, opts)
    ensures AllKept(Disabled(rules, timestamp), opts)
  {
    StampedKept(rule, timestamp, opts);
    if id in rules {
      var updated := rule.(id := id, createdAt := rules[id].createdAt, updatedAt := timestamp);
      assert Kept(rules[id], opts);
      assert Normal(updated, opts);
    }
  }

  lemma {:induction false} ImportKeepsNormal(rules: RuleMap, list: seq<Rule>, timestamp: string, opts: Options)
    requires AllKept(rules, opts) && ClockTime(timestamp, opts) && forall r <- list :: Normal(r, opts)
    ensures AllKept(Imported(rules, list, timestamp), opts)
    decreases |list|
  {
    if list != [] {
      var last := list[|list| - 1];
      ImportKeepsNormal(rules, list[..|list| - 1], timestamp, opts);
      StampedKept(last, timestamp, opts);
    }
  }

  // ---- export

  function Jsons(rules: seq<Rule>): seq<Json> {
    seq(|rules|, i requires 0 <= i < |rules| => ToJson(rules[i]))
  }

  function ExportDocument(rules: seq<Rule>, exportedAt: string): Json {
    Obj(map["formatVersion" := Number(1.0), "exportedAt" := Str(exportedAt), "rules" := Arr(Jsons(rules))])
  }

  function Chosen(rules: seq<Rule>, ids: Option<seq<string>>): seq<Rule> {
    if rules == [] then []
    else (if ids.None? || rules[0].id in ids.value then [rules[0]] else []) + Chosen(rules[1..], ids)
  }

  lemma {:induction false} ChosenAll(rules: seq<Rule>)
    ensures Chosen(rules, None) == rules
    decreases |rules|
  {
    if rules != [] {
      ChosenAll(rules[1..]);
    }
  }

  predicate NamesIds(body: Json) {
    body.Obj? && "ids" in body.fields
  }

  predicate IdsWellFormed(body: Json)
    requires NamesIds(body)
  {
    var ids := body.fields["ids"];
    ids.Arr? && forall i :: 0 <= i < |ids.items| ==> ids.items[i].Str?
  }

  function IdsOf(body: Json): Option<seq<string>>
    requires NamesIds(body) ==> IdsWellFormed(body)
  {
    if !NamesIds(body) then None
    else
      var items := body.fields["ids"].items;
      Some(seq(|items|, i requires 0 <= i < |items| => items[i].s))
  }

  /** Without `ids` the whole rule set in snapshot order; with them those rules, if they all exist. */
  method ExportRules(store: RuleStore, body: Json, exportedAt: string) returns (r: Result<Json, ApiError>)
    requires store.Valid()
    modifies store`cachedSnapshot
    ensures store.Valid() && store.cachedSnapshot.Some?
    ensures NamesIds(body) && !IdsWellFormed(body) ==> r == Err(ApiError(400, "invalid_export"))
    ensures (NamesIds(body) ==> IdsWellFormed(body)) ==>
              var list := store.cachedSnapshot.value.rules;
              r == if IdsOf(body).Some? && exists id <- IdsOf(body).value :: id !in store.rules
                   then Err(ApiError(404, "rule_not_found"))
                   else Ok(ExportDocument(Chosen(list, IdsOf(body)), exportedAt))
  {
    var snapshot := store.Snapshot();
    if NamesIds(body) && !IdsWellFormed(body) {
      return Err(ApiError(400, "invalid_export"));
    }
    var ids := IdsOf(body);
    var rules := Chosen(snapshot.rules, ids);
    if ids.Some? {
      var allThere := AllFound(rules, ids.value, snapshot.rules, store.rules);
      if !allThere {
        return Err(ApiError(404, "rule_not_found"));
      }
    }
    return Ok(ExportDocument(rules, exportedAt));
  }

  /** Whether every id asked for was found among the chosen rules. */
  method AllFound(chosen: seq<Rule>, ids: seq<string>, ghost list: seq<Rule>, ghost rules: RuleMap) returns (all: bool)
    requires IsSnapshotOf(list, rules) && KeyedById(rules) && chosen == Chosen(list, Some(ids))
    ensures all <==> forall id <- ids :: id in rules
  {
    for i := 0 to |ids|
      invariant forall j :: 0 <= j < i ==> ids[j] in rules
    {
      ChosenHas(list, ids, rules, ids[i]);
      if forall k :: 0 <= k < |chosen| ==> chosen[k].id != ids[i] {
        return false;
      }
    }
    return true;
  }

  lemma {:induction false} ChosenMember(rules: seq<Rule>, ids: seq<string>, x: Rule)
    ensures x in Chosen(rules, Some(ids)) <==> x in rules && x.id in ids
    decreases |rules|
  {
    if rules != [] {
      ChosenMember(rules[1..], ids, x);
    }
  }

  lemma ChosenHas(list: seq<Rule>, ids: seq<string>, rules: RuleMap, id: string)
    requires IsSnapshotOf(list, rules) && KeyedById(rules) && id in ids
    ensures id in rules <==> exists k :: 0 <= k < |Chosen(list, Some(ids))| && Chosen(list, Some(ids))[k].id == id
  {
    var chosen := Chosen(list, Some(ids));
    if id in rules {
      ChosenMember(list, ids, rules[id]);
      var k :| 0 <= k < |chosen| && chosen[k] == rules[id];
    }
    forall k | 0 <= k < |chosen| && chosen[k].id == id
      ensures id in rules
    {
      ChosenMember(list, ids, chosen[k]);
    }
  }

  // ---- import

  /** The rules of a list of documents, and whether every one of them was accepted. */
  function Validated(documents: seq<Json>, opts: Options, freshIds: nat -> string): (seq<Rule>, bool) {
    if documents == [] then ([], true)
    else
      var n := |documents| - 1;
      Joined(Validated(documents[..n], opts, freshIds), ValidateRule(documents[n], opts, freshIds(n)).value)
  }

  function Joined(before: (seq<Rule>, bool), last: Option<Rule>): (seq<Rule>, bool) {
    if last.Some? then (before.0 + [last.value], before.1) else (before.0, false)
  }

  /** A revision that is not an integer conflicts with every revision. */
  function RevisionOf(n: real): int {
    if n.Floor as real == n then n.Floor else -1
  }

  function ModeOf(body: Json): Option<ImportMode>
    requires body.Obj?
  {
    var mode := OrDefault(body, "mode", Str("merge"));
    if mode == Str("merge") then Some(Merge) else if mode == Str("replace") then Some(Replace) else None
  }

  predicate ImportWellFormed(body: Json) {
    && body.Obj? && ModeOf(body).Some?
    && ("expectedRevision" in body.fields ==> body.fields["expectedRevision"].Number?)
    && "rules" in body.fields && body.fields["rules"].Arr?
  }

  function ExpectedOf(body: Json): Option<int>
    requires ImportWellFormed(body)
  {
    if "expectedRevision" in body.fields then Some(RevisionOf(body.fields["expectedRevision"].n)) else None
  }

  /** The import goes through: well-formed, all rules valid, the revision as expected, no id twice. */
  predicate Importable(body: Json, revision: nat, opts: Options, freshIds: nat -> string) {
    && ImportWellFormed(body)
    && !Outdated(ExpectedOf(body), revision)
    && Validated(body.fields["rules"].items, opts, freshIds).1
    && DistinctIds(Validated(body.fields["rules"].items, opts, freshIds).0)
  }

  /** The first thing that is wrong with an import. */
  function ImportError(body: Json, revision: nat, opts: Options, freshIds: nat -> string): ApiError {
    if !ImportWellFormed(body) then ApiError(400, "invalid_import")
    else if !Validated(body.fields["rules"].items, opts, freshIds).1 then ApiError(400, "rule_validation_failed")
    else if Outdated(ExpectedOf(body), revision) then ApiError(409, "revision_conflict")
    else ApiError(400, "duplicate_rule_id")
  }

  /** What the answer to a successful import says. */
  datatype ImportAnswer = ImportAnswer(imported: nat, warnings: seq<(nat, seq<Issue>)>)

  function RuleWarnings(rule: Rule, opts: Options): seq<Issue> {
    RuleValidator.WarningsOf(Some(rule.match_), rule.request, rule.response, rule.protocol, opts)
  }

  /** The warnings of the rules that have any, with the rule's position. */
  function AllWarnings(rules: seq<Rule>, opts: Options): seq<(nat, seq<Issue>)> {
    if rules == [] then []
    else
      var n := |rules| - 1;
      AllWarnings(rules[..n], opts)
      + (if RuleWarnings(rules[n], opts) == [] then [] else [(n, RuleWarnings(rules[n], opts))])
  }

  /** Everything is validated before the store is touched; a rejected import changes nothing. */
  method ImportRules(
    store: RuleStore, body: Json, opts: Options, freshIds: nat -> string, timestamp: string)
    returns (r: Result<ImportAnswer, ApiError>)
    requires store.Valid()
    modifies store
    ensures store.Valid()
    ensures r.Ok? <==> Importable(body, old(store.revisionValue), opts, freshIds)
    ensures r.Err? ==>
              && r.error == ImportError(body, old(store.revisionValue), opts, freshIds)
              && store.rules == old(store.rules) && store.revisionValue == old(store.revisionValue)
              && store.changed == old(store.changed)
    ensures r.Ok? ==>
              && store.revisionValue == old(store.revisionValue) + 1
              && r.value.imported == |body.fields["rules"].items|
              && r.value.warnings == AllWarnings(Validated(body.fields["rules"].items, opts, freshIds).0, opts)
              && store.rules == Imported(if ModeOf(body) == Some(Replace) then map[] else old(store.rules),
                                         Validated(body.fields["rules"].items, opts, freshIds).0, timestamp)
  {
    if !body.Obj? {
      return Err(ApiError(400, "invalid_import"));
    }
    var mode := ModeOf(body);
    if mode.None? {
      return Err(ApiError(400, "invalid_import"));
    }
    if "expectedRevision" in body.fields && !body.fields["expectedRevision"].Number? {
      return Err(ApiError(400, "invalid_import"));
    }
    if "rules" !in body.fields || !body.fields["rules"].Arr? {
      return Err(ApiError(400, "invalid_import"));
    }
    var documents := body.fields["rules"].items;
    var validated, warnings, allOk := ValidateAll(documents, opts, freshIds);
    if !allOk {
      return Err(ApiError(400, "rule_validation_failed"));
    }
    var error := store.ImportRules(validated, mode.value, ExpectedOf(body), timestamp);
    if error.Some? {
      return Err(ApiErrorOf(error.value));
    }
    return Ok(ImportAnswer(|validated|, warnings));
  }

  method ValidateOne(document: Json, opts: Options, freshId: string)
    returns (rule: Option<Rule>, warnings: seq<Issue>)
    ensures rule == ValidateRule(document, opts, freshId).value
    ensures rule.Some? ==> warnings == RuleWarnings(rule.value, opts)
  {
    var issues;
    rule, issues := RuleValidator.Run(document, opts, freshId);
    warnings := issues.warnings;
  }

  lemma WarningsAppend(rules: seq<Rule>, r: Rule, opts: Options)
    ensures AllWarnings(rules + [r], opts)
            == AllWarnings(rules, opts)
               + (if RuleWarnings(r, opts) == [] then [] else [(|rules|, RuleWarnings(r, opts))])
  {
    assert (rules + [r])[..|rules|] == rules;
  }

  /** One result on top of those so far. */
  method AddResult(
    rule: Option<Rule>, found: seq<Issue>, sofar: seq<Rule>, noted: seq<(nat, seq<Issue>)>, ok: bool, opts: Options)
    returns (validated: seq<Rule>, warnings: seq<(nat, seq<Issue>)>, allOk: bool)
    requires rule.Some? ==> found == RuleWarnings(rule.value, opts)
    requires ok ==> noted == AllWarnings(sofar, opts)
    ensures (validated, allOk) == Joined((sofar, ok), rule)
    ensures allOk ==> |validated| == |sofar| + 1 && warnings == AllWarnings(validated, opts)
  {
    validated, warnings, allOk := sofar, noted, ok;
    if rule.None? {
      allOk := false;
      return;
    }
    WarningsAppend(sofar, rule.value, opts);
    validated := validated + [rule.value];
    if found != [] {
      warnings := warnings + [(|sofar|, found)];
    }
  }

  /** The loop over the documents; every one is validated even after an error. */
  method ValidateAll(documents: seq<Json>, opts: Options, freshIds: nat -> string)
    returns (validated: seq<Rule>, warnings: seq<(nat, seq<Issue>)>, allOk: bool)
    ensures (validated, allOk) == Validated(documents, opts, freshIds)
    ensures allOk ==> |validated| == |documents| && warnings == AllWarnings(validated, opts)
  {
    validated, warnings, allOk := [], [], true;
    for i := 0 to |documents|
      invariant (validated, allOk) == Validated(documents[..i], opts, freshIds)
      invariant allOk ==> |validated| == i && warnings == AllWarnings(validated, opts)
    {
      validated, warnings, allOk := ValidateNext(documents, i, opts, freshIds, validated, warnings, allOk);
    }
    assert documents[..|documents|] == documents;
  }

  method ValidateNext(
    documents: seq<Json>, i: nat, opts: Options, freshIds: nat -> string,
    sofar: seq<Rule>, noted: seq<(nat, seq<Issue>)>, ok: bool)
    returns (validated: seq<Rule>, warnings: seq<(nat, seq<Issue>)>, allOk: bool)
    requires i < |documents| && (sofar, ok) == Validated(documents[..i], opts, freshIds)
    requires ok ==> |sofar| == i && noted == AllWarnings(sofar, opts)
    ensures (validated, allOk) == Validated(documents[..i + 1], opts, freshIds)
    ensures allOk ==> |validated| == i + 1 && warnings == AllWarnings(validated, opts)
  {
    var rule, found := ValidateOne(documents[i], opts, freshIds(i));
    ValidatedNext(documents, i, opts, freshIds, rule);
    validated, warnings, allOk := AddResult(rule, found, sofar, noted, ok, opts);
  }

  lemma ValidatedNext(documents: seq<Json>, i: nat, opts: Options, freshIds: nat -> string, rule: Option<Rule>)
    requires i < |documents| && rule == ValidateRule(documents[i], opts, freshIds(i)).value
    ensures Validated(documents[..i + 1], opts, freshIds) == Joined(Validated(documents[..i], opts, freshIds), rule)
  {
    assert documents[..i + 1][..i] == documents[..i];
  }

  // ---- the round trip

  lemma ValidatedAppend(documents: seq<Json>, last: Json, opts: Options, freshIds: nat -> string)
    ensures Validated(documents + [last], opts, freshIds)
            == Joined(Validated(documents, opts, freshIds), ValidateRule(last, opts, freshIds(|documents|)).value)
  {
    assert (documents + [last])[..|documents|] == documents;
  }

  lemma OneMore(documents: seq<Json>, rules: seq<Rule>, r: Rule, opts: Options, freshIds: nat -> string)
    requires Normal(r, opts) && Validated(documents, opts, freshIds) == (rules, true)
    ensures Validated(documents + [ToJson(r)], opts, freshIds) == (rules + [r], true)
  {
    ValidatedAppend(documents, ToJson(r), opts, freshIds);
    NormalReadsBack(r, opts, freshIds(|documents|));
  }

  lemma JsonsSplit(list: seq<Rule>)
    requires list != []
    ensures var n := |list| - 1;
            Jsons(list) == Jsons(list[..n]) + [ToJson(list[n])] && list == list[..n] + [list[n]]
  {
  }

  lemma {:induction false} ExportedValidates(
    list: seq<Rule>, documents: seq<Json>, opts: Options, freshIds: nat -> string)
    requires documents == Jsons(list) && forall r <- list :: Normal(r, opts)
    ensures Validated(documents, opts, freshIds) == (list, true)
    decreases |list|
  {
    if list == [] {
      assert documents == [];
    } else {
      var n := |list| - 1;
      var front, back, last := Jsons(list[..n]), list[..n], list[n];
      JsonsSplit(list);
      assert last in list;
      ExportedValidates(back, front, opts, freshIds);
      OneMore(front, back, last, opts, freshIds);
    }
  }

  /** The same rules with another time of the last change. */
  function Touched(list: seq<Rule>, timestamp: string): seq<Rule> {
    seq(|list|, i requires 0 <= i < |list| => list[i].(updatedAt := timestamp))
  }

  lemma SortedIsDistinct(list: seq<Rule>, rules: RuleMap)
    requires IsSnapshotOf(list, rules)
    ensures DistinctIds(list)
  {
    forall i, j | 0 <= i < j < |list|
      ensures list[i].id != list[j].id
    {
      assert list[i] in list && list[j] in list;
      assert Before(list[i], list[j]);
      if list[i].id == list[j].id {
        BeforeIrreflexive(list[i]);
      }
    }
  }

  /** Importing a list of distinct rules into an empty store gives the list, stamped, by id. */
  lemma {:induction false} ImportedExactly(list: seq<Rule>, timestamp: string, id: string)
    requires DistinctIds(list) && forall r <- list :: r.createdAt != ""
    ensures id in Imported(map[], list, timestamp) ==>
              exists i :: 0 <= i < |list| && list[i].id == id
                          && Imported(map[], list, timestamp)[id] == Touched(list, timestamp)[i]
    ensures forall i :: 0 <= i < |list| ==>
              list[i].id in Imported(map[], list, timestamp)
              && Imported(map[], list, timestamp)[list[i].id] == Touched(list, timestamp)[i]
    decreases |list|
  {
    if list != [] {
      var n := |list| - 1;
      ImportedExactly(list[..n], timestamp, id);
      assert Touched(list, timestamp)[..n] == Touched(list[..n], timestamp);
      assert list[n] in list;
    }
  }

  /** Touching does not disturb the order: the comparator does not look at `updatedAt`. */
  lemma TouchedIsSnapshot(list: seq<Rule>, rules: RuleMap, timestamp: string)
    requires KeyedById(rules) && IsSnapshotOf(list, rules) && forall r <- list :: r.createdAt != ""
    ensures IsSnapshotOf(Touched(list, timestamp), Imported(map[], list, timestamp))
  {
    SortedIsDistinct(list, rules);
    var touched, imported := Touched(list, timestamp), Imported(map[], list, timestamp);
    forall i, j | 0 <= i < j < |touched|
      ensures Before(touched[i], touched[j])
    {
      assert Before(list[i], list[j]);
    }
    forall x | x in touched
      ensures x.id in imported && imported[x.id] == x
    {
      var i :| 0 <= i < |touched| && touched[i] == x;
      ImportedExactly(list, timestamp, list[i].id);
    }
    forall id | id in imported
      ensures imported[id] in touched
    {
      ImportedExactly(list, timestamp, id);
    }
  }

  /** The document an import of an export sends. */
  function ReplaceBody(list: seq<Rule>): Json {
    Obj(map["mode" := Str("replace"), "rules" := Arr(Jsons(list))])
  }

  /** The rules of an export are accepted as they are. */
  lemma ReplaceBodyImportable(list: seq<Rule>, revision: nat, opts: Options, freshIds: nat -> string)
    requires DistinctIds(list) && forall r <- list :: Normal(r, opts)
    ensures Importable(ReplaceBody(list), revision, opts, freshIds)
    ensures ModeOf(ReplaceBody(list)) == Some(Replace)
    ensures Validated(ReplaceBody(list).fields["rules"].items, opts, freshIds).0 == list
  {
    var body := ReplaceBody(list);
    ExportedValidates(list, Jsons(list), opts, freshIds);
    assert body.fields["rules"].items == Jsons(list) && "expectedRevision" !in body.fields;
    assert body.fields["mode"] == Str("replace");
  }

  /** Imports an export in replace mode. */
  method ImportExport(
    target: RuleStore, list: seq<Rule>, opts: Options, freshIds: nat -> string, timestamp: string)
    requires target.Valid() && DistinctIds(list) && forall r <- list :: Normal(r, opts)
    modifies target
    ensures target.Valid() && target.rules == Imported(map[], list, timestamp)
  {
    ReplaceBodyImportable(list, target.revisionValue, opts, freshIds);
    var imported := ImportRules(target, ReplaceBody(list), opts, freshIds, timestamp);
    assert imported.Ok?;
  }

  /**
   * Exporting a store and importing the result into any store in replace mode
   * gives the same rules in the same order, but for the time of the last change.
   */
  method RoundTrip(
    source: RuleStore, target: RuleStore, opts: Options, freshIds: nat -> string, exportedAt: string, timestamp: string)
    returns (before: seq<Rule>, after: seq<Rule>)
    requires source.Valid() && target.Valid() && AllKept(source.rules, opts)
    modifies source`cachedSnapshot, target
    ensures target.Valid()
    ensures IsSnapshotOf(before, old(source.rules)) && IsSnapshotOf(after, target.rules)
    ensures after == Touched(before, timestamp)
  {
    var exported := ExportRules(source, Obj(map[]), exportedAt);
    before := source.cachedSnapshot.value.rules;
    ghost var rules := source.rules;
    ChosenAll(before);
    assert exported == Ok(ExportDocument(before, exportedAt));
    assert forall r <- before :: Kept(r, opts);
    SortedIsDistinct(before, rules);
    TouchedIsSnapshot(before, rules, timestamp);
    ImportExport(target, before, opts, freshIds, timestamp);
    var snapshot := target.Snapshot();
    after := snapshot.rules;
    ImportedKeyed(map[], before, timestamp);
    SnapshotUnique(after, Touched(before, timestamp), target.rules);
  }
}
