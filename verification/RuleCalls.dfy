/**
 * The operations of the admin API that change rules (src/admin/rules-api.ts),
 * and what any sequence of them makes of a rule store.
 */
module RuleCalls {
  import opened Common
  import opened JsonModel
  import opened RuleTypes
  import opened RuleJson
  import opened Validate
  import opened NormalRules
  import opened Store
  import opened RulesApi

  datatype Request =
    | Create(body: Json)
    | Put(id: string, body: Json, expectedRevision: Option<int>)
    | Delete(id: string, expectedRevision: Option<int>)
    | DisableAll(expectedRevision: Option<int>)
    | Import(body: Json)

  /** A request with what the clock and the id generator answer while it is served. */
  datatype Call = Call(request: Request, freshIds: nat -> string, timestamp: string)

  /** The clock writes dates that can be read back, the generator ids that validation would accept. */
  ghost predicate Sound(call: Call, opts: Options) {
    ClockTime(call.timestamp, opts) && forall n: nat :: IdOk(call.freshIds(n))
  }

  /** The rule in the body names another id than the URL. */
  predicate Mismatch(id: string, rule: Rule, body: Json) {
    rule.id != id && body.Obj? && "id" in body.fields
  }

  // ---- what each request does to a rule set

  /** The error a request is answered with, or the rules after it. */
  function After(rules: RuleMap, revision: nat, call: Call, opts: Options): Result<RuleMap, ApiError> {
    match call.request
    case Create(body) =>
      var rule := ValidateRule(body, opts, call.freshIds(0)).value;
      if rule.None? then Err(ApiError(400, "rule_validation_failed"))
      else if rule.value.id in rules then Err(ApiError(400, "duplicate_rule_id"))
      else Ok(rules[rule.value.id := Stamped(rule.value, call.timestamp)])
    case Put(id, body, expected) =>
      var rule := ValidateRule(body, opts, call.freshIds(0)).value;
      if rule.None? then Err(ApiError(400, "rule_validation_failed"))
      else if Mismatch(id, rule.value, body) then Err(ApiError(400, "id_mismatch"))
      else if Outdated(expected, revision) then Err(ApiError(409, "revision_conflict"))
      else if id !in rules then Err(ApiError(404, "rule_not_found"))
      else Ok(rules[id := rule.value.(id := id, createdAt := rules[id].createdAt, updatedAt := call.timestamp)])
    case Delete(id, expected) =>
      if Outdated(expected, revision) then Err(ApiError(409, "revision_conflict"))
      else if id !in rules then Err(ApiError(404, "rule_not_found"))
      else Ok(rules - {id})
    case DisableAll(expected) =>
      if Outdated(expected, revision) then Err(ApiError(409, "revision_conflict"))
      else Ok(Disabled(rules, call.timestamp))
    case Import(body) =>
      if Importable(body, revision, opts, call.freshIds) then
        Ok(Imported(if ModeOf(body) == Some(Replace) then map[] else rules,
                    Validated(body.fields["rules"].items, opts, call.freshIds).0, call.timestamp))
      else Err(ImportError(body, revision, opts, call.freshIds))
  }

  /** What a store holds, as far as the API shows it. */
  datatype Contents = Contents(rules: RuleMap, revision: nat)

  function Step(c: Contents, call: Call, opts: Options): Contents {
    var after := After(c.rules, c.revision, call, opts);
    if after.Err? || (call.request.DisableAll? && after.value == c.rules) then c
    else Contents(after.value, c.revision + 1)
  }

  function Steps(c: Contents, calls: seq<Call>, opts: Options): Contents
    decreases |calls|
  {
    if calls == [] then c else Steps(Step(c, calls[0], opts), calls[1..], opts)
  }

  // ---- what every sequence of requests keeps

  lemma {:induction false} ValidatedNormal(documents: seq<Json>, opts: Options, freshIds: nat -> string)
    requires forall n: nat :: IdOk(freshIds(n))
    ensures forall r <- Validated(documents, opts, freshIds).0 :: Normal(r, opts)
    decreases |documents|
  {
    if documents != [] {
      var n := |documents| - 1;
      ValidatedNormal(documents[..n], opts, freshIds);
      AcceptedIsNormal(documents[n], opts, freshIds(n));
    }
  }

  lemma AfterKeeps(rules: RuleMap, revision: nat, call: Call, opts: Options)
    requires AllKept(rules, opts) && Sound(call, opts) && After(rules, revision, call, opts).Ok?
    ensures AllKept(After(rules, revision, call, opts).value, opts)
  {
    match call.request
    case Create(body) =>
      AcceptedIsNormal(body, opts, call.freshIds(0));
      var rule := ValidateRule(body, opts, call.freshIds(0)).value.value;
      ChangesKeepNormal(rules, rule, rule.id, call.timestamp, opts);
    case Put(id, body, _) =>
      AcceptedIsNormal(body, opts, call.freshIds(0));
      ChangesKeepNormal(rules, ValidateRule(body, opts, call.freshIds(0)).value.value, id, call.timestamp, opts);
    case Delete(_, _) =>
    case DisableAll(_) =>
    case Import(body) =>
      var list := Validated(body.fields["rules"].items, opts, call.freshIds).0;
      ValidatedNormal(body.fields["rules"].items, opts, call.freshIds);
      ImportKeepsNormal(rules, list, call.timestamp, opts);
      ImportKeepsNormal(map[], list, call.timestamp, opts);
  }

  /** Whatever is asked of the API, in any order, the rules stay as validation lets them through. */
  lemma {:induction false} StepsKeep(c: Contents, calls: seq<Call>, opts: Options)
    requires AllKept(c.rules, opts) && forall call <- calls :: Sound(call, opts)
    ensures AllKept(Steps(c, calls, opts).rules, opts)
    decreases |calls|
  {
    if calls != [] {
      if After(c.rules, c.revision, calls[0], opts).Ok? {
        AfterKeeps(c.rules, c.revision, calls[0], opts);
      }
      StepsKeep(Step(c, calls[0], opts), calls[1..], opts);
    }
  }

  /** An unchanged revision means unchanged rules: a request that names it overwrites nothing it has not seen. */
  lemma {:induction false} RevisionTells(c: Contents, calls: seq<Call>, opts: Options)
    ensures Steps(c, calls, opts).revision >= c.revision
    ensures Steps(c, calls, opts).revision == c.revision ==> Steps(c, calls, opts) == c
    decreases |calls|
  {
    if calls != [] {
      RevisionTells(Step(c, calls[0], opts), calls[1..], opts);
    }
  }

  // ---- the operations

  method CreateRule(store: RuleStore, body: Json, opts: Options, freshId: string, timestamp: string)
    returns (r: Result<Rule, ApiError>)
    requires store.Valid()
    modifies store
    ensures store.Valid()
    ensures var rule := ValidateRule(body, opts, freshId).value;
            if rule.None? then r == Err(ApiError(400, "rule_validation_failed"))
            else if rule.value.id in old(store.rules) then r == Err(ApiError(400, "duplicate_rule_id"))
            else r == Ok(Stamped(rule.value, timestamp)) && store.rules == old(store.rules)[rule.value.id := r.value]
    ensures store.revisionValue == old(store.revisionValue) + (if r.Ok? then 1 else 0)
    ensures r.Err? ==> store.rules == old(store.rules)
  {
    var rule, _ := ValidateOne(body, opts, freshId);
    if rule.None? {
      return Err(ApiError(400, "rule_validation_failed"));
    }
    var created := store.Create(rule.value, timestamp);
    if created.Err? {
      return Err(ApiErrorOf(created.error));
    }
    return Ok(created.value);
  }

  method PutRule(
    store: RuleStore, id: string, body: Json, expectedRevision: Option<int>, opts: Options, freshId: string,
    timestamp: string) returns (r: Result<Rule, ApiError>)
    requires store.Valid()
    modifies store
    ensures store.Valid()
    ensures var rule := ValidateRule(body, opts, freshId).value;
            if rule.None? then r == Err(ApiError(400, "rule_validation_failed"))
            else if Mismatch(id, rule.value, body) then r == Err(ApiError(400, "id_mismatch"))
            else if Outdated(expectedRevision, old(store.revisionValue)) then r == Err(ApiError(409, "revision_conflict"))
            else if id !in old(store.rules) then r == Err(ApiError(404, "rule_not_found"))
            else
              && r == Ok(rule.value.(id := id, createdAt := old(store.rules)[id].createdAt, updatedAt := timestamp))
              && store.rules == old(store.rules)[id := r.value]
    ensures store.revisionValue == old(store.revisionValue) + (if r.Ok? then 1 else 0)
    ensures r.Err? ==> store.rules == old(store.rules)
  {
    var rule, _ := ValidateOne(body, opts, freshId);
    if rule.None? {
      return Err(ApiError(400, "rule_validation_failed"));
    }
    if rule.value.id != id && body.Obj? && "id" in body.fields {
      return Err(ApiError(400, "id_mismatch"));
    }
    var updated := store.Update(id, rule.value.(id := id), expectedRevision, timestamp);
    if updated.Err? {
      return Err(ApiErrorOf(updated.error));
    }
    return Ok(updated.value);
  }

  method DeleteRule(store: RuleStore, id: string, expectedRevision: Option<int>) returns (error: Option<ApiError>)
    requires store.Valid()
    modifies store
    ensures store.Valid()
    ensures error == if Outdated(expectedRevision, old(store.revisionValue)) then Some(ApiError(409, "revision_conflict"))
                     else if id !in old(store.rules) then Some(ApiError(404, "rule_not_found"))
                     else None
    ensures store.rules == if error.Some? then old(store.rules) else old(store.rules) - {id}
    ensures store.revisionValue == old(store.revisionValue) + (if error.Some? then 0 else 1)
  {
    var failed := store.Delete(id, expectedRevision);
    error := if failed.Some? then Some(ApiErrorOf(failed.value)) else None;
  }

  method DisableAllRules(store: RuleStore, expectedRevision: Option<int>, timestamp: string)
    returns (r: Result<nat, ApiError>)
    requires store.Valid()
    modifies store
    ensures store.Valid()
    ensures if Outdated(expectedRevision, old(store.revisionValue)) then r == Err(ApiError(409, "revision_conflict"))
            else r.Ok? && (r.value == 0 <==> store.rules == old(store.rules))
    ensures store.rules == if r.Err? then old(store.rules) else Disabled(old(store.rules), timestamp)
    ensures store.revisionValue == old(store.revisionValue) + (if store.rules == old(store.rules) then 0 else 1)
  {
    var disabled := store.DisableAll(expectedRevision, timestamp);
    if disabled.Err? {
      return Err(ApiErrorOf(disabled.error));
    }
    return Ok(disabled.value);
  }

  /** `error` answers `call` as the specification says, and leaves what it says behind. */
  predicate Answers(
    error: Option<ApiError>, rules: RuleMap, revision: nat, before: Contents, call: Call, opts: Options)
  {
    var after := After(before.rules, before.revision, call, opts);
    && error == (if after.Err? then Some(after.error) else None)
    && rules == (if after.Err? then before.rules else after.value)
    && revision
       == before.revision + (if after.Err? || (call.request.DisableAll? && rules == before.rules) then 0 else 1)
  }

  /** The requests that send a rule. */
  method HandleRule(store: RuleStore, call: Call, opts: Options) returns (error: Option<ApiError>)
    requires store.Valid() && (call.request.Create? || call.request.Put?)
    modifies store
    ensures store.Valid()
    ensures Answers(error, store.rules, store.revisionValue, Contents(old(store.rules), old(store.revisionValue)), call, opts)
  {
    var r;
    if call.request.Create? {
      r := CreateRule(store, call.request.body, opts, call.freshIds(0), call.timestamp);
    } else {
      r := PutRule(store, call.request.id, call.request.body, call.request.expectedRevision, opts, call.freshIds(0),
                   call.timestamp);
    }
    error := if r.Err? then Some(r.error) else None;
  }

  method Handle(store: RuleStore, call: Call, opts: Options) returns (error: Option<ApiError>)
    requires store.Valid()
    modifies store
    ensures store.Valid()
    ensures Answers(error, store.rules, store.revisionValue, Contents(old(store.rules), old(store.revisionValue)), call, opts)
  {
    error := None;
    match call.request
    case Delete(id, expected) =>
      error := DeleteRule(store, id, expected);
    case DisableAll(expected) =>
      var disabled := DisableAllRules(store, expected, call.timestamp);
      error := if disabled.Err? then Some(disabled.error) else None;
    case Import(body) =>
      var imported := ImportRules(store, body, opts, call.freshIds, call.timestamp);
      error := if imported.Err? then Some(imported.error) else None;
    case _ =>
      error := HandleRule(store, call, opts);
  }

  lemma AnswersStep(
    error: Option<ApiError>, rules: RuleMap, revision: nat, before: Contents, call: Call, opts: Options)
    requires Answers(error, rules, revision, before, call, opts)
    ensures Contents(rules, revision) == Step(before, call, opts)
  {
  }

  /** The rest of the requests after one of them. */
  lemma StepsNext(c: Contents, calls: seq<Call>, i: nat, opts: Options)
    requires i < |calls|
    ensures Steps(c, calls[i..], opts) == Steps(Step(c, calls[i], opts), calls[i + 1..], opts)
  {
    assert calls[i..][0] == calls[i] && calls[i..][1..] == calls[i + 1..];
  }

  /** Requests one after the other. */
  method Serve(store: RuleStore, calls: seq<Call>, opts: Options)
    requires store.Valid()
    modifies store
    ensures store.Valid()
    ensures Contents(store.rules, store.revisionValue)
            == Steps(Contents(old(store.rules), old(store.revisionValue)), calls, opts)
  {
    ghost var c := Contents(store.rules, store.revisionValue);
    ghost var end := Steps(c, calls, opts);
    assert calls[0..] == calls;
    for i := 0 to |calls|
      invariant store.Valid() && c == Contents(store.rules, store.revisionValue)
      invariant Steps(c, calls[i..], opts) == end
    {
      StepsNext(c, calls, i, opts);
      var error := Handle(store, calls[i], opts);
      AnswersStep(error, store.rules, store.revisionValue, c, calls[i], opts);
      c := Step(c, calls[i], opts);
    }
  }

  const EMPTY := Contents(map[], 1)

  /**
   * Whatever requests filled the source: its export, imported into any store in
   * replace mode, gives the same rules in the same order.
   */
  method FilledRoundTrip(
    calls: seq<Call>, target: RuleStore, opts: Options, freshIds: nat -> string, exportedAt: string, timestamp: string)
    returns (before: seq<Rule>, after: seq<Rule>)
    requires target.Valid() && forall call <- calls :: Sound(call, opts)
    modifies target
    ensures target.Valid()
    ensures IsSnapshotOf(before, Steps(EMPTY, calls, opts).rules) && IsSnapshotOf(after, target.rules)
    ensures after == Touched(before, timestamp)
  {
    var source := new RuleStore();
    Serve(source, calls, opts);
    StepsKeep(EMPTY, calls, opts);
    before, after := RoundTrip(source, target, opts, freshIds, exportedAt, timestamp);
  }
}
