/** What one import transaction makes of the core tables: providers, users, virtual
    keys and settings (internal/api/configsync_apply.go and
    configsync_apply_upserts.go), as functions and relations over the tables. */
module CoreImport {
  import opened Wrappers
  import opened MemberTables
  import opened ImportFence

  datatype ImportError =
    | Stale | WouldWipeProviders | WouldWipeKeys | WouldWipeSettings
    | InvalidProvider | InvalidUser | InvalidKey | InvalidSetting
    | UnresolvableUserProviders(username: string)
    | ProviderNameTaken | EmailTaken
    | Superseded

  /** The per-field checks and the lookup tables the import consults but does not own. */
  datatype Policy = Policy(
    providerOk: ExportProvider -> bool,
    userOk: ExportUser -> bool,
    keyOk: ExportKey -> bool,
    settingOk: (string, string) -> bool,
    providerType: ExportProvider -> string,   // the declared type when known, else derived from the URL
    operatorServed: string -> bool,           // types whose capabilities are set by hand
    allowedSettings: set<string>)

  // --- Providers ---

  /** No two providers of the envelope are one name once spaces become hyphens. */
  ghost predicate NormDistinct(ps: seq<ExportProvider>) {
    forall i, j :: 0 <= i < j < |ps| ==> NormalizeName(ps[i].name) != NormalizeName(ps[j].name)
  }

  function StoredFields(policy: Policy, p: ExportProvider): ProviderFields {
    p.fields.(providerType := policy.providerType(p))
  }

  function WrittenProvider(policy: Policy, p: ExportProvider, heldReserve: int): ProviderRow {
    ProviderRow(p.name, StoredFields(policy, p), if p.quotaReserve.Some? then p.quotaReserve.value else heldReserve)
  }

  ghost predicate SameName(a: string, b: string) {
    NormalizeName(a) == NormalizeName(b)
  }

  /** Row id after the upserts is the envelope's p: an old row keeps its id through any
      respelling of its name, and a new id appears only for a name nobody held. */
  ghost predicate RowOf(policy: Policy, before: map<Id, ProviderRow>, p: ExportProvider, id: Id, row: ProviderRow) {
    if id in before then
      SameName(before[id].name, p.name) && row == WrittenProvider(policy, p, before[id].quotaReserve)
    else
      !Holds(before, p.name) && row == WrittenProvider(policy, p, 0)
  }

  /** Some row is called name, up to spelling. */
  ghost predicate Holds(rows: map<Id, ProviderRow>, name: string) {
    exists id :: id in rows && SameName(rows[id].name, name)
  }

  ghost predicate HasRowOf(policy: Policy, before: map<Id, ProviderRow>, p: ExportProvider, after: map<Id, ProviderRow>) {
    exists id :: id in after && RowOf(policy, before, p, id, after[id])
  }

  ghost predicate IsRowOfSome(policy: Policy, before: map<Id, ProviderRow>, ps: seq<ExportProvider>, id: Id, row: ProviderRow) {
    exists j :: 0 <= j < |ps| && RowOf(policy, before, ps[j], id, row)
  }

  ghost predicate Lists(ps: seq<ExportProvider>, name: string) {
    exists j :: 0 <= j < |ps| && SameName(name, ps[j].name)
  }

  /** The table between the upserts and the delete. */
  ghost predicate ProvidersUpserted(policy: Policy, before: map<Id, ProviderRow>, ps: seq<ExportProvider>, after: map<Id, ProviderRow>) {
    && ProviderNamesUnique(after)
    && before.Keys <= after.Keys
    && (forall id, j {:trigger SameName(after[id].name, ps[j].name)} ::
          id in after && 0 <= j < |ps| && SameName(after[id].name, ps[j].name) ==>
          RowOf(policy, before, ps[j], id, after[id]))
    && (forall id {:trigger Lists(ps, after[id].name)} :: id in after && !Lists(ps, after[id].name) ==>
          id in before && after[id] == before[id])
    && (forall j {:trigger Holds(after, ps[j].name)} :: 0 <= j < |ps| ==> Holds(after, ps[j].name))
  }

  /** The table an import leaves: one row per provider of the envelope and no other. */
  ghost predicate ProvidersConverged(policy: Policy, before: map<Id, ProviderRow>, ps: seq<ExportProvider>, after: map<Id, ProviderRow>) {
    && ProviderNamesUnique(after)
    && (forall id {:trigger IsRowOfSome(policy, before, ps, id, after[id])} :: id in after ==>
          IsRowOfSome(policy, before, ps, id, after[id]))
    && (forall j {:trigger HasRowOf(policy, before, ps[j], after)} :: 0 <= j < |ps| ==>
          HasRowOf(policy, before, ps[j], after))
    && (forall id, j {:trigger SameName(before[id].name, ps[j].name)} ::
          id in before && 0 <= j < |ps| && SameName(before[id].name, ps[j].name) ==>
          id in after && after[id].name == ps[j].name)
  }

  ghost predicate Wanted(ps: seq<ExportProvider>, name: string) {
    exists j :: 0 <= j < |ps| && ps[j].name == name
  }

  /** A provider type without hand-set capabilities releases its models' pins. */
  ghost predicate Releases(policy: Policy, ps: seq<ExportProvider>, name: string) {
    exists j :: 0 <= j < |ps| && ps[j].name == name && !policy.operatorServed(policy.providerType(ps[j]))
  }

  ghost function ReleasedModels(policy: Policy, ps: seq<ExportProvider>, providers: map<Id, ProviderRow>, models: map<Id, ModelRow>): map<Id, ModelRow> {
    map id | id in models ::
      if models[id].provider in providers && Releases(policy, ps, providers[models[id].provider].name)
      then models[id].(capabilitiesCustomized := false) else models[id]
  }

  /** ON DELETE CASCADE. */
  function Cascaded(providers: map<Id, ProviderRow>, models: map<Id, ModelRow>): map<Id, ModelRow> {
    map id | id in models && models[id].provider in providers :: models[id]
  }

  function Kept(ps: seq<ExportProvider>, upserted: map<Id, ProviderRow>): map<Id, ProviderRow> {
    map id | id in upserted && (exists j :: 0 <= j < |ps| && ps[j].name == upserted[id].name) :: upserted[id]
  }

  lemma KeptHasRowOf(policy: Policy, before: map<Id, ProviderRow>, ps: seq<ExportProvider>, upserted: map<Id, ProviderRow>, j: nat)
    requires ProvidersUpserted(policy, before, ps, upserted) && j < |ps|
    ensures HasRowOf(policy, before, ps[j], Kept(ps, upserted))
  {
    assert Holds(upserted, ps[j].name);
    var id :| id in upserted && SameName(upserted[id].name, ps[j].name);
    assert RowOf(policy, before, ps[j], id, upserted[id]);
    assert ps[j].name == upserted[id].name;
    assert id in Kept(ps, upserted);
  }

  lemma KeptKeepsId(policy: Policy, before: map<Id, ProviderRow>, ps: seq<ExportProvider>, upserted: map<Id, ProviderRow>, j: nat, id: Id)
    requires ProvidersUpserted(policy, before, ps, upserted) && j < |ps| && ProviderNamesUnique(before)
    requires id in before && SameName(before[id].name, ps[j].name)
    ensures id in Kept(ps, upserted) && upserted[id].name == ps[j].name
  {
    assert Holds(upserted, ps[j].name);
    var i :| i in upserted && SameName(upserted[i].name, ps[j].name);
    assert RowOf(policy, before, ps[j], i, upserted[i]);
    assert Holds(before, ps[j].name);
    assert i == id;
  }

  lemma KeptIsRow(policy: Policy, before: map<Id, ProviderRow>, ps: seq<ExportProvider>, upserted: map<Id, ProviderRow>, id: Id)
    requires ProvidersUpserted(policy, before, ps, upserted) && id in Kept(ps, upserted)
    ensures IsRowOfSome(policy, before, ps, id, upserted[id])
  {
    var j :| 0 <= j < |ps| && ps[j].name == upserted[id].name;
    assert SameName(upserted[id].name, ps[j].name);
    assert RowOf(policy, before, ps[j], id, upserted[id]);
  }

  /** Upserted rows, less the ones the envelope does not name, are converged rows. */
  lemma DeleteConverges(policy: Policy, before: map<Id, ProviderRow>, ps: seq<ExportProvider>, upserted: map<Id, ProviderRow>)
    requires ProvidersUpserted(policy, before, ps, upserted) && ProviderNamesUnique(before)
    ensures ProvidersConverged(policy, before, ps, Kept(ps, upserted))
  {
    var after := Kept(ps, upserted);
    forall j {:trigger HasRowOf(policy, before, ps[j], after)} | 0 <= j < |ps| ensures HasRowOf(policy, before, ps[j], after) {
      KeptHasRowOf(policy, before, ps, upserted, j);
    }
    forall id, j {:trigger SameName(before[id].name, ps[j].name)} |
      id in before && 0 <= j < |ps| && SameName(before[id].name, ps[j].name)
      ensures id in after && after[id].name == ps[j].name
    {
      KeptKeepsId(policy, before, ps, upserted, j, id);
    }
    forall id {:trigger IsRowOfSome(policy, before, ps, id, after[id])} | id in after
      ensures IsRowOfSome(policy, before, ps, id, after[id])
    {
      KeptIsRow(policy, before, ps, upserted, id);
    }
  }

  ghost predicate HasName(rows: map<Id, ProviderRow>, name: string) {
    exists id :: id in rows && rows[id].name == name
  }

  /** Provider names after an import are exactly the envelope's. */
  lemma ProviderNamesConverge(policy: Policy, before: map<Id, ProviderRow>, ps: seq<ExportProvider>, after: map<Id, ProviderRow>, name: string)
    requires ProvidersConverged(policy, before, ps, after)
    ensures HasName(after, name) <==> Wanted(ps, name)
  {
    if HasName(after, name) {
      var id :| id in after && after[id].name == name;
      assert IsRowOfSome(policy, before, ps, id, after[id]);
    }
    if Wanted(ps, name) {
      var j :| 0 <= j < |ps| && ps[j].name == name;
      assert HasRowOf(policy, before, ps[j], after);
    }
  }

  /** The rename ahead of an upsert: any other spelling of the name takes the envelope's. */
  function Renamed(providers: map<Id, ProviderRow>, name: string): map<Id, ProviderRow> {
    map id | id in providers ::
      if NormalizeName(providers[id].name) == NormalizeName(name) && providers[id].name != name
      then providers[id].(name := name) else providers[id]
  }

  /** The rename respells at most names, so the unique index stands, and leaves no other spelling. */
  lemma RenamedKeepsNames(providers: map<Id, ProviderRow>, name: string)
    requires ProviderNamesUnique(providers)
    ensures var after := Renamed(providers, name);
            && ProviderNamesUnique(after)
            && after.Keys == providers.Keys
            && (forall id :: id in providers ==>
                  && SameName(after[id].name, providers[id].name)
                  && after[id].quotaReserve == providers[id].quotaReserve
                  && (SameName(providers[id].name, name) ==> after[id].name == name)
                  && (!SameName(providers[id].name, name) ==> after[id] == providers[id]))
  {
    var after := Renamed(providers, name);
    forall i, j | i in after && j in after && i != j ensures NormalizeName(after[i].name) != NormalizeName(after[j].name) {
      assert NormalizeName(after[i].name) == NormalizeName(providers[i].name);
      assert NormalizeName(after[j].name) == NormalizeName(providers[j].name);
    }
  }

  /** One rename-then-upsert: the row held under any spelling of the name is rewritten in
      place, and only a name nobody holds gets a new row. */
  ghost predicate ProviderUpsertedAt(policy: Policy, before: map<Id, ProviderRow>, p: ExportProvider, id: Id, after: map<Id, ProviderRow>) {
    && RowOf(policy, before, p, id, WrittenProvider(policy, p, if id in before then before[id].quotaReserve else 0))
    && after == before[id := WrittenProvider(policy, p, if id in before then before[id].quotaReserve else 0)]
  }

  lemma ListsStep(ps: seq<ExportProvider>, p: ExportProvider, name: string)
    ensures Lists(ps + [p], name) <==> Lists(ps, name) || SameName(name, p.name)
  {
    if Lists(ps, name) {
      var j :| 0 <= j < |ps| && SameName(name, ps[j].name);
      assert (ps + [p])[j] == ps[j];
    }
    assert (ps + [p])[|ps|] == p;
  }

  lemma UpsertKeepsNamesUnique(policy: Policy, before: map<Id, ProviderRow>, p: ExportProvider, id: Id, after: map<Id, ProviderRow>)
    requires ProviderNamesUnique(before) && ProviderUpsertedAt(policy, before, p, id, after)
    ensures ProviderNamesUnique(after)
    ensures forall i :: i in before && i != id ==>
              !SameName(before[i].name, p.name) && before[i].name != p.name && after[i] == before[i]
  {
    forall i | i in before && i != id ensures !SameName(before[i].name, p.name) {
      if SameName(before[i].name, p.name) {
        assert Holds(before, p.name);
      }
    }
  }

  lemma ListsSpelling(ps: seq<ExportProvider>, a: string, b: string)
    requires SameName(a, b)
    ensures Lists(ps, a) <==> Lists(ps, b)
  {
    if Lists(ps, a) {
      var j :| 0 <= j < |ps| && SameName(a, ps[j].name);
      assert SameName(b, ps[j].name);
    }
    if Lists(ps, b) {
      var j :| 0 <= j < |ps| && SameName(b, ps[j].name);
      assert SameName(a, ps[j].name);
    }
  }

  lemma HeldOrListed(policy: Policy, before: map<Id, ProviderRow>, ps: seq<ExportProvider>, mid: map<Id, ProviderRow>, name: string)
    requires ProvidersUpserted(policy, before, ps, mid)
    ensures Holds(before, name) ==> Holds(mid, name) || Lists(ps, name)
  {
    if Holds(before, name) {
      var i :| i in before && SameName(before[i].name, name);
      if Lists(ps, mid[i].name) {
        var j :| 0 <= j < |ps| && SameName(mid[i].name, ps[j].name);
        assert RowOf(policy, before, ps[j], i, mid[i]);
        assert SameName(name, ps[j].name);
      } else {
        assert SameName(mid[i].name, name);
      }
    }
  }

  lemma UpsertedRowStep(policy: Policy, before: map<Id, ProviderRow>, ps: seq<ExportProvider>, mid: map<Id, ProviderRow>,
                        p: ExportProvider, id: Id)
    requires ProvidersUpserted(policy, before, ps, mid) && !Lists(ps, p.name)
    requires id in mid ==> SameName(mid[id].name, p.name)
    requires id !in mid ==> !Holds(mid, p.name)
    ensures id in mid ==> id in before && mid[id] == before[id]
    ensures id !in mid ==> id !in before && !Holds(before, p.name)
  {
    if id in mid {
      ListsSpelling(ps, mid[id].name, p.name);
    } else {
      HeldOrListed(policy, before, ps, mid, p.name);
    }
  }

  /** The upserts of a list, one provider longer. */
  lemma UpsertStep(policy: Policy, before: map<Id, ProviderRow>, ps: seq<ExportProvider>, mid: map<Id, ProviderRow>,
                   p: ExportProvider, id: Id, after: map<Id, ProviderRow>)
    requires ProvidersUpserted(policy, before, ps, mid) && ProviderUpsertedAt(policy, mid, p, id, after) && !Lists(ps, p.name)
    ensures ProvidersUpserted(policy, before, ps + [p], after)
  {
    var longer := ps + [p];
    UpsertKeepsNamesUnique(policy, mid, p, id, after);
    UpsertedRowStep(policy, before, ps, mid, p, id);
    forall i, j {:trigger SameName(after[i].name, longer[j].name)} |
      i in after && 0 <= j < |longer| && SameName(after[i].name, longer[j].name)
      ensures RowOf(policy, before, longer[j], i, after[i])
    {
      UpsertStepRow(policy, before, ps, mid, p, id, after, i, j);
    }
    forall i {:trigger Lists(longer, after[i].name)} | i in after && !Lists(longer, after[i].name)
      ensures i in before && after[i] == before[i]
    {
      ListsStep(ps, p, after[i].name);
      assert i != id;
      assert !Lists(ps, mid[i].name);
    }
    forall j {:trigger Holds(after, longer[j].name)} | 0 <= j < |longer| ensures Holds(after, longer[j].name) {
      if j < |ps| {
        assert Holds(mid, ps[j].name);
        var i :| i in mid && SameName(mid[i].name, ps[j].name);
        assert i in after && SameName(after[i].name, longer[j].name);
      } else {
        assert SameName(after[id].name, longer[j].name);
      }
    }
  }

  lemma UpsertStepRow(policy: Policy, before: map<Id, ProviderRow>, ps: seq<ExportProvider>, mid: map<Id, ProviderRow>,
                      p: ExportProvider, id: Id, after: map<Id, ProviderRow>, i: Id, j: nat)
    requires ProvidersUpserted(policy, before, ps, mid) && ProviderUpsertedAt(policy, mid, p, id, after) && !Lists(ps, p.name)
    requires i in after && j < |ps| + 1 && SameName(after[i].name, (ps + [p])[j].name)
    ensures RowOf(policy, before, (ps + [p])[j], i, after[i])
  {
    UpsertedRowStep(policy, before, ps, mid, p, id);
    UpsertKeepsNamesUnique(policy, mid, p, id, after);
    assert j < |ps| && SameName(p.name, ps[j].name) ==> Lists(ps, p.name);
    if j < |ps| && i != id {
      assert SameName(mid[i].name, ps[j].name);
    }
  }

  // --- Capability pins ---

  function ReleasedOf(models: map<Id, ModelRow>, provider: Id): map<Id, ModelRow> {
    map id | id in models :: if models[id].provider == provider then models[id].(capabilitiesCustomized := false) else models[id]
  }

  lemma ReleasesStep(policy: Policy, ps: seq<ExportProvider>, p: ExportProvider, name: string)
    ensures Releases(policy, ps + [p], name)
            <==> Releases(policy, ps, name) || (p.name == name && !policy.operatorServed(policy.providerType(p)))
  {
    if Releases(policy, ps, name) {
      var j :| 0 <= j < |ps| && ps[j].name == name && !policy.operatorServed(policy.providerType(ps[j]));
      assert (ps + [p])[j] == ps[j];
    }
    assert (ps + [p])[|ps|] == p;
  }

  lemma ReleasesOnlyListed(policy: Policy, ps: seq<ExportProvider>, name: string, spelled: string)
    requires SameName(name, spelled)
    ensures Releases(policy, ps, name) ==> Lists(ps, spelled)
  {
    if Releases(policy, ps, name) {
      var j :| 0 <= j < |ps| && ps[j].name == name;
      assert SameName(spelled, ps[j].name);
    }
  }

  lemma ReleaseStep(policy: Policy, before: map<Id, ProviderRow>, models: map<Id, ModelRow>, ps: seq<ExportProvider>,
                    mid: map<Id, ProviderRow>, p: ExportProvider, id: Id, after: map<Id, ProviderRow>)
    requires ProvidersUpserted(policy, before, ps, mid) && ProviderUpsertedAt(policy, mid, p, id, after) && !Lists(ps, p.name)
    requires forall i :: i in models ==> models[i].provider in before
    ensures var released := ReleasedModels(policy, ps, mid, models);
            ReleasedModels(policy, ps + [p], after, models)
            == if policy.operatorServed(policy.providerType(p)) then released else ReleasedOf(released, id)
  {
    var released := ReleasedModels(policy, ps, mid, models);
    UpsertedRowStep(policy, before, ps, mid, p, id);
    UpsertKeepsNamesUnique(policy, mid, p, id, after);
    forall m | m in models
      ensures ReleasedModels(policy, ps + [p], after, models)[m]
              == (if policy.operatorServed(policy.providerType(p)) then released else ReleasedOf(released, id))[m]
    {
      var q := models[m].provider;
      assert q in mid;
      ReleasesStep(policy, ps, p, after[q].name);
      if q == id {
        ReleasesOnlyListed(policy, ps, p.name, p.name);
        ReleasesOnlyListed(policy, ps, mid[q].name, p.name);
      }
    }
  }

  /** The cascade sees the same releases before and after the delete. */
  lemma CascadeAfterRelease(policy: Policy, ps: seq<ExportProvider>, upserted: map<Id, ProviderRow>, models: map<Id, ModelRow>)
    ensures Cascaded(Kept(ps, upserted), ReleasedModels(policy, ps, upserted, models))
            == Cascaded(Kept(ps, upserted), ReleasedModels(policy, ps, Kept(ps, upserted), models))
  {
  }

  // --- Allow lists ---

  /** The listed ids that are not gone, in order. */
  function Without(ids: seq<Id>, gone: set<Id>): seq<Id> {
    if ids == [] then []
    else Without(ids[..|ids| - 1], gone) + if ids[|ids| - 1] in gone then [] else [ids[|ids| - 1]]
  }

  function PrunedList(allowed: Option<seq<Id>>, gone: set<Id>): Option<seq<Id>> {
    if allowed.None? then None else Some(Without(allowed.value, gone))
  }

  function PrunedUsers(users: map<Id, UserRow>, gone: set<Id>): map<Id, UserRow> {
    map id | id in users :: users[id].(allowedProviders := PrunedList(users[id].allowedProviders, gone))
  }

  function PrunedKeys(keys: map<string, KeyRow>, gone: set<Id>): map<string, KeyRow> {
    map h | h in keys :: keys[h].(allowedProviders := PrunedList(keys[h].allowedProviders, gone))
  }

  /** Names through a lookup, the unresolvable dropped, order kept. */
  function Translated(names: seq<string>, lookup: map<string, Id>): seq<Id> {
    if names == [] then []
    else
      var rest := Translated(names[..|names| - 1], lookup);
      var name := names[|names| - 1];
      if name in lookup then rest + [lookup[name]] else rest
  }

  lemma {:induction false} TranslatedExactly(names: seq<string>, lookup: map<string, Id>, x: Id)
    ensures x in Translated(names, lookup) <==> exists k :: 0 <= k < |names| && names[k] in lookup && lookup[names[k]] == x
  {
    if names != [] {
      var n := |names| - 1;
      TranslatedExactly(names[..n], lookup, x);
      assert forall k :: 0 <= k < n ==> names[..n][k] == names[k];
    }
  }

  /** The ids of the names that resolve, one for each and in their order; `at` says where each stands. */
  ghost predicate ResolvesAt(names: seq<string>, lookup: map<string, Id>, ids: seq<Id>, at: seq<int>) {
    && |at| == |ids|
    && (forall i :: 0 <= i < |at| ==> 0 <= at[i] < |names| && names[at[i]] in lookup && ids[i] == lookup[names[at[i]]])
    && (forall i, j :: 0 <= i < j < |at| ==> at[i] < at[j])
    && (forall k :: 0 <= k < |names| && names[k] in lookup ==> k in at)
  }

  ghost predicate Resolves(names: seq<string>, lookup: map<string, Id>, ids: seq<Id>) {
    exists at :: ResolvesAt(names, lookup, ids, at)
  }

  /** A stated cap allows exactly what its names resolve to, an empty one nothing; no cap stays none. */
  ghost predicate CapOf(names: Option<seq<string>>, lookup: map<string, Id>, cap: Option<seq<Id>>) {
    && (cap.None? <==> names.None?)
    && (names.Some? ==> Resolves(names.value, lookup, cap.value))
  }

  lemma ResolvesMore(names: seq<string>, name: string, lookup: map<string, Id>, ids: seq<Id>, at: seq<int>)
    requires ResolvesAt(names, lookup, ids, at) && name in lookup
    ensures ResolvesAt(names + [name], lookup, ids + [lookup[name]], at + [|names|])
  {
    var more := at + [|names|];
    assert more[|at|] == |names|;
    forall k | 0 <= k <= |names| && (names + [name])[k] in lookup ensures k in more {
      assert k < |names| ==> k in at;
    }
  }

  lemma ResolvesNoMore(names: seq<string>, name: string, lookup: map<string, Id>, ids: seq<Id>, at: seq<int>)
    requires ResolvesAt(names, lookup, ids, at) && name !in lookup
    ensures ResolvesAt(names + [name], lookup, ids, at)
  {
    assert forall k :: 0 <= k < |names| ==> (names + [name])[k] == names[k];
  }

  lemma {:induction false} TranslatedResolves(names: seq<string>, lookup: map<string, Id>) returns (at: seq<int>)
    ensures ResolvesAt(names, lookup, Translated(names, lookup), at)
  {
    at := [];
    if names != [] {
      var n := |names| - 1;
      at := TranslatedResolves(names[..n], lookup);
      assert names == names[..n] + [names[n]];
      if names[n] in lookup {
        ResolvesMore(names[..n], names[n], lookup, Translated(names[..n], lookup), at);
        at := at + [n];
      } else {
        ResolvesNoMore(names[..n], names[n], lookup, Translated(names[..n], lookup), at);
      }
    }
  }

  /** A stated cap resolves to a stated cap; only an unstated one stays "no cap". */
  function ResolvedCap(names: Option<seq<string>>, lookup: map<string, Id>): (cap: Option<seq<Id>>)
    ensures cap.None? <==> names.None?
  {
    if names.None? then None else Some(Translated(names.value, lookup))
  }

  lemma {:induction false} NothingResolves(names: seq<string>, lookup: map<string, Id>)
    ensures |Translated(names, lookup)| == 0 <==> forall name :: name in names ==> name !in lookup
  {
    if names != [] {
      var n := |names| - 1;
      NothingResolves(names[..n], lookup);
      assert names == names[..n] + [names[n]];
    }
  }

  lemma CapResolves(names: Option<seq<string>>, lookup: map<string, Id>)
    ensures CapOf(names, lookup, ResolvedCap(names, lookup))
  {
    if names.Some? {
      var at := TranslatedResolves(names.value, lookup);
    }
  }

  function NameToId(providers: map<Id, ProviderRow>): map<string, Id>
    requires ProviderNamesUnique(providers)
  {
    map id | id in providers :: providers[id].name := id
  }

  function UsernameToId(users: map<Id, UserRow>): map<string, Id>
    requires UsernamesUnique(users)
  {
    map id | id in users :: users[id].username := id
  }

  // --- Users ---

  function WrittenUser(u: ExportUser, lookup: map<string, Id>, sso: Option<string>): UserRow {
    UserRow(u.username, u.email, u.fields, ResolvedCap(u.allowedProviderNames, lookup), sso)
  }

  /** The row is the entry's account: everything it states, and the SSO binding it had. */
  ghost predicate AccountOf(u: ExportUser, lookup: map<string, Id>, sso: Option<string>, row: UserRow) {
    && row.username == u.username && row.email == u.email && row.fields == u.fields && row.ssoIdentity == sso
    && CapOf(u.allowedProviderNames, lookup, row.allowedProviders)
  }

  /** Entry k of the list is the last word on its username. */
  ghost predicate LastWord(us: seq<ExportUser>, k: int) {
    0 <= k < |us| && forall j :: k < j < |us| ==> us[j].username != us[k].username
  }

  ghost predicate ListsUsername(us: seq<ExportUser>, name: string) {
    exists k :: 0 <= k < |us| && us[k].username == name
  }

  /** The users table after the loop over us: a row per listed username with the last
      entry's values and, for an account already here, its id and SSO binding. */
  ghost predicate UsersConverged(before: map<Id, UserRow>, us: seq<ExportUser>, lookup: map<string, Id>, after: map<Id, UserRow>) {
    && UsernamesUnique(after) && EmailsUnique(after)
    && (forall id :: id in after ==> ListsUsername(us, after[id].username))
    && (forall k {:trigger HasUser(after, us[k].username)} :: 0 <= k < |us| ==> HasUser(after, us[k].username))
    && (forall id, k {:trigger LastWord(us, k), after[id]} ::
          id in after && LastWord(us, k) && us[k].username == after[id].username ==>
          AccountOf(us[k], lookup, if id in before then before[id].ssoIdentity else None, after[id]))
    && (forall id :: id in before && ListsUsername(us, before[id].username) ==>
          id in after && after[id].username == before[id].username)
  }

  ghost predicate HasUser(users: map<Id, UserRow>, name: string) {
    exists id :: id in users && users[id].username == name
  }

  /** Accounts the envelope keeps, with every address blanked ahead of the upserts. */
  function BlankedUsers(before: map<Id, UserRow>, usernames: seq<string>): map<Id, UserRow> {
    map id | id in before && before[id].username in usernames :: before[id].(email := None)
  }

  /** One account written: in place when the username is held, under a new id otherwise. */
  ghost predicate UserWrittenAt(before: map<Id, UserRow>, u: ExportUser, lookup: map<string, Id>, id: Id, after: map<Id, UserRow>) {
    && (if id in before then before[id].username == u.username else !HasUser(before, u.username))
    && after == before[id := WrittenUser(u, lookup, if id in before then before[id].ssoIdentity else None)]
  }

  /** Another account already holds the address, so the unique index refuses the write. */
  ghost predicate EmailHeld(users: map<Id, UserRow>, u: ExportUser) {
    u.email.Some? && exists id :: id in users && users[id].username != u.username && users[id].email == u.email
  }

  /** The users table with the first part of the list written. */
  ghost predicate UsersUpserted(start: map<Id, UserRow>, us: seq<ExportUser>, lookup: map<string, Id>, users: map<Id, UserRow>) {
    && UsernamesUnique(users) && EmailsUnique(users)
    && (forall id :: id in start ==>
          id in users && users[id].username == start[id].username && users[id].ssoIdentity == start[id].ssoIdentity)
    && (forall id :: id in users && id !in start ==> users[id].ssoIdentity == None)
    && (forall id {:trigger ListsUsername(us, users[id].username)} :: id in users && !ListsUsername(us, users[id].username) ==>
          id in start && users[id] == start[id])
    && (forall id, k {:trigger LastWord(us, k), users[id]} ::
          id in users && LastWord(us, k) && us[k].username == users[id].username ==>
          users[id] == WrittenUser(us[k], lookup, if id in start then start[id].ssoIdentity else None))
    && (forall k {:trigger HasUser(users, us[k].username)} :: 0 <= k < |us| ==> HasUser(users, us[k].username))
  }

  lemma ListsUsernameStep(us: seq<ExportUser>, u: ExportUser, name: string)
    ensures ListsUsername(us + [u], name) <==> ListsUsername(us, name) || u.username == name
  {
    if ListsUsername(us, name) {
      var k :| 0 <= k < |us| && us[k].username == name;
      assert (us + [u])[k] == us[k];
    }
    assert (us + [u])[|us|] == u;
  }

  lemma OtherAccounts(mid: map<Id, UserRow>, u: ExportUser, lookup: map<string, Id>, id: Id, after: map<Id, UserRow>)
    requires UsernamesUnique(mid) && UserWrittenAt(mid, u, lookup, id, after)
    ensures forall i :: i in mid && i != id ==> mid[i].username != u.username && after[i] == mid[i]
  {
    assert forall i :: i in mid && mid[i].username == u.username ==> HasUser(mid, u.username);
  }

  lemma UserStepUnique(mid: map<Id, UserRow>, u: ExportUser, lookup: map<string, Id>, id: Id, after: map<Id, UserRow>)
    requires UsernamesUnique(mid) && EmailsUnique(mid) && UserWrittenAt(mid, u, lookup, id, after) && !EmailHeld(mid, u)
    ensures UsernamesUnique(after) && EmailsUnique(after)
  {
    OtherAccounts(mid, u, lookup, id, after);
  }

  lemma UserStepLastWord(start: map<Id, UserRow>, us: seq<ExportUser>, lookup: map<string, Id>, mid: map<Id, UserRow>,
                         u: ExportUser, id: Id, after: map<Id, UserRow>, i: Id, k: int)
    requires UsersUpserted(start, us, lookup, mid) && UserWrittenAt(mid, u, lookup, id, after)
    requires i in after && LastWord(us + [u], k) && (us + [u])[k].username == after[i].username
    ensures after[i] == WrittenUser((us + [u])[k], lookup, if i in start then start[i].ssoIdentity else None)
  {
    var longer := us + [u];
    assert longer[|us|] == u;
    if k < |us| {
      assert u.username != us[k].username;
      assert LastWord(us, k) by {
        forall j | k < j < |us| ensures us[j].username != us[k].username {
          assert longer[j] == us[j];
        }
      }
      assert i != id;
    } else {
      OtherAccounts(mid, u, lookup, id, after);
    }
  }

  /** The written part of the list, one account longer. */
  lemma UserStep(start: map<Id, UserRow>, us: seq<ExportUser>, lookup: map<string, Id>, mid: map<Id, UserRow>,
                 u: ExportUser, id: Id, after: map<Id, UserRow>)
    requires UsersUpserted(start, us, lookup, mid) && UserWrittenAt(mid, u, lookup, id, after) && !EmailHeld(mid, u)
    ensures UsersUpserted(start, us + [u], lookup, after)
  {
    var longer := us + [u];
    UserStepUnique(mid, u, lookup, id, after);
    forall i {:trigger ListsUsername(longer, after[i].username)} | i in after && !ListsUsername(longer, after[i].username)
      ensures i in start && after[i] == start[i]
    {
      ListsUsernameStep(us, u, after[i].username);
      assert !ListsUsername(us, mid[i].username);
    }
    forall i, k {:trigger LastWord(longer, k), after[i]} |
      i in after && LastWord(longer, k) && longer[k].username == after[i].username
      ensures after[i] == WrittenUser(longer[k], lookup, if i in start then start[i].ssoIdentity else None)
    {
      UserStepLastWord(start, us, lookup, mid, u, id, after, i, k);
    }
    forall k {:trigger HasUser(after, longer[k].username)} | 0 <= k < |longer| ensures HasUser(after, longer[k].username) {
      if k < |us| {
        assert HasUser(mid, us[k].username);
        var i :| i in mid && mid[i].username == us[k].username;
        assert i in after && after[i].username == us[k].username;
      } else {
        assert after[id].username == u.username;
      }
    }
  }

  lemma UsersConverge(before: map<Id, UserRow>, usernames: seq<string>, us: seq<ExportUser>, lookup: map<string, Id>, after: map<Id, UserRow>)
    requires UsersUpserted(BlankedUsers(before, usernames), us, lookup, after)
    requires forall name :: name in usernames <==> ListsUsername(us, name)
    requires forall id :: id in after && id !in BlankedUsers(before, usernames) ==> id !in before
    ensures UsersConverged(before, us, lookup, after)
  {
    var start := BlankedUsers(before, usernames);
    forall id, k {:trigger LastWord(us, k), after[id]} | id in after && LastWord(us, k) && us[k].username == after[id].username
      ensures AccountOf(us[k], lookup, if id in before then before[id].ssoIdentity else None, after[id])
    {
      CapResolves(us[k].allowedProviderNames, lookup);
      assert after[id] == WrittenUser(us[k], lookup, if id in start then start[id].ssoIdentity else None);
    }
  }

  // --- Virtual keys ---

  /** A key whose stated cap resolves to nothing here is left out of the import. */
  predicate SkipsKey(v: ExportKey, lookup: map<string, Id>) {
    v.allowedProviderNames.Some? && forall name :: name in v.allowedProviderNames.value ==> name !in lookup
  }

  function WrittenKey(v: ExportKey, lookup: map<string, Id>, owners: map<string, Id>): KeyRow {
    KeyRow(v.fields, ResolvedCap(v.allowedProviderNames, lookup),
           if v.ownerUsername.Some? && v.ownerUsername.value in owners then Some(owners[v.ownerUsername.value]) else None)
  }

  function UpsertedKeys(keys: map<string, KeyRow>, vks: seq<ExportKey>, lookup: map<string, Id>, owners: map<string, Id>): map<string, KeyRow> {
    if vks == [] then keys
    else
      var rest := UpsertedKeys(keys, vks[..|vks| - 1], lookup, owners);
      var v := vks[|vks| - 1];
      if SkipsKey(v, lookup) then rest else rest[v.keyHash := WrittenKey(v, lookup, owners)]
  }

  ghost predicate ListsKey(vks: seq<ExportKey>, hash: string) {
    exists k :: 0 <= k < |vks| && vks[k].keyHash == hash
  }

  ghost function ReplacedKeys(keys: map<string, KeyRow>, vks: seq<ExportKey>, lookup: map<string, Id>, owners: map<string, Id>): map<string, KeyRow> {
    var upserted := UpsertedKeys(keys, vks, lookup, owners);
    map h | h in upserted && ListsKey(vks, h) :: upserted[h]
  }

  /** Entry k is the last of its hash that the import writes. */
  ghost predicate LastSent(vks: seq<ExportKey>, lookup: map<string, Id>, h: string, k: int) {
    && 0 <= k < |vks| && vks[k].keyHash == h && !SkipsKey(vks[k], lookup)
    && forall j :: k < j < |vks| && vks[j].keyHash == h ==> SkipsKey(vks[j], lookup)
  }

  ghost predicate AllSkipped(vks: seq<ExportKey>, lookup: map<string, Id>, h: string) {
    forall k :: 0 <= k < |vks| && vks[k].keyHash == h ==> SkipsKey(vks[k], lookup)
  }

  /** One hash after the loop: as its last written entry says, or as it was. */
  ghost predicate KeyAt(keys: map<string, KeyRow>, vks: seq<ExportKey>, lookup: map<string, Id>, owners: map<string, Id>,
                        after: map<string, KeyRow>, h: string) {
    if AllSkipped(vks, lookup, h) then
      (h in after <==> h in keys) && (h in keys ==> after[h] == keys[h])
    else
      h in after && exists k :: LastSent(vks, lookup, h, k) && after[h] == WrittenKey(vks[k], lookup, owners)
  }

  lemma LastSentStays(vks: seq<ExportKey>, v: ExportKey, lookup: map<string, Id>, h: string)
    requires v.keyHash != h || SkipsKey(v, lookup)
    ensures AllSkipped(vks + [v], lookup, h) <==> AllSkipped(vks, lookup, h)
    ensures forall k :: LastSent(vks, lookup, h, k) ==> LastSent(vks + [v], lookup, h, k)
  {
    var longer := vks + [v];
    assert longer[|vks|] == v && forall k :: 0 <= k < |vks| ==> longer[k] == vks[k];
  }

  lemma KeyAtStep(keys: map<string, KeyRow>, vks: seq<ExportKey>, v: ExportKey, lookup: map<string, Id>, owners: map<string, Id>,
                  mid: map<string, KeyRow>, h: string)
    requires KeyAt(keys, vks, lookup, owners, mid, h)
    ensures KeyAt(keys, vks + [v], lookup, owners,
                  if SkipsKey(v, lookup) then mid else mid[v.keyHash := WrittenKey(v, lookup, owners)], h)
  {
    var longer := vks + [v];
    if v.keyHash == h && !SkipsKey(v, lookup) {
      assert longer[|vks|] == v && LastSent(longer, lookup, h, |vks|);
    } else {
      LastSentStays(vks, v, lookup, h);
      if !AllSkipped(vks, lookup, h) {
        var k :| LastSent(vks, lookup, h, k) && mid[h] == WrittenKey(vks[k], lookup, owners);
        assert LastSent(longer, lookup, h, k) && longer[k] == vks[k];
      }
    }
  }

  lemma {:induction false} UpsertedKeysAt(keys: map<string, KeyRow>, vks: seq<ExportKey>, lookup: map<string, Id>, owners: map<string, Id>, h: string)
    ensures KeyAt(keys, vks, lookup, owners, UpsertedKeys(keys, vks, lookup, owners), h)
  {
    if vks != [] {
      var n := |vks| - 1;
      UpsertedKeysAt(keys, vks[..n], lookup, owners, h);
      KeyAtStep(keys, vks[..n], vks[n], lookup, owners, UpsertedKeys(keys, vks[..n], lookup, owners), h);
      assert vks == vks[..n] + [vks[n]];
    }
  }

  /** A listed key ends up uncapped iff the last of its entries the import writes states no cap, or
      the import writes none of them and the member held it uncapped. */
  lemma StatedKeyCap(keys: map<string, KeyRow>, vks: seq<ExportKey>, lookup: map<string, Id>, owners: map<string, Id>, h: string)
    requires ListsKey(vks, h)
    ensures var after := ReplacedKeys(keys, vks, lookup, owners);
            h in after && after[h].allowedProviders.None?
            <==> if AllSkipped(vks, lookup, h) then h in keys && keys[h].allowedProviders.None?
                 else exists k :: LastSent(vks, lookup, h, k) && vks[k].allowedProviderNames.None?
  {
    UpsertedKeysAt(keys, vks, lookup, owners, h);
    forall j, k | LastSent(vks, lookup, h, j) && LastSent(vks, lookup, h, k) ensures j == k {
    }
  }

  /** A hash sent twice, first without a cap and then with one that resolves to nothing here:
      the second is skipped and the key is left uncapped. */
  lemma RepeatedKeyUncapped(f: KeyFields, lookup: map<string, Id>, owners: map<string, Id>)
    ensures var after := ReplacedKeys(map[], [ExportKey("h", f, None, None), ExportKey("h", f, Some([]), None)], lookup, owners);
            "h" in after && after["h"].allowedProviders.None?
  {
    var vks := [ExportKey("h", f, None, None), ExportKey("h", f, Some([]), None)];
    assert vks[0].keyHash == "h";
    assert LastSent(vks, lookup, "h", 0);
    StatedKeyCap(map[], vks, lookup, owners, "h");
  }

  /** Accounts that go take no key with them: it is left to nobody. */
  function Disowned(keys: map<string, KeyRow>, gone: set<Id>): map<string, KeyRow> {
    map h | h in keys ::
      if keys[h].owner.Some? && keys[h].owner.value in gone then keys[h].(owner := None) else keys[h]
  }

  /** Every key the import leaves belongs to an account it leaves, or to nobody. */
  lemma {:induction false} UpsertedOwners(keys: map<string, KeyRow>, vks: seq<ExportKey>, lookup: map<string, Id>, users: map<Id, UserRow>)
    requires UsernamesUnique(users) && OwnersHeld(users, keys)
    ensures OwnersHeld(users, UpsertedKeys(keys, vks, lookup, UsernameToId(users)))
  {
    if vks != [] {
      UpsertedOwners(keys, vks[..|vks| - 1], lookup, users);
    }
  }

  // --- Settings ---

  const APPRISE_KEYS := {"alert_apprise_api_url", "alert_apprise_targets"}

  const SSO_LOCAL_KEYS := {
    "oidc_enabled", "oidc_issuer_url", "oidc_client_id", "oidc_client_secret", "oidc_public_base_url",
    "github_sso_enabled", "github_client_id", "github_client_secret", "github_public_base_url"}

  const SESSION_IDLE_KEY := "session_idle_timeout_minutes"

  predicate Syncable(policy: Policy, key: string) {
    key in policy.allowedSettings && key !in APPRISE_KEYS && key !in SSO_LOCAL_KEYS && key != SESSION_IDLE_KEY
  }

  // What strconv.ParseBool reads as false.
  const FALSE_SPELLINGS := {"0", "f", "F", "false", "FALSE", "False"}

  const QUOTA_PIN_SWITCH := "circuit_breaker_quota_pin_enabled"
  const QUOTA_PIN_MAX := "circuit_breaker_quota_pin_max"
  const BACKOFF_SWITCH := "circuit_breaker_backoff_enabled"
  const BACKOFF_MAX := "circuit_breaker_backoff_max"

  /** The ceiling that carries each retired on/off switch. */
  const RETIRED_SWITCHES: map<string, string> := map[QUOTA_PIN_SWITCH := QUOTA_PIN_MAX, BACKOFF_SWITCH := BACKOFF_MAX]

  predicate SwitchedOff(want: map<string, string>, legacy: string) {
    legacy in want && want[legacy] in FALSE_SPELLINGS
  }

  /** The settings a fold must produce: a ceiling of a switch that reads false is zero, all else as sent. */
  function FoldedValue(want: map<string, string>, key: string): Option<string> {
    if (key == QUOTA_PIN_MAX && SwitchedOff(want, QUOTA_PIN_SWITCH)) || (key == BACKOFF_MAX && SwitchedOff(want, BACKOFF_SWITCH))
    then Some("0s")
    else if key in want then Some(want[key]) else None
  }

  ghost predicate IsFold(want: map<string, string>, folded: map<string, string>) {
    forall key :: (key in folded <==> FoldedValue(want, key).Some?)
                  && (key in folded ==> Some(folded[key]) == FoldedValue(want, key))
  }

  /** Syncable settings equal the folded map; every other row stays as it was. */
  ghost predicate SettingsConverged(policy: Policy, before: map<string, string>, want: map<string, string>, after: map<string, string>) {
    forall key ::
      if Syncable(policy, key) then
        (key in after <==> FoldedValue(want, key).Some?) && (key in after ==> Some(after[key]) == FoldedValue(want, key))
      else
        (key in after <==> key in before) && (key in after ==> after[key] == before[key])
  }

  function Sent(settings: Option<map<string, string>>): map<string, string> {
    if settings.Some? then settings.value else map[]
  }

  function SentKeys(env: Envelope): seq<ExportKey> {
    if env.virtualKeys.Some? then env.virtualKeys.value else []
  }

  // --- The whole transaction ---

  function Gone(db: Member, providers: map<Id, ProviderRow>): set<Id> {
    db.providers.Keys - providers.Keys
  }

  /** Providers, the models hanging off them, and accounts, after an import. */
  ghost predicate RosterStep(policy: Policy, db: Member, env: Envelope, providers: map<Id, ProviderRow>,
                             models: map<Id, ModelRow>, users: map<Id, UserRow>) {
    && ProvidersConverged(policy, db.providers, env.providers, providers)
    && models == Cascaded(providers, ReleasedModels(policy, env.providers, providers, db.models))
    && UsernamesUnique(users)
    && (if env.users.None? then users == PrunedUsers(db.users, Gone(db, providers))
        else UsersConverged(PrunedUsers(db.users, Gone(db, providers)), env.users.value, NameToId(providers), users))
  }

  /** Virtual keys after an import: the envelope's, and never none where some were sent and held. */
  ghost predicate KeysStep(db: Member, env: Envelope, providers: map<Id, ProviderRow>, users: map<Id, UserRow>, keys: map<string, KeyRow>)
    requires ProviderNamesUnique(providers) && UsernamesUnique(users)
  {
    && keys == ReplacedKeys(Disowned(PrunedKeys(db.keys, Gone(db, providers)), db.users.Keys - users.Keys),
                            SentKeys(env), NameToId(providers), UsernameToId(users))
    && (db.keys != map[] && SentKeys(env) != [] ==> keys != map[])
  }

  ghost predicate SettingsStep(policy: Policy, db: Member, env: Envelope, settings: map<string, string>) {
    && (env.settings.None? ==> forall key :: key in db.settings ==> !Syncable(policy, key))
    && SettingsConverged(policy, db.settings, Sent(env.settings), settings)
  }

  /** The checks ahead of the first write: the fence, the normalized names and the two wipe rails. */
  ghost predicate Admissible(db: Member, env: Envelope, gen: Option<int>) {
    && Admits(db.sourceGen, gen)
    && NormDistinct(env.providers)
    && (env.providers == [] ==> db.providers == map[])
    && (env.virtualKeys.None? ==> db.keys == map[])
  }

  /** What a committed import leaves of the database it found. */
  ghost predicate CoreStep(policy: Policy, db: Member, env: Envelope, gen: Option<int>, after: Member) {
    && Admissible(db, env, gen)
    && RosterStep(policy, db, env, after.providers, after.models, after.users)
    && KeysStep(db, env, after.providers, after.users, after.keys)
    && SettingsStep(policy, db, env, after.settings)
    && after == db.(providers := after.providers, models := after.models, users := after.users, keys := after.keys,
                    settings := after.settings, sourceGen := Advanced(db.sourceGen, gen), importSeq := Number(NextSeq(db.importSeq)))
  }

  /** A committed import leaves the database's own constraints standing. */
  lemma CoreStepConstrained(policy: Policy, db: Member, env: Envelope, gen: Option<int>, after: Member)
    requires Constrained(db) && CoreStep(policy, db, env, gen, after)
    ensures Constrained(after)
  {
    var held := Disowned(PrunedKeys(db.keys, Gone(db, after.providers)), db.users.Keys - after.users.Keys);
    assert OwnersHeld(after.users, held);
    UpsertedOwners(held, SentKeys(env), NameToId(after.providers), after.users);
  }
}
