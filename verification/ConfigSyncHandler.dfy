/** The import side of config sync as the program runs it: statements and loops over
    this member's tables, each proved against the functions and relations of
    ModelIntent, FailoverGroups, CoreImport and ImportFence. */
module ConfigSyncHandler {
  import opened Wrappers
  import opened MemberTables
  import opened ImportFence
  import opened CoreImport
  import opened ImportVerdict
  import MI = ModelIntent
  import FG = FailoverGroups

  datatype OwnAutoGroup = OwnAutoGroup(priority: seq<Id>, enabled: map<Id, bool>)

  datatype GroupApplyResult = GroupApplyResult(skipped: seq<string>, partial: seq<string>)

  lemma SomeFreshId(ids: set<Id>)
    ensures exists id: Id :: id !in ids
  {
    var top := TopId(ids);
    assert top + 1 !in ids;
  }

  lemma TopId(ids: set<Id>) returns (top: Id)
    ensures forall id :: id in ids ==> id <= top
  {
    top := 0;
    if id :| id in ids {
      var t := TopId(ids - {id});
      top := if t < id then id else t;
      assert forall i :: i in ids ==> i == id || i in ids - {id};
    }
  }

  /** What one own auto row reads as: its order, and a toggle for every entry of it. */
  ghost predicate ReadsOwn(row: GroupRow, own: OwnAutoGroup) {
    && FG.Usable(Some(row))
    && own.priority == row.priority.value
    && forall x :: x in own.priority ==> x in own.enabled && own.enabled[x] == FG.OwnToggle(row, x)
  }

  class ConfigSyncHandler {
    var providers: map<Id, ProviderRow>
    var models: map<Id, ModelRow>
    var groups: map<string, GroupRow>
    var users: map<Id, UserRow>
    var keys: map<string, KeyRow>
    var settings: map<string, string>
    var unappliedDisables: Option<seq<ModelRef>>
    var unappliedEnables: Option<seq<ModelRef>>
    var autoEcho: Option<seq<ExportGroup>>
    var importSeq: StoredNumber
    var sourceGen: StoredNumber
    const policy: Policy

    function Snapshot(): Member
      reads this
    {
      Member(providers, models, groups, users, keys, settings, unappliedDisables, unappliedEnables,
             autoEcho, importSeq, sourceGen)
    }

    constructor (db: Member, policy: Policy)
      ensures Snapshot() == db && this.policy == policy
    {
      providers, models, groups, users, keys, settings :=
        db.providers, db.models, db.groups, db.users, db.keys, db.settings;
      unappliedDisables, unappliedEnables, autoEcho, importSeq, sourceGen :=
        db.unappliedDisables, db.unappliedEnables, db.autoEcho, db.importSeq, db.sourceGen;
      this.policy := policy;
    }

    /** A transaction rolled back. */
    method Rollback(db: Member)
      modifies this
      ensures Snapshot() == db
    {
      providers, models, groups, users, keys, settings :=
        db.providers, db.models, db.groups, db.users, db.keys, db.settings;
      unappliedDisables, unappliedEnables, autoEcho, importSeq, sourceGen :=
        db.unappliedDisables, db.unappliedEnables, db.autoEcho, db.importSeq, db.sourceGen;
    }

    // --- Per-model sections ---

    method AbsentModelRefs(refs: seq<ModelRef>) returns (absent: seq<ModelRef>)
      ensures absent == MI.Absent(Snapshot(), refs)
    {
      var db := Snapshot();
      var rows := set id | id in models && MI.Named(db.RefOf(id), refs);
      var present: set<ModelRef> := {};
      ghost var all := rows;
      while rows != {}
        invariant rows <= all
        invariant forall r :: r in present <==> exists id :: id in all - rows && db.RefOf(id) == Some(r)
      {
        var id :| id in rows;
        ghost var was := present;
        present := present + {db.RefOf(id).value};
        rows := rows - {id};
        assert all - rows == (all - (rows + {id})) + {id};
      }
      assert all - rows == all;
      absent := [];
      for i := 0 to |refs|
        invariant absent == MI.Absent(db, refs[..i])
      {
        assert refs[..i + 1][..i] == refs[..i];
        assert db.Present(refs[i]) <==> refs[i] in present;
        if refs[i] !in present {
          absent := absent + [refs[i]];
        }
      }
      assert refs[..|refs|] == refs;
    }

    method StringsOf(refs: seq<ModelRef>) returns (out: seq<string>)
      ensures out == MI.Strings(refs)
    {
      out := [];
      for i := 0 to |refs|
        invariant out == MI.Strings(refs[..i])
      {
        assert refs[..i + 1][..i] == refs[..i];
        out := out + [refs[i].ToString()];
      }
      assert refs[..|refs|] == refs;
    }

    /** Reconciles the operator-disabled models; writes nothing once a later import has committed. */
    method ApplyDisabledModels(refs: Option<seq<ModelRef>>, seqNo: int) returns (r: Result<seq<string>, ImportError>)
      modifies this
      ensures refs.None? ==> r == Success([]) && Snapshot() == old(Snapshot())
      ensures refs.Some? && ReadSeq(old(importSeq)) != seqNo ==> r == Failure(Superseded) && Snapshot() == old(Snapshot())
      ensures refs.Some? && ReadSeq(old(importSeq)) == seqNo ==>
                && Snapshot() == MI.DisableSection(old(Snapshot()), refs.value)
                && r == Success(MI.Strings(MI.Absent(old(Snapshot()), refs.value)))
    {
      if refs.None? {
        return Success([]);
      }
      if ReadSeq(importSeq) != seqNo {
        return Failure(Superseded);
      }
      var wanted := refs.value;
      var db := Snapshot();
      models := map id | id in models ::
        if MI.Named(db.RefOf(id), wanted) then models[id].(enabled := false, disabledManually := true) else models[id];
      models := map id | id in models ::
        if db.RefOf(id).Some? && models[id].disabledManually && !MI.Named(db.RefOf(id), wanted) then
          models[id].(enabled := true, disabledManually := false, autoRetiredAt := None, discoveryDismissedAt := None)
        else models[id];
      assert models == MI.DisableSection(db, wanted).models;
      MI.DisableKeepsJoin(db, wanted);
      var absent := AbsentModelRefs(wanted);
      MI.AbsentSame(Snapshot(), db, wanted) by {
        forall ref ensures Snapshot().Present(ref) <==> db.Present(ref) {
          SamePresent(Snapshot(), MI.DisableSection(db, wanted), ref);
        }
      }
      unappliedDisables := Some(absent);
      var out := StringsOf(absent);
      return Success(out);
    }

    /** Reconciles the manual-enable pins, on the same terms. */
    method ApplyEnabledModels(refs: Option<seq<ModelRef>>, seqNo: int, now: int) returns (r: Result<seq<string>, ImportError>)
      modifies this
      ensures refs.None? ==> r == Success([]) && Snapshot() == old(Snapshot())
      ensures refs.Some? && ReadSeq(old(importSeq)) != seqNo ==> r == Failure(Superseded) && Snapshot() == old(Snapshot())
      ensures refs.Some? && ReadSeq(old(importSeq)) == seqNo ==>
                && Snapshot() == MI.PinSection(old(Snapshot()), refs.value, now)
                && r == Success(MI.Strings(MI.Absent(old(Snapshot()), refs.value)))
    {
      if refs.None? {
        return Success([]);
      }
      if ReadSeq(importSeq) != seqNo {
        return Failure(Superseded);
      }
      var wanted := refs.value;
      var db := Snapshot();
      models := map id | id in models ::
        if MI.Named(db.RefOf(id), wanted) then
          models[id].(enabled := true, disabledManually := false, autoRetiredAt := None, discoveryDismissedAt := None,
                      missingScans := 0,
                      manuallyEnabledAt := if models[id].manuallyEnabledAt.Some? then models[id].manuallyEnabledAt else Some(now))
        else models[id];
      models := map id | id in models ::
        if db.RefOf(id).Some? && models[id].manuallyEnabledAt.Some? && !MI.Named(db.RefOf(id), wanted) then
          models[id].(manuallyEnabledAt := None, missingScans := 0)
        else models[id];
      assert models == MI.PinSection(db, wanted, now).models;
      MI.PinKeepsJoin(db, wanted, now);
      var absent := AbsentModelRefs(wanted);
      MI.AbsentSame(Snapshot(), db, wanted) by {
        forall ref ensures Snapshot().Present(ref) <==> db.Present(ref) {
          SamePresent(Snapshot(), MI.PinSection(db, wanted, now), ref);
        }
      }
      unappliedEnables := Some(absent);
      var out := StringsOf(absent);
      return Success(out);
    }

    // --- Failover groups ---

    /** Every joined model row, by ref and by id, with its effective enabled state. */
    method ReadLocalModels() returns (byRef: map<ModelRef, (Id, bool)>, enabledById: map<Id, bool>)
      requires Constrained(Snapshot())
      ensures forall ref :: ref in byRef <==> Snapshot().Present(ref)
      ensures forall ref :: ref in byRef ==>
                byRef[ref] == (FG.LocalId(Snapshot(), ref), Snapshot().Routable(FG.LocalId(Snapshot(), ref)))
      ensures forall id :: (id in enabledById && enabledById[id]) <==> Snapshot().Routable(id)
    {
      var db := Snapshot();
      ConstrainedRefsUnique(db);
      byRef, enabledById := map[], map[];
      var rows := set id | id in models && db.RefOf(id).Some?;
      ghost var all := rows;
      while rows != {}
        invariant rows <= all
        invariant forall ref :: ref in byRef <==> exists id :: id in all - rows && db.RefOf(id) == Some(ref)
        invariant forall id :: id in all - rows ==>
                    db.RefOf(id).value in byRef && byRef[db.RefOf(id).value] == (id, db.Routable(id))
        invariant enabledById.Keys == all - rows
        invariant forall id :: id in enabledById ==> enabledById[id] == db.Routable(id)
      {
        var id :| id in rows;
        byRef := byRef[db.RefOf(id).value := (id, db.Routable(id))];
        enabledById := enabledById[id := db.Routable(id)];
        rows := rows - {id};
      }
      assert all - rows == all;
      forall ref | ref in byRef
        ensures byRef[ref] == (FG.LocalId(db, ref), db.Routable(FG.LocalId(db, ref)))
      {
        assert FG.LocalId(db, ref) in all;
      }
    }

    /** This member's own auto groups, by name; a row that does not parse is passed over. */
    method ReadOwnAutoGroups() returns (own: map<string, OwnAutoGroup>)
      ensures forall name :: name in own <==> FG.Usable(FG.Lookup(groups, name))
      ensures forall name :: name in own ==>
                name in groups && ReadsOwn(groups[name], own[name])
    {
      own := map[];
      var names := set name | name in groups && groups[name].autoCreated;
      ghost var all := names;
      while names != {}
        invariant names <= all
        invariant forall name :: name in own <==> name in all - names && FG.Usable(Some(groups[name]))
        invariant forall name :: name in own ==>
                    name in groups && ReadsOwn(groups[name], own[name])
      {
        var name :| name in names;
        names := names - {name};
        var row := groups[name];
        if row.priority.None? || row.entryEnabled.None? {
          continue;
        }
        var priority, enabled := row.priority.value, row.entryEnabled.value;
        for i := 0 to |priority|
          invariant forall x :: x in priority[..i] ==> x in enabled
          invariant row.entryEnabled.value.Keys <= enabled.Keys
          invariant forall x :: x in enabled ==> enabled[x] == FG.OwnToggle(row, x)
        {
          if priority[i] !in enabled {
            enabled := enabled[priority[i] := true];
          }
        }
        own := own[name := OwnAutoGroup(priority, enabled)];
      }
    }

    /** A group's entries resolved against this member, in order. */
    method ResolveEntries(g: ExportGroup, byRef: map<ModelRef, (Id, bool)>, ghost db: Member)
      returns (priority: seq<Id>, toggles: map<Id, bool>)
      requires forall ref :: ref in byRef <==> db.Present(ref)
      requires forall ref :: ref in byRef ==> byRef[ref] == (FG.LocalId(db, ref), db.Routable(FG.LocalId(db, ref)))
      ensures priority == FG.Sent(db, g.entries, g.autoCreated)
      ensures toggles == FG.SentToggles(db, g.entries, g.autoCreated)
    {
      priority, toggles := [], map[];
      for j := 0 to |g.entries|
        invariant priority == FG.Sent(db, g.entries[..j], g.autoCreated)
        invariant toggles == FG.SentToggles(db, g.entries[..j], g.autoCreated)
      {
        assert g.entries[..j + 1][..j] == g.entries[..j];
        var e := g.entries[j];
        if e.ref !in byRef || (g.autoCreated && !byRef[e.ref].1) {
          continue;
        }
        priority := priority + [byRef[e.ref].0];
        toggles := toggles[byRef[e.ref].0 := e.enabled];
      }
      assert g.entries[..|g.entries|] == g.entries;
    }

    /** The member's own enabled entries the group was not sent, appended with their toggles. */
    method AppendExtras(sent: seq<Id>, sentToggles: map<Id, bool>, mine: OwnAutoGroup, enabledById: map<Id, bool>,
                        ghost db: Member, ghost row: GroupRow)
      returns (priority: seq<Id>, toggles: map<Id, bool>)
      requires forall id :: (id in enabledById && enabledById[id]) <==> db.Routable(id)
      requires ReadsOwn(row, mine)
      ensures var extras := FG.Extras(db, mine.priority, sentToggles.Keys);
              && priority == sent + extras
              && toggles == sentToggles + map x | x in extras :: FG.OwnToggle(row, x)
    {
      priority, toggles := sent, sentToggles;
      ghost var extras: seq<Id> := [];
      for j := 0 to |mine.priority|
        invariant extras == FG.Extras(db, mine.priority[..j], sentToggles.Keys)
        invariant priority == sent + extras
        invariant toggles == sentToggles + map x | x in extras :: FG.OwnToggle(row, x)
      {
        assert mine.priority[..j + 1][..j] == mine.priority[..j];
        var x := mine.priority[j];
        if x in toggles || !(x in enabledById && enabledById[x]) {
          continue;
        }
        ExtraTaken(sentToggles, extras, row, x);
        priority := priority + [x];
        toggles := toggles[x := mine.enabled[x]];
        extras := extras + [x];
      }
      assert mine.priority[..|mine.priority|] == mine.priority;
    }

    /** One group's entries resolved against this member, its own extras behind them. */
    method FillGroup(g: ExportGroup, byRef: map<ModelRef, (Id, bool)>, enabledById: map<Id, bool>, own: map<string, OwnAutoGroup>,
                     ghost db: Member)
      returns (f: FG.Filling)
      requires forall ref :: ref in byRef <==> db.Present(ref)
      requires forall ref :: ref in byRef ==> byRef[ref] == (FG.LocalId(db, ref), db.Routable(FG.LocalId(db, ref)))
      requires forall id :: (id in enabledById && enabledById[id]) <==> db.Routable(id)
      requires g.displayModel in own <==> FG.Usable(FG.Lookup(db.groups, g.displayModel))
      requires g.displayModel in own ==> ReadsOwn(db.groups[g.displayModel], own[g.displayModel])
      ensures f == FG.Fill(db, g)
    {
      var priority, toggles := ResolveEntries(g, byRef, db);
      if g.autoCreated && g.displayModel in own {
        priority, toggles := AppendExtras(priority, toggles, own[g.displayModel], enabledById, db, db.groups[g.displayModel]);
      }
      return FG.Filling(priority, toggles);
    }

    /** Upserts every group that can be filled with two entries or more. */
    method UpsertFailoverGroups(gs: seq<ExportGroup>) returns (res: GroupApplyResult)
      requires Constrained(Snapshot())
      modifies `groups
      ensures groups == FG.Upserted(old(Snapshot()), gs)
      ensures res == GroupApplyResult(FG.Skipped(old(Snapshot()), gs), FG.Partial(old(Snapshot()), gs))
    {
      ghost var db := Snapshot();
      var byRef, enabledById := ReadLocalModels();
      var own := ReadOwnAutoGroups();
      res := GroupApplyResult([], []);
      for k := 0 to |gs|
        invariant groups == FG.Upserted(db, gs[..k])
        invariant res == GroupApplyResult(FG.Skipped(db, gs[..k]), FG.Partial(db, gs[..k]))
      {
        assert gs[..k + 1][..k] == gs[..k];
        var g := gs[k];
        var f := FillGroup(g, byRef, enabledById, own, db);
        if |f.priority| < 2 {
          if !g.autoCreated {
            res := res.(skipped := res.skipped + [g.displayModel]);
          }
          continue;
        }
        if !g.autoCreated && |f.priority| < |g.entries| {
          res := res.(partial := res.partial + [g.displayModel]);
        }
        WriteGroup(g, f);
      }
      assert gs[..|gs|] == gs;
    }

    /** INSERT ... ON CONFLICT (display_model). */
    method WriteGroup(g: ExportGroup, f: FG.Filling)
      modifies `groups
      ensures groups == old(groups)[g.displayModel := FG.UpsertedRow(FG.Lookup(old(groups), g.displayModel), g, f)]
    {
      var stamp := if g.displayModel !in groups || g.groupEnabled || g.autoCreated
                   then None else groups[g.displayModel].autoDisabledAt;
      groups := groups[g.displayModel := GroupRow(Some(f.priority), Some(f.toggles), g.groupEnabled, g.displayName,
                                                  g.description, g.autoCreated, stamp)];
    }

    /** Builds the envelope's groups, deletes the custom ones it does not name, and stores the echo. */
    method ApplyFailoverGroups(gs: Option<seq<ExportGroup>>, storeEcho: bool, seqNo: int)
      returns (r: Result<GroupApplyResult, ImportError>)
      requires Constrained(Snapshot())
      modifies this
      ensures gs.None? ==> r == Success(GroupApplyResult([], [])) && Snapshot() == old(Snapshot())
      ensures gs.Some? && ReadSeq(old(importSeq)) != seqNo ==> r == Failure(Superseded) && Snapshot() == old(Snapshot())
      ensures gs.Some? && ReadSeq(old(importSeq)) == seqNo ==>
                && Snapshot() == FG.GroupSection(old(Snapshot()), gs.value, storeEcho)
                && r == Success(GroupApplyResult(FG.Skipped(old(Snapshot()), gs.value), FG.Partial(old(Snapshot()), gs.value)))
    {
      if gs.None? {
        return Success(GroupApplyResult([], []));
      }
      if ReadSeq(importSeq) != seqNo {
        return Failure(Superseded);
      }
      var all := gs.value;
      var res := UpsertFailoverGroups(all);
      var customNames: seq<string>, sent: seq<ExportGroup> := [], [];
      for k := 0 to |all|
        invariant customNames == FG.CustomNames(all[..k])
        invariant sent == FG.AutoGroups(all[..k])
      {
        assert all[..k + 1][..k] == all[..k];
        if all[k].autoCreated {
          sent := sent + [all[k]];
        } else {
          customNames := customNames + [all[k].displayModel];
        }
      }
      assert all[..|all|] == all;
      groups := map name | name in groups && (groups[name].autoCreated || name in customNames) :: groups[name];
      autoEcho := if storeEcho then Some(sent) else None;
      return Success(res);
    }

    // --- The import transaction ---

    /** Refuses an envelope in which two providers are one name once spaces become hyphens. */
    method ValidateSyncedProviderNames(ps: seq<ExportProvider>) returns (ok: bool)
      ensures ok <==> NormDistinct(ps)
    {
      var seen: set<string> := {};
      for k := 0 to |ps|
        invariant NormDistinct(ps[..k])
        invariant forall n :: n in seen <==> exists j :: 0 <= j < k && NormalizeName(ps[j].name) == n
      {
        var normalized := NormalizeName(ps[k].name);
        if normalized in seen {
          return false;
        }
        seen := seen + {normalized};
      }
      assert ps[..|ps|] == ps;
      return true;
    }

    /** One provider: rename the local twin, then insert or update by raw name, then
        release the capability pins a re-type drops. */
    method UpsertProvider(p: ExportProvider) returns (r: Result<Id, ImportError>)
      requires ProviderNamesUnique(providers)
      modifies `providers, `models
      ensures r.Failure? <==> !policy.providerOk(p)
      ensures r.Failure? ==> r.error == InvalidProvider
      ensures r.Success? ==>
                && ProviderUpsertedAt(policy, old(providers), p, r.value, providers)
                && models == if policy.operatorServed(policy.providerType(p)) then old(models) else ReleasedOf(old(models), r.value)
    {
      if !policy.providerOk(p) {
        return Failure(InvalidProvider);
      }
      ghost var before := providers;
      RenamedKeepsNames(before, p.name);
      var renamed := RenameTwin(p);
      // Neither statement is refused: the rename respells at most one row, and leaves the
      // insert no other spelling to collide with.
      assert renamed.Success?;
      var written := InsertOrUpdateProvider(p);
      assert written.Success? by {
        if Holds(Renamed(before, p.name), p.name) { RenamedIsRaw(before, p.name); }
      }
      var id := written.value;
      RenamedThenWritten(policy, before, p, id, providers);
      if !policy.operatorServed(policy.providerType(p)) {
        models := map m | m in models ::
          if models[m].provider == id then models[m].(capabilitiesCustomized := false) else models[m];
      }
      return Success(id);
    }

    /** UPDATE ... WHERE the normalized names agree and the raw ones do not. The unique index on
        the normalized name (migration 082) refuses a table with two such rows. */
    method RenameTwin(p: ExportProvider) returns (r: Result<(), ImportError>)
      modifies `providers
      ensures r.Failure? ==> r.error == ProviderNameTaken && providers == old(providers)
      ensures r.Failure? <==> exists i, j :: i in old(providers) && j in old(providers) && i != j
                                             && SameName(old(providers)[i].name, p.name) && SameName(old(providers)[j].name, p.name)
      ensures r.Success? ==> providers == Renamed(old(providers), p.name)
    {
      if i, j :| i in providers && j in providers && i != j
                 && NormalizeName(providers[i].name) == NormalizeName(p.name)
                 && NormalizeName(providers[j].name) == NormalizeName(p.name) {
        assert SameName(providers[i].name, p.name) && SameName(providers[j].name, p.name);
        return Failure(ProviderNameTaken);
      }
      providers := map id | id in providers ::
        if NormalizeName(providers[id].name) == NormalizeName(p.name) && providers[id].name != p.name
        then providers[id].(name := p.name) else providers[id];
      return Success(());
    }

    /** INSERT ... ON CONFLICT (name): a row of the raw name is updated; a new row is refused by
        the normalized index while any other spelling of its name is held. */
    method InsertOrUpdateProvider(p: ExportProvider) returns (r: Result<Id, ImportError>)
      modifies `providers
      ensures r.Failure? ==> r.error == ProviderNameTaken && providers == old(providers)
      ensures r.Failure? <==> Holds(old(providers), p.name) && forall id :: id in old(providers) ==> old(providers)[id].name != p.name
      ensures r.Success? ==>
                && (r.value in old(providers) ==> old(providers)[r.value].name == p.name)
                && (r.value !in old(providers) ==> !Holds(old(providers), p.name))
                && providers == old(providers)[r.value := WrittenProvider(policy, p,
                     if r.value in old(providers) then old(providers)[r.value].quotaReserve else 0)]
    {
      if hit :| hit in providers && providers[hit].name == p.name {
        providers := providers[hit := WrittenProvider(policy, p, providers[hit].quotaReserve)];
        return Success(hit);
      }
      if twin :| twin in providers && NormalizeName(providers[twin].name) == NormalizeName(p.name) {
        assert SameName(providers[twin].name, p.name);
        return Failure(ProviderNameTaken);
      }
      SomeFreshId(providers.Keys);
      var id :| id !in providers.Keys;
      providers := providers[id := WrittenProvider(policy, p, 0)];
      return Success(id);
    }

    /** Provider k of the list, on top of those before it. */
    method UpsertNext(ps: seq<ExportProvider>, k: nat, ghost before: map<Id, ProviderRow>, ghost held: map<Id, ModelRow>)
      returns (r: Result<Id, ImportError>)
      requires k < |ps| && NormDistinct(ps) && ProvidersUpserted(policy, before, ps[..k], providers)
      requires models == ReleasedModels(policy, ps[..k], providers, held)
      requires forall i :: i in held ==> held[i].provider in before
      modifies `providers, `models
      ensures r.Failure? <==> !policy.providerOk(ps[k])
      ensures r.Failure? ==> r.error == InvalidProvider
      ensures r.Success? ==> ProvidersUpserted(policy, before, ps[..k + 1], providers)
      ensures r.Success? ==> models == ReleasedModels(policy, ps[..k + 1], providers, held)
    {
      ghost var mid := providers;
      r := UpsertProvider(ps[k]);
      if r.Success? {
        OneMoreProvider(policy, before, held, ps, k, mid, r.value, providers, models);
      }
    }

    method UpsertProviders(ps: seq<ExportProvider>) returns (r: Result<(), ImportError>)
      requires ProviderNamesUnique(providers) && NormDistinct(ps)
      requires forall i :: i in models ==> models[i].provider in providers
      modifies `providers, `models
      ensures r.Failure? ==> r.error == InvalidProvider
      ensures r.Success? <==> forall k :: 0 <= k < |ps| ==> policy.providerOk(ps[k])
      ensures r.Success? ==>
                && ProvidersUpserted(policy, old(providers), ps, providers)
                && models == ReleasedModels(policy, ps, providers, old(models))
    {
      ghost var before, held := providers, models;
      NothingUpserted(policy, before);
      assert ps[..0] == [];
      ReleasedNone(policy, ps[..0], providers, models);
      for k := 0 to |ps|
        invariant ProvidersUpserted(policy, before, ps[..k], providers)
        invariant models == ReleasedModels(policy, ps[..k], providers, held)
        invariant forall j :: 0 <= j < k ==> policy.providerOk(ps[j])
      {
        var step := UpsertNext(ps, k, before, held);
        if step.Failure? {
          return Failure(step.error);
        }
      }
      assert ps[..|ps|] == ps;
      return Success(());
    }

    /** The declarative delete, its cascade into models, and the pruned allow lists. */
    method DeleteAbsentProviders(ps: seq<ExportProvider>)
      modifies `providers, `models, `users, `keys
      ensures providers == Kept(ps, old(providers))
      ensures models == Cascaded(providers, old(models))
      ensures users == PrunedUsers(old(users), old(providers).Keys - providers.Keys)
      ensures keys == PrunedKeys(old(keys), old(providers).Keys - providers.Keys)
    {
      var names := set k | 0 <= k < |ps| :: ps[k].name;
      var deleted := set id | id in providers && providers[id].name !in names;
      providers := map id | id in providers && providers[id].name in names :: providers[id];
      assert providers == Kept(ps, old(providers));
      assert deleted == old(providers).Keys - providers.Keys;
      models := map id | id in models && models[id].provider in providers :: models[id];
      if deleted == {} {
        PrunedNone(users, keys);
        return;
      }
      keys := map h | h in keys :: keys[h].(allowedProviders := PrunedList(keys[h].allowedProviders, deleted));
      users := map id | id in users :: users[id].(allowedProviders := PrunedList(users[id].allowedProviders, deleted));
    }

    /** A list of names as this member's ids, the unresolvable dropped. */
    method TranslateIds(names: seq<string>, lookup: map<string, Id>) returns (ids: seq<Id>)
      ensures ids == Translated(names, lookup)
    {
      ids := [];
      for k := 0 to |names|
        invariant ids == Translated(names[..k], lookup)
      {
        assert names[..k + 1][..k] == names[..k];
        if names[k] in lookup {
          ids := ids + [lookup[names[k]]];
        }
      }
      assert names[..|names|] == names;
    }

    /** One account: refused when it is invalid, when its stated cap resolves to nothing
        although it names something, or when another account holds its address. */
    method UpsertUser(u: ExportUser, lookup: map<string, Id>, taken: set<Id>) returns (r: Result<Id, ImportError>)
      requires UsernamesUnique(users)
      modifies `users
      ensures r.Failure? ==> users == old(users)
      ensures r.Failure? ==>
                r.error == if !policy.userOk(u) then InvalidUser
                           else if CapRefused(u, lookup.Keys) then UnresolvableUserProviders(u.username)
                           else EmailTaken
      ensures r.Success? <==> policy.userOk(u) && !CapRefused(u, lookup.Keys) && !EmailHeld(old(users), u)
      ensures r.Success? ==>
                && UserWrittenAt(old(users), u, lookup, r.value, users)
                && (r.value in old(users) || r.value !in taken)
    {
      if !policy.userOk(u) {
        return Failure(InvalidUser);
      }
      var cap: Option<seq<Id>> := None;
      if u.allowedProviderNames.Some? {
        var resolved := TranslateIds(u.allowedProviderNames.value, lookup);
        NothingResolves(u.allowedProviderNames.value, lookup);
        if |resolved| == 0 && |u.allowedProviderNames.value| > 0 {
          return Failure(UnresolvableUserProviders(u.username));
        }
        cap := Some(resolved);
      }
      if u.email.Some? {
        if holder :| holder in users && users[holder].username != u.username && users[holder].email == u.email {
          return Failure(EmailTaken);
        }
      }
      var id: Id;
      if hit :| hit in users && users[hit].username == u.username {
        id := hit;
        users := users[id := UserRow(u.username, u.email, u.fields, cap, users[id].ssoIdentity)];
      } else {
        SomeFreshId(users.Keys + taken);
        id :| id !in users.Keys + taken;
        users := users[id := UserRow(u.username, u.email, u.fields, cap, None)];
      }
      return Success(id);
    }

    method Usernames(list: seq<ExportUser>) returns (usernames: seq<string>)
      ensures forall name :: name in usernames <==> ListsUsername(list, name)
    {
      usernames := [];
      for k := 0 to |list|
        invariant forall name :: name in usernames <==> ListsUsername(list[..k], name)
      {
        assert list[..k + 1] == list[..k] + [list[k]];
        forall name ensures ListsUsername(list[..k + 1], name) <==> ListsUsername(list[..k], name) || list[k].username == name {
          ListsUsernameStep(list[..k], list[k], name);
        }
        usernames := usernames + [list[k].username];
      }
      assert list[..|list|] == list;
    }

    /** The declarative delete; a deleted account's keys are left to nobody (ON DELETE SET NULL). */
    method DeleteAbsentUsers(usernames: seq<string>)
      modifies `users, `keys
      ensures users == map id | id in old(users) && old(users)[id].username in usernames :: old(users)[id]
      ensures keys == Disowned(old(keys), old(users).Keys - users.Keys)
    {
      var deleted := set id | id in users && users[id].username !in usernames;
      users := map id | id in users && users[id].username in usernames :: users[id];
      assert deleted == old(users).Keys - users.Keys;
      keys := map h | h in keys ::
        if keys[h].owner.Some? && keys[h].owner.value in deleted then keys[h].(owner := None) else keys[h];
    }

    /** Converges the accounts: absent ones go, every address is blanked, then each is written. */
    method ApplyUsers(us: Option<seq<ExportUser>>, lookup: map<string, Id>) returns (r: Result<(), ImportError>)
      requires UsernamesUnique(users)
      modifies `users, `keys
      ensures us.None? ==> r == Success(()) && users == old(users)
      ensures r.Success? ==> keys == Disowned(old(keys), old(users).Keys - users.Keys)
      ensures us.Some? && r.Success? ==> UsersConverged(old(users), us.value, lookup, users)
      ensures us.Some? ==> (r.Success? <==> UsersFine(policy, us.value, lookup.Keys))
      ensures r.Failure? ==> us.Some? && UsersRefused(policy, us.value, lookup.Keys, r.error)
    {
      if us.None? {
        DisownedNone(keys, users.Keys - users.Keys);
        return Success(());
      }
      var list := us.value;
      ghost var before := users;
      var taken := users.Keys;
      var usernames := Usernames(list);
      DeleteAbsentUsers(usernames);
      users := map id | id in users :: users[id].(email := None);
      ghost var start := users;
      assert start == BlankedUsers(before, usernames);
      var upserts := UpsertUsers(list, lookup, taken);
      if upserts.Failure? {
        return Failure(upserts.error);
      }
      UsersConverge(before, usernames, list, lookup, users);
      assert start.Keys <= users.Keys by {
        assert forall id :: id in start ==> id in users;
      }
      SameGone(before, start, users);
      return Success(());
    }

    method UpsertUsers(list: seq<ExportUser>, lookup: map<string, Id>, taken: set<Id>) returns (r: Result<(), ImportError>)
      requires UsernamesUnique(users) && users.Keys <= taken && forall id :: id in users ==> users[id].email.None?
      modifies `users
      ensures r.Success? ==> UsersUpserted(old(users), list, lookup, users)
      ensures r.Success? ==> forall id :: id in users && id !in old(users) ==> id !in taken
      ensures r.Success? <==> UsersFine(policy, list, lookup.Keys)
      ensures r.Failure? ==> UsersRefused(policy, list, lookup.Keys, r.error)
    {
      ghost var start := users;
      for k := 0 to |list|
        invariant UsersUpserted(start, list[..k], lookup, users)
        invariant forall id :: id in users && id !in start ==> id !in taken
        invariant forall j :: 0 <= j < k ==> UserFine(policy, list, lookup.Keys, j)
      {
        ghost var mid := users;
        HeldIsClash(start, list, lookup, users, k);
        var step := UpsertUser(list[k], lookup, taken);
        if step.Failure? {
          assert FirstRefusedAt(policy, list, lookup.Keys, k, step.error);
          return Failure(step.error);
        }
        NextUser(start, list, lookup, mid, k, step.value, users);
      }
      assert list[..|list|] == list;
      return Success(());
    }

    /** Upserts every key whose stated cap resolves here, skipping the others. */
    method UpsertVirtualKeys(vks: seq<ExportKey>, lookup: map<string, Id>, owners: map<string, Id>)
      returns (r: Result<(), ImportError>)
      modifies `keys
      ensures r.Success? <==> forall k :: 0 <= k < |vks| ==> policy.keyOk(vks[k])
      ensures r.Failure? ==> r.error == InvalidKey
      ensures r.Success? ==> keys == UpsertedKeys(old(keys), vks, lookup, owners)
    {
      ghost var before := keys;
      for k := 0 to |vks|
        invariant keys == UpsertedKeys(before, vks[..k], lookup, owners)
        invariant forall j :: 0 <= j < k ==> policy.keyOk(vks[j])
      {
        assert vks[..k + 1][..k] == vks[..k];
        var v := vks[k];
        if !policy.keyOk(v) {
          return Failure(InvalidKey);
        }
        var allowed: Option<seq<Id>> := None;
        if v.allowedProviderNames.Some? {
          var ids := TranslateIds(v.allowedProviderNames.value, lookup);
          NothingResolves(v.allowedProviderNames.value, lookup);
          allowed := Some(ids);
        }
        if allowed.Some? && |allowed.value| == 0 {
          continue;
        }
        var owner: Option<Id> := None;
        if v.ownerUsername.Some? && v.ownerUsername.value in owners {
          owner := Some(owners[v.ownerUsername.value]);
        }
        keys := keys[v.keyHash := KeyRow(v.fields, allowed, owner)];
      }
      assert vks[..|vks|] == vks;
      return Success(());
    }

    /** Each retired switch that reads false becomes a zero ceiling, on a copy. */
    method FoldRetiredBreakerSwitches(want: map<string, string>) returns (folded: map<string, string>)
      ensures IsFold(want, folded)
    {
      var out: Option<map<string, string>> := None;
      var todo := RETIRED_SWITCHES.Keys;
      while todo != {}
        invariant todo <= RETIRED_SWITCHES.Keys
        invariant out.None? ==> forall legacy :: legacy in RETIRED_SWITCHES.Keys - todo ==> !SwitchedOff(want, legacy)
        invariant out.Some? ==> forall key ::
                    if (key == QUOTA_PIN_MAX && QUOTA_PIN_SWITCH !in todo && SwitchedOff(want, QUOTA_PIN_SWITCH))
                       || (key == BACKOFF_MAX && BACKOFF_SWITCH !in todo && SwitchedOff(want, BACKOFF_SWITCH))
                    then key in out.value && out.value[key] == "0s"
                    else (key in out.value <==> key in want) && (key in want ==> out.value[key] == want[key])
      {
        var legacy :| legacy in todo;
        todo := todo - {legacy};
        if legacy !in want || want[legacy] !in FALSE_SPELLINGS {
          continue;
        }
        if out.None? {
          out := Some(want);
        }
        out := Some(out.value[RETIRED_SWITCHES[legacy] := "0s"]);
      }
      return if out.Some? then out.value else want;
    }

    /** Converges the syncable settings to the folded map; other rows are not touched. */
    method ApplySettings(want: map<string, string>) returns (r: Result<(), ImportError>)
      modifies `settings
      ensures r.Success? <==> forall key :: key in want && Syncable(policy, key) ==> policy.settingOk(key, want[key])
      ensures r.Failure? ==> r.error == InvalidSetting
      ensures r.Success? ==> forall key ::
                if Syncable(policy, key) then (key in settings <==> key in want) && (key in want ==> settings[key] == want[key])
                else (key in settings <==> key in old(settings)) && (key in old(settings) ==> settings[key] == old(settings)[key])
    {
      ghost var before := settings;
      var todo := want.Keys;
      while todo != {}
        invariant todo <= want.Keys
        invariant forall key :: key in want.Keys - todo && Syncable(policy, key) ==> policy.settingOk(key, want[key])
        invariant forall key :: if key in want && key !in todo && Syncable(policy, key)
                                then key in settings && settings[key] == want[key]
                                else (key in settings <==> key in before) && (key in before ==> settings[key] == before[key])
      {
        var key :| key in todo;
        todo := todo - {key};
        if !Syncable(policy, key) {
          continue;
        }
        if !policy.settingOk(key, want[key]) {
          return Failure(InvalidSetting);
        }
        settings := settings[key := want[key]];
      }
      settings := map key | key in settings && !(Syncable(policy, key) && key !in want) :: settings[key];
      return Success(());
    }

    /** Upserts, then the declarative delete: the provider table and what hangs off it. */
    method ReplaceProviders(ps: seq<ExportProvider>) returns (r: Result<(), ImportError>)
      requires ProviderNamesUnique(providers) && ModelsKeyed(providers, models) && NormDistinct(ps)
      modifies `providers, `models, `users, `keys
      ensures r.Failure? ==> r.error == InvalidProvider
      ensures r.Success? <==> ProvidersFit(policy, ps)
      ensures r.Success? ==>
                && ProvidersConverged(policy, old(providers), ps, providers)
                && models == Cascaded(providers, ReleasedModels(policy, ps, providers, old(models)))
                && users == PrunedUsers(old(users), old(providers).Keys - providers.Keys)
                && keys == PrunedKeys(old(keys), old(providers).Keys - providers.Keys)
    {
      ghost var before, held := providers, models;
      var upserts := UpsertProviders(ps);
      if upserts.Failure? {
        return Failure(upserts.error);
      }
      ghost var upserted := providers;
      DeleteAbsentProviders(ps);
      DeleteConverges(policy, before, ps, upserted);
      GoneAreOld(policy, before, ps, upserted);
      CascadeAfterRelease(policy, ps, upserted, held);
      return Success(());
    }

    /** Upserts, then the declarative delete, then the rail that some key must be left. */
    method ReplaceKeys(vks: seq<ExportKey>, lookup: map<string, Id>, owners: map<string, Id>, mustSurvive: bool)
      returns (r: Result<(), ImportError>)
      requires mustSurvive ==> keys != map[] && vks != []
      modifies `keys
      ensures r == Failure(InvalidKey) <==> !KeysFit(policy, vks)
      ensures r == Failure(WouldWipeKeys) <==> KeysFit(policy, vks) && mustSurvive && KeysEmptied(old(keys).Keys, vks, lookup.Keys)
      ensures r.Failure? ==> r.error in {InvalidKey, WouldWipeKeys}
      ensures r.Success? ==> keys == ReplacedKeys(old(keys), vks, lookup, owners) && (mustSurvive ==> keys != map[])
    {
      ghost var before := keys;
      var keyed := UpsertVirtualKeys(vks, lookup, owners);
      if keyed.Failure? {
        return Failure(keyed.error);
      }
      var hashes := set k | 0 <= k < |vks| :: vks[k].keyHash;
      keys := map h | h in keys && h in hashes :: keys[h];
      assert keys == ReplacedKeys(before, vks, lookup, owners);
      if before != map[] && vks != [] {
        EmptiedKeys(before, vks, lookup, owners);
      }
      if mustSurvive && |keys| == 0 {
        return Failure(WouldWipeKeys);
      }
      return Success(());
    }

    /** The settings rail, the fold and the declarative replace. */
    method ReplaceSettings(sent: Option<map<string, string>>) returns (r: Result<(), ImportError>)
      modifies `settings
      ensures r.Failure? ==> RefusesSettings(policy, old(settings), sent, r.error)
      ensures r.Success? ==> !SettingsDropped(policy, old(settings), sent) && !SettingUnfit(policy, Sent(sent))
      ensures r.Success? ==> SettingsConverged(policy, old(settings), Sent(sent), settings)
    {
      if sent.None? {
        if key :| key in settings && Syncable(policy, key) {
          return Failure(WouldWipeSettings);
        }
      }
      var want := FoldRetiredBreakerSwitches(Sent(sent));
      r := ApplySettings(want);
    }

    /** The checks an import makes before its first write. */
    method Guard(env: Envelope, gen: Option<int>) returns (r: Result<(), ImportError>)
      ensures r == Failure(Stale) <==> !Admits(sourceGen, gen)
      ensures r.Success? <==> Admissible(Snapshot(), env, gen)
      ensures r.Failure? ==> Refuses(policy, Snapshot(), env, gen, r.error)
    {
      if !Admits(sourceGen, gen) {
        return Failure(Stale);
      }
      var distinct := ValidateSyncedProviderNames(env.providers);
      if !distinct {
        return Failure(InvalidProvider);
      }
      if |env.providers| == 0 && |providers| > 0 {
        return Failure(WouldWipeProviders);
      }
      if |keys| > 0 && env.virtualKeys.None? {
        return Failure(WouldWipeKeys);
      }
      return Success(());
    }

    /** Users converge before virtual keys, so key ownership resolves against the fresh roster. */
    method ReplaceRoster(env: Envelope) returns (r: Result<(), ImportError>)
      requires Constrained(Snapshot()) && NormDistinct(env.providers)
      modifies `providers, `models, `users, `keys
      ensures r.Success? ==> RosterStep(policy, old(Snapshot()), env, providers, models, users)
      ensures r.Success? ==> keys == Disowned(PrunedKeys(old(keys), old(providers).Keys - providers.Keys), old(users).Keys - users.Keys)
      ensures r.Success? <==> ProvidersFit(policy, env.providers) && UsersFine(policy, SentUsers(env), ListedNames(env.providers))
      ensures r.Failure? ==>
                if !ProvidersFit(policy, env.providers) then r.error == InvalidProvider
                else UsersRefused(policy, SentUsers(env), ListedNames(env.providers), r.error)
    {
      ghost var held := providers;
      var replaced := ReplaceProviders(env.providers);
      if replaced.Failure? {
        return Failure(replaced.error);
      }
      assert UsernamesUnique(users) && users.Keys == old(users).Keys;
      KnownNames(policy, held, env.providers, providers);
      r := ApplyUsers(env.users, NameToId(providers));
    }

    /** Providers, accounts and keys, each against the ones before it. */
    method ReplaceAccess(env: Envelope) returns (r: Result<(), ImportError>)
      requires Constrained(Snapshot()) && NormDistinct(env.providers)
      modifies `providers, `models, `users, `keys
      ensures r.Success? ==>
                && RosterStep(policy, old(Snapshot()), env, providers, models, users)
                && KeysStep(old(Snapshot()), env, providers, users, keys)
      ensures r.Success? <==> AccessFine(policy, old(Snapshot()), env, ListedNames(env.providers))
      ensures r.Failure? ==> RefusesAccess(policy, env, ListedNames(env.providers), r.error)
    {
      ghost var before := Snapshot();
      var keysMustSurvive := |keys| > 0 && |SentKeys(env)| > 0;
      var roster := ReplaceRoster(env);
      if roster.Failure? {
        return Failure(roster.error);
      }
      KnownNames(policy, before.providers, env.providers, providers);
      assert keys.Keys == before.keys.Keys;
      r := ReplaceKeys(SentKeys(env), NameToId(providers), UsernameToId(users), keysMustSurvive);
    }

    /** The writes of one import, in order. */
    method ReplaceCore(env: Envelope) returns (r: Result<(), ImportError>)
      requires Constrained(Snapshot()) && NormDistinct(env.providers)
      modifies `providers, `models, `users, `keys, `settings
      ensures r.Success? ==>
                && RosterStep(policy, old(Snapshot()), env, providers, models, users)
                && KeysStep(old(Snapshot()), env, providers, users, keys)
                && SettingsStep(policy, old(Snapshot()), env, settings)
      ensures r.Success? ==> CoreFine(policy, old(Snapshot()), env)
      ensures r.Failure? ==> RefusesCore(policy, old(Snapshot()), env, ListedNames(env.providers), r.error)
    {
      var access := ReplaceAccess(env);
      if access.Failure? {
        return Failure(access.error);
      }
      r := ReplaceSettings(env.settings);
    }

    /** The statements of one import: the checks, the writes, the two markers. */
    method ApplyInTransaction(env: Envelope, gen: Option<int>) returns (r: Result<int, ImportError>)
      requires Constrained(Snapshot())
      modifies this
      ensures r.Success? ==> CoreStep(policy, old(Snapshot()), env, gen, Snapshot()) && r.value == NextSeq(old(importSeq))
      ensures r.Success? <==> Accepts(policy, old(Snapshot()), env, gen)
      ensures r.Failure? ==> Refuses(policy, old(Snapshot()), env, gen, r.error)
    {
      var guarded := Guard(env, gen);
      if guarded.Failure? {
        return Failure(guarded.error);
      }
      var written := ReplaceCore(env);
      if written.Failure? {
        return Failure(written.error);
      }
      if gen.Some? {
        sourceGen := Number(gen.value);
      }
      var seqNo := NextSeq(importSeq);
      importSeq := Number(seqNo);
      return Success(seqNo);
    }

    /** One import: committed whole, or refused with every table as it was. */
    method Apply(env: Envelope, gen: Option<int>) returns (r: Result<int, ImportError>)
      requires Constrained(Snapshot())
      modifies this
      ensures Constrained(Snapshot())
      ensures r.Failure? ==> Snapshot() == old(Snapshot())
      ensures r.Success? ==> CoreStep(policy, old(Snapshot()), env, gen, Snapshot()) && r.value == NextSeq(old(importSeq))
      ensures r.Success? <==> Accepts(policy, old(Snapshot()), env, gen)
      ensures r.Failure? ==> Refuses(policy, old(Snapshot()), env, gen, r.error)
    {
      var before := Snapshot();
      r := ApplyInTransaction(env, gen);
      if r.Failure? {
        Rollback(before);
      } else {
        CoreStepConstrained(policy, before, env, gen, Snapshot());
      }
    }
  }

  lemma OthersUntouched(before: map<Id, ProviderRow>, p: ExportProvider, id: Id)
    requires ProviderNamesUnique(before)
    requires if id in before then SameName(before[id].name, p.name) else !Holds(before, p.name)
    ensures forall i :: i in before && i != id ==> Renamed(before, p.name)[i] == before[i]
  {
    assert forall i :: i in before && SameName(before[i].name, p.name) ==> Holds(before, p.name);
  }

  lemma NextUser(start: map<Id, UserRow>, us: seq<ExportUser>, lookup: map<string, Id>, mid: map<Id, UserRow>, k: nat, id: Id,
                 after: map<Id, UserRow>)
    requires k < |us| && UsersUpserted(start, us[..k], lookup, mid)
    requires UserWrittenAt(mid, us[k], lookup, id, after) && !EmailHeld(mid, us[k])
    ensures UsersUpserted(start, us[..k + 1], lookup, after)
  {
    UserStep(start, us[..k], lookup, mid, us[k], id, after);
    assert us[..k + 1] == us[..k] + [us[k]];
  }

  lemma SameGone(before: map<Id, UserRow>, start: map<Id, UserRow>, after: map<Id, UserRow>)
    requires start.Keys <= after.Keys && forall id :: id in after && id !in start ==> id !in before
    ensures before.Keys - after.Keys == before.Keys - start.Keys
  {
    forall id ensures id in before.Keys - after.Keys <==> id in before.Keys - start.Keys {
      assert id in start ==> id in after.Keys;
    }
  }

  /** After the rename a name held in any spelling is held in its own. */
  lemma RenamedIsRaw(before: map<Id, ProviderRow>, name: string)
    requires ProviderNamesUnique(before) && Holds(Renamed(before, name), name)
    ensures exists id :: id in Renamed(before, name) && Renamed(before, name)[id].name == name
  {
    var mid := Renamed(before, name);
    RenamedKeepsNames(before, name);
    var id :| id in mid && SameName(mid[id].name, name);
    assert mid[id].name == name;
  }

  /** The rename then the write, as one upsert of the table found. */
  lemma RenamedThenWritten(policy: Policy, before: map<Id, ProviderRow>, p: ExportProvider, id: Id, after: map<Id, ProviderRow>)
    requires ProviderNamesUnique(before)
    requires var mid := Renamed(before, p.name);
             && (if id in mid then mid[id].name == p.name else !Holds(mid, p.name))
             && after == mid[id := WrittenProvider(policy, p, if id in mid then mid[id].quotaReserve else 0)]
    ensures ProviderUpsertedAt(policy, before, p, id, after)
  {
    var mid := Renamed(before, p.name);
    RenamedKeepsNames(before, p.name);
    forall i | i in before && SameName(before[i].name, p.name) ensures SameName(mid[i].name, p.name) {
    }
    OthersUntouched(before, p, id);
    SetOver(before, mid, id, after[id]);
  }

  lemma SetOver(before: map<Id, ProviderRow>, mid: map<Id, ProviderRow>, id: Id, row: ProviderRow)
    requires mid.Keys == before.Keys && forall i :: i in before && i != id ==> mid[i] == before[i]
    ensures mid[id := row] == before[id := row]
  {
  }

  /** One more extra keeps its own toggle. */
  lemma ExtraTaken(sent: map<Id, bool>, extras: seq<Id>, row: GroupRow, x: Id)
    requires FG.Usable(Some(row))
    ensures (sent + map y | y in extras :: FG.OwnToggle(row, y))[x := FG.OwnToggle(row, x)]
            == sent + map y | y in extras + [x] :: FG.OwnToggle(row, y)
  {
  }

  lemma NotListedYet(ps: seq<ExportProvider>, k: nat)
    requires k < |ps| && NormDistinct(ps)
    ensures !Lists(ps[..k], ps[k].name)
  {
  }

  lemma {:induction false} WithoutNone(ids: seq<Id>)
    ensures Without(ids, {}) == ids
  {
    if ids != [] {
      WithoutNone(ids[..|ids| - 1]);
    }
  }

  lemma PrunedListNone(allowed: Option<seq<Id>>)
    ensures PrunedList(allowed, {}) == allowed
  {
    if allowed.Some? {
      WithoutNone(allowed.value);
    }
  }

  lemma PrunedNone(users: map<Id, UserRow>, keys: map<string, KeyRow>)
    ensures PrunedUsers(users, {}) == users
    ensures PrunedKeys(keys, {}) == keys
  {
    forall id | id in users ensures PrunedUsers(users, {})[id] == users[id] {
      PrunedListNone(users[id].allowedProviders);
    }
    forall h | h in keys ensures PrunedKeys(keys, {})[h] == keys[h] {
      PrunedListNone(keys[h].allowedProviders);
    }
    assert PrunedKeys(keys, {}).Keys == keys.Keys;
  }

  lemma DisownedNone(keys: map<string, KeyRow>, gone: set<Id>)
    requires gone == {}
    ensures Disowned(keys, gone) == keys
  {
  }

  lemma ReleasedNone(policy: Policy, ps: seq<ExportProvider>, providers: map<Id, ProviderRow>, models: map<Id, ModelRow>)
    requires ps == []
    ensures ReleasedModels(policy, ps, providers, models) == models
  {
    assert forall name :: !Releases(policy, ps, name);
    assert forall id :: id in models ==> ReleasedModels(policy, ps, providers, models)[id] == models[id];
  }

  /** One provider more, in its own table and in the models'. */
  lemma OneMoreProvider(policy: Policy, before: map<Id, ProviderRow>, held: map<Id, ModelRow>, ps: seq<ExportProvider>, k: nat,
                        mid: map<Id, ProviderRow>, id: Id, after: map<Id, ProviderRow>, models: map<Id, ModelRow>)
    requires k < |ps| && NormDistinct(ps)
    requires ProvidersUpserted(policy, before, ps[..k], mid) && ProviderUpsertedAt(policy, mid, ps[k], id, after)
    requires forall i :: i in held ==> held[i].provider in before
    requires var released := ReleasedModels(policy, ps[..k], mid, held);
             models == if policy.operatorServed(policy.providerType(ps[k])) then released else ReleasedOf(released, id)
    ensures ProvidersUpserted(policy, before, ps[..k + 1], after)
    ensures models == ReleasedModels(policy, ps[..k + 1], after, held)
  {
    NotListedYet(ps, k);
    UpsertStep(policy, before, ps[..k], mid, ps[k], id, after);
    ReleaseStep(policy, before, held, ps[..k], mid, ps[k], id, after);
    assert ps[..k + 1] == ps[..k] + [ps[k]];
  }

  lemma NothingUpserted(policy: Policy, providers: map<Id, ProviderRow>)
    requires ProviderNamesUnique(providers)
    ensures ProvidersUpserted(policy, providers, [], providers)
  {
    assert forall id :: id in providers ==> !Lists([], providers[id].name);
  }

  /** Every row the import added is one the envelope names, so only old rows are deleted. */
  lemma GoneAreOld(policy: Policy, before: map<Id, ProviderRow>, ps: seq<ExportProvider>, upserted: map<Id, ProviderRow>)
    requires ProvidersUpserted(policy, before, ps, upserted)
    ensures upserted.Keys - Kept(ps, upserted).Keys == before.Keys - Kept(ps, upserted).Keys
  {
    forall id | id in upserted && id !in before ensures id in Kept(ps, upserted) {
      assert Lists(ps, upserted[id].name);
      var j :| 0 <= j < |ps| && SameName(upserted[id].name, ps[j].name);
      assert RowOf(policy, before, ps[j], id, upserted[id]);
    }
  }

  lemma SamePresent(a: Member, b: Member, ref: ModelRef)
    requires a.providers == b.providers && a.models == b.models
    ensures a.Present(ref) <==> b.Present(ref)
  {
    assert forall id :: a.RefOf(id) == b.RefOf(id);
  }
}
