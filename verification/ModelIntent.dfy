/** What the per-model sections of an import do to the model rows
    (internal/api/configsync_apply_models.go), as functions of the database, and
    what running them means for the operator's intent. */
module ModelIntent {
  import opened Wrappers
  import opened MemberTables

  predicate Named(ref: Option<ModelRef>, refs: seq<ModelRef>) {
    ref.Some? && ref.value in refs
  }

  function DisabledRow(row: ModelRow, ref: Option<ModelRef>, refs: seq<ModelRef>): ModelRow {
    if Named(ref, refs) then
      row.(enabled := false, disabledManually := true)
    else if ref.Some? && row.disabledManually then
      row.(enabled := true, disabledManually := false, autoRetiredAt := None, discoveryDismissedAt := None)
    else
      row
  }

  function PinnedRow(row: ModelRow, ref: Option<ModelRef>, refs: seq<ModelRef>, now: int): ModelRow {
    if Named(ref, refs) then
      row.(enabled := true, disabledManually := false, autoRetiredAt := None, discoveryDismissedAt := None,
           missingScans := 0,
           manuallyEnabledAt := Some(if row.manuallyEnabledAt.Some? then row.manuallyEnabledAt.value else now))
    else if ref.Some? && row.manuallyEnabledAt.Some? then
      row.(manuallyEnabledAt := None, missingScans := 0)
    else
      row
  }

  /** The refs of the list that no model row here answers to, in list order. */
  ghost function Absent(db: Member, refs: seq<ModelRef>): seq<ModelRef> {
    if refs == [] then []
    else if db.Present(refs[|refs| - 1]) then Absent(db, refs[..|refs| - 1])
    else Absent(db, refs[..|refs| - 1]) + [refs[|refs| - 1]]
  }

  function Strings(refs: seq<ModelRef>): (s: seq<string>)
    ensures |s| == |refs|
    ensures forall i :: 0 <= i < |refs| ==> s[i] == refs[i].ToString()
  {
    if refs == [] then [] else Strings(refs[..|refs| - 1]) + [refs[|refs| - 1].ToString()]
  }

  ghost function DisableSection(db: Member, refs: seq<ModelRef>): Member {
    db.(models := map id | id in db.models :: DisabledRow(db.models[id], db.RefOf(id), refs),
        unappliedDisables := Some(Absent(db, refs)))
  }

  ghost function PinSection(db: Member, refs: seq<ModelRef>, now: int): Member {
    db.(models := map id | id in db.models :: PinnedRow(db.models[id], db.RefOf(id), refs, now),
        unappliedEnables := Some(Absent(db, refs)))
  }

  /** Both sections in the order an import runs them. */
  ghost function BothSections(db: Member, disables: seq<ModelRef>, pins: seq<ModelRef>, now: int): Member {
    PinSection(DisableSection(db, disables), pins, now)
  }

  // --- Absent refs ---

  lemma {:induction false} AbsentSame(a: Member, b: Member, refs: seq<ModelRef>)
    requires forall r :: r in refs ==> (a.Present(r) <==> b.Present(r))
    ensures Absent(a, refs) == Absent(b, refs)
  {
    if refs != [] {
      AbsentSame(a, b, refs[..|refs| - 1]);
    }
  }

  lemma {:induction false} AbsentMembers(db: Member, refs: seq<ModelRef>, r: ModelRef)
    ensures r in Absent(db, refs) <==> r in refs && !db.Present(r)
  {
    if refs != [] {
      AbsentMembers(db, refs[..|refs| - 1], r);
      assert refs == refs[..|refs| - 1] + [refs[|refs| - 1]];
    }
  }

  /** The listed refs no row answers to, one for each time they are listed and in their order. */
  ghost predicate AbsentAt(db: Member, refs: seq<ModelRef>, absent: seq<ModelRef>, at: seq<int>) {
    && |at| == |absent|
    && (forall n :: 0 <= n < |at| ==> 0 <= at[n] < |refs| && absent[n] == refs[at[n]] && !db.Present(refs[at[n]]))
    && (forall m, n :: 0 <= m < n < |at| ==> at[m] < at[n])
    && (forall k :: 0 <= k < |refs| && !db.Present(refs[k]) ==> k in at)
  }

  lemma OneMoreAbsent(db: Member, refs: seq<ModelRef>, r: ModelRef, absent: seq<ModelRef>, at: seq<int>)
    requires AbsentAt(db, refs, absent, at)
    ensures if db.Present(r) then AbsentAt(db, refs + [r], absent, at)
            else AbsentAt(db, refs + [r], absent + [r], at + [|refs|])
  {
    var longer, more := refs + [r], at + [|refs|];
    assert more[|at|] == |refs|;
    forall k | 0 <= k < |longer| && !db.Present(longer[k]) ensures k in more && (k < |refs| ==> k in at) {
      if k < |refs| {
        assert !db.Present(refs[k]);
      }
    }
  }

  lemma {:induction false} AbsentInOrder(db: Member, refs: seq<ModelRef>) returns (at: seq<int>)
    ensures AbsentAt(db, refs, Absent(db, refs), at)
  {
    at := [];
    if refs != [] {
      var n := |refs| - 1;
      at := AbsentInOrder(db, refs[..n]);
      OneMoreAbsent(db, refs[..n], refs[n], Absent(db, refs[..n]), at);
      assert refs == refs[..n] + [refs[n]];
      if !db.Present(refs[n]) {
        at := at + [n];
      }
    }
  }

  // --- The sections leave every join as it was ---

  lemma DisableKeepsJoin(db: Member, refs: seq<ModelRef>)
    ensures forall id :: DisableSection(db, refs).RefOf(id) == db.RefOf(id)
    ensures forall r :: DisableSection(db, refs).Present(r) <==> db.Present(r)
  {
    var after := DisableSection(db, refs);
    forall r ensures after.Present(r) <==> db.Present(r) {
      if db.Present(r) {
        var id :| id in db.models && db.RefOf(id) == Some(r);
        assert id in after.models && after.RefOf(id) == Some(r);
      }
    }
  }

  lemma PinKeepsJoin(db: Member, refs: seq<ModelRef>, now: int)
    ensures forall id :: PinSection(db, refs, now).RefOf(id) == db.RefOf(id)
    ensures forall r :: PinSection(db, refs, now).Present(r) <==> db.Present(r)
  {
    var after := PinSection(db, refs, now);
    forall r ensures after.Present(r) <==> db.Present(r) {
      if db.Present(r) {
        var id :| id in db.models && db.RefOf(id) == Some(r);
        assert id in after.models && after.RefOf(id) == Some(r);
      }
    }
  }

  lemma BothKeepJoin(db: Member, disables: seq<ModelRef>, pins: seq<ModelRef>, now: int)
    ensures forall id :: BothSections(db, disables, pins, now).RefOf(id) == db.RefOf(id)
    ensures forall r :: BothSections(db, disables, pins, now).Present(r) <==> db.Present(r)
    ensures BothSections(db, disables, pins, now).models.Keys == db.models.Keys
  {
    DisableKeepsJoin(db, disables);
    PinKeepsJoin(DisableSection(db, disables), pins, now);
  }

  // --- Main results ---

  /** One row seen through both sections. */
  function SettledRow(row: ModelRow, ref: Option<ModelRef>, disables: seq<ModelRef>, pins: seq<ModelRef>, now: int): ModelRow {
    PinnedRow(DisabledRow(row, ref, disables), ref, pins, now)
  }

  lemma SettledTwice(row: ModelRow, ref: Option<ModelRef>, disables: seq<ModelRef>, pins: seq<ModelRef>, now: int, later: int)
    ensures var once := SettledRow(row, ref, disables, pins, now);
            SettledRow(once, ref, disables, pins, later) == once
  {
  }

  lemma BothSectionsByRow(db: Member, disables: seq<ModelRef>, pins: seq<ModelRef>, now: int)
    ensures var after := BothSections(db, disables, pins, now);
            && after == db.(models := after.models, unappliedDisables := after.unappliedDisables,
                            unappliedEnables := after.unappliedEnables)
            && after.models.Keys == db.models.Keys
            && (forall id :: id in db.models ==>
                  after.models[id] == SettledRow(db.models[id], db.RefOf(id), disables, pins, now))
            && after.unappliedDisables == Some(Absent(db, disables))
            && after.unappliedEnables == Some(Absent(db, pins))
  {
    DisableKeepsJoin(db, disables);
    AbsentSame(DisableSection(db, disables), db, pins);
  }

  /** Re-running an import's two sections, at any later time, changes nothing. */
  lemma SectionsIdempotent(db: Member, disables: seq<ModelRef>, pins: seq<ModelRef>, now: int, later: int)
    ensures var once := BothSections(db, disables, pins, now);
            BothSections(once, disables, pins, later) == once
  {
    var once := BothSections(db, disables, pins, now);
    BothSectionsByRow(db, disables, pins, now);
    BothSectionsByRow(once, disables, pins, later);
    BothKeepJoin(db, disables, pins, now);
    AbsentSame(once, db, disables);
    AbsentSame(once, db, pins);
    var twice := BothSections(once, disables, pins, later);
    forall id | id in once.models ensures twice.models[id] == once.models[id] {
      SettledTwice(db.models[id], db.RefOf(id), disables, pins, now, later);
    }
    assert twice.models == once.models;
  }

  /** What the member will export as operator-disabled: flagged rows and acknowledged absences. */
  ghost predicate ReportsDisabled(db: Member, r: ModelRef) {
    || (exists id :: id in db.models && db.RefOf(id) == Some(r) && db.models[id].disabledManually)
    || (db.unappliedDisables.Some? && r in db.unappliedDisables.value)
  }

  ghost predicate ReportsPinned(db: Member, r: ModelRef) {
    || (exists id :: id in db.models && db.RefOf(id) == Some(r) && db.models[id].manuallyEnabledAt.Some?)
    || (db.unappliedEnables.Some? && r in db.unappliedEnables.value)
  }

  /** The guard that decides whether the disables converge: no model held here is in both lists. */
  ghost predicate NoneInBoth(db: Member, disables: seq<ModelRef>, pins: seq<ModelRef>) {
    forall r :: r in disables && r in pins ==> !db.Present(r)
  }

  /** One ref: it ends up reported disabled iff the primary disabled it and the
      pin list does not overrule it on a model held here. */
  lemma ReportsDisabledExactly(db: Member, disables: seq<ModelRef>, pins: seq<ModelRef>, now: int, r: ModelRef)
    ensures ReportsDisabled(BothSections(db, disables, pins, now), r)
            <==> r in disables && (r in pins ==> !db.Present(r))
  {
    var mid := DisableSection(db, disables);
    var after := BothSections(db, disables, pins, now);
    BothKeepJoin(db, disables, pins, now);
    DisableKeepsJoin(db, disables);
    AbsentMembers(db, disables, r);
    forall id | id in after.models && after.RefOf(id) == Some(r)
      ensures after.models[id].disabledManually <==> r in disables && r !in pins
    {
      assert mid.models[id] == DisabledRow(db.models[id], Some(r), disables);
      assert after.models[id] == PinnedRow(mid.models[id], Some(r), pins, now);
    }
    if db.Present(r) {
      var id :| id in db.models && db.RefOf(id) == Some(r);
      assert id in after.models;
    }
  }

  /** The member reports exactly the envelope's disables iff no model held here is in both lists. */
  lemma DisablesConverge(db: Member, disables: seq<ModelRef>, pins: seq<ModelRef>, now: int)
    ensures (forall r :: ReportsDisabled(BothSections(db, disables, pins, now), r) <==> r in disables)
            <==> NoneInBoth(db, disables, pins)
  {
    var after := BothSections(db, disables, pins, now);
    forall r ensures ReportsDisabled(after, r) <==> r in disables && (r in pins ==> !db.Present(r)) {
      ReportsDisabledExactly(db, disables, pins, now, r);
    }
    if !NoneInBoth(db, disables, pins) {
      var r :| r in disables && r in pins && db.Present(r);
      assert !ReportsDisabled(after, r);
    }
  }

  /** The member reports exactly the envelope's pins, whatever the lists share. */
  lemma PinsConverge(db: Member, disables: seq<ModelRef>, pins: seq<ModelRef>, now: int)
    ensures forall r :: ReportsPinned(BothSections(db, disables, pins, now), r) <==> r in pins
  {
    var mid := DisableSection(db, disables);
    var after := BothSections(db, disables, pins, now);
    BothKeepJoin(db, disables, pins, now);
    DisableKeepsJoin(db, disables);
    forall r ensures ReportsPinned(after, r) <==> r in pins {
      AbsentMembers(mid, pins, r);
      forall id | id in after.models && after.RefOf(id) == Some(r)
        ensures after.models[id].manuallyEnabledAt.Some? <==> r in pins
      {
        assert after.models[id] == PinnedRow(mid.models[id], Some(r), pins, now);
      }
      if db.Present(r) {
        var id :| id in db.models && db.RefOf(id) == Some(r);
        assert id in after.models;
      }
    }
  }

  /** Every column of a row after both sections. A row switched off by this member's own evidence
      and named in neither list keeps its verdict and its evidence; one the operator's word covers
      is on exactly when pinned, or when it was flagged here and the disable is gone. Evidence goes
      only with a pin or a disable taken back; a pin keeps the time it was first honoured. */
  lemma EnabledAfterSections(db: Member, disables: seq<ModelRef>, pins: seq<ModelRef>, now: int, id: Id)
    requires id in db.models && db.RefOf(id).Some?
    ensures var row := db.models[id];
            var ref := db.RefOf(id).value;
            var after := BothSections(db, disables, pins, now).models[id];
            && (after.enabled <==> ref in pins || (ref !in disables && (row.enabled || row.disabledManually)))
            && (ref !in disables && ref !in pins && !row.disabledManually ==>
                  after == row.(manuallyEnabledAt := None,
                                missingScans := if row.manuallyEnabledAt.Some? then 0 else row.missingScans))
            && (after.disabledManually <==> ref in disables && ref !in pins)
            && (if ref in pins || (ref !in disables && row.disabledManually)
                then after.autoRetiredAt.None? && after.discoveryDismissedAt.None?
                else after.autoRetiredAt == row.autoRetiredAt && after.discoveryDismissedAt == row.discoveryDismissedAt)
            && after.missingScans == (if ref in pins || row.manuallyEnabledAt.Some? then 0 else row.missingScans)
            && (ref in pins ==> after.manuallyEnabledAt.Some?
                                && (row.manuallyEnabledAt.Some? ==> after.manuallyEnabledAt == row.manuallyEnabledAt)
                                && (row.manuallyEnabledAt.None? ==> after.manuallyEnabledAt == Some(now)))
            && (ref !in pins ==> after.manuallyEnabledAt.None?)
            && after.provider == row.provider && after.modelId == row.modelId
            && after.capabilitiesCustomized == row.capabilitiesCustomized
  {
    var mid := DisableSection(db, disables);
    DisableKeepsJoin(db, disables);
    assert mid.models[id] == DisabledRow(db.models[id], db.RefOf(id), disables);
    assert BothSections(db, disables, pins, now).models[id] == PinnedRow(mid.models[id], db.RefOf(id), pins, now);
  }
}
