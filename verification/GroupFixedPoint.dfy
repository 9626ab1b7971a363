/** When re-applying the failover groups of an envelope changes no row. A name may be carried
    by several groups: only an auto group that the row of an earlier one lets fill can undo it. */
module GroupFixedPoint {
  import opened Wrappers
  import opened MemberTables
  import opened FailoverGroups

  // --- The models alone decide what resolves ---

  lemma {:induction false} SentSame(a: Member, b: Member, entries: seq<ExportEntry>, auto: bool)
    requires a.providers == b.providers && a.models == b.models && a.RefsUnique()
    ensures Sent(a, entries, auto) == Sent(b, entries, auto)
    ensures SentToggles(a, entries, auto) == SentToggles(b, entries, auto)
  {
    if entries != [] {
      var n := |entries| - 1;
      SentSame(a, b, entries[..n], auto);
      var ref := entries[n].ref;
      assert forall id :: a.RefOf(id) == b.RefOf(id);
      if a.Present(ref) {
        var id :| id in a.models && a.RefOf(id) == Some(ref);
        assert b.Present(ref);
        assert LocalId(a, ref) == LocalId(b, ref);
      }
      if b.Present(ref) {
        var id :| id in b.models && b.RefOf(id) == Some(ref);
        assert a.Present(ref);
      }
    }
  }

  lemma {:induction false} ExtrasSame(a: Member, b: Member, own: seq<Id>, sent: set<Id>)
    requires a.providers == b.providers && a.models == b.models
    ensures Extras(a, own, sent) == Extras(b, own, sent)
  {
    if own != [] {
      ExtrasSame(a, b, own[..|own| - 1], sent);
    }
  }

  lemma FilledSame(a: Member, b: Member, g: ExportGroup, own: Option<GroupRow>)
    requires a.providers == b.providers && a.models == b.models && a.RefsUnique()
    ensures Filled(a, g, own) == Filled(b, g, own)
  {
    SentSame(a, b, g.entries, g.autoCreated);
    if Usable(own) {
      ExtrasSame(a, b, own.value.priority.value, SentToggles(a, g.entries, g.autoCreated).Keys);
    }
  }

  // --- One name's row through one run of the section ---

  ghost predicate Reaches(db: Member, own: Option<GroupRow>, g: ExportGroup) {
    |Filled(db, g, own).priority| >= 2
  }

  /** The row of one name after the upsert loop, from the row found. */
  ghost function Written(db: Member, own: Option<GroupRow>, groups: seq<ExportGroup>, name: string): Option<GroupRow> {
    if groups == [] then own
    else
      var rest := Written(db, own, groups[..|groups| - 1], name);
      var g := groups[|groups| - 1];
      if g.displayModel != name || !Reaches(db, own, g) then rest
      else Some(UpsertedRow(rest, g, Filled(db, g, own)))
  }

  /** The row once the custom rows the envelope does not name are deleted. */
  ghost function Remaining(row: Option<GroupRow>, groups: seq<ExportGroup>, name: string): Option<GroupRow> {
    if row.Some? && (row.value.autoCreated || NamesCustom(groups, name)) then row else None
  }

  ghost function Through(db: Member, own: Option<GroupRow>, groups: seq<ExportGroup>, name: string): Option<GroupRow> {
    Remaining(Written(db, own, groups, name), groups, name)
  }

  lemma {:induction false} UpsertedIs(m: Member, db: Member, groups: seq<ExportGroup>, name: string)
    requires m.providers == db.providers && m.models == db.models && m.RefsUnique()
    ensures Lookup(Upserted(m, groups), name) == Written(db, Lookup(m.groups, name), groups, name)
  {
    if groups != [] {
      var n := |groups| - 1;
      UpsertedIs(m, db, groups[..n], name);
      FilledSame(m, db, groups[n], Lookup(m.groups, name));
    }
  }

  lemma SectionIs(m: Member, db: Member, groups: seq<ExportGroup>, storeEcho: bool, name: string)
    requires m.providers == db.providers && m.models == db.models && m.RefsUnique()
    ensures Lookup(GroupSection(m, groups, storeEcho).groups, name) == Through(db, Lookup(m.groups, name), groups, name)
  {
    UpsertedIs(m, db, groups, name);
    CustomNamesAre(groups, name);
  }

  /** Group k is the last of the name to find two entries or more over the row `own`. */
  ghost predicate Last(db: Member, own: Option<GroupRow>, groups: seq<ExportGroup>, name: string, k: nat) {
    && k < |groups| && groups[k].displayModel == name && Reaches(db, own, groups[k])
    && forall j :: k < j < |groups| && groups[j].displayModel == name ==> !Reaches(db, own, groups[j])
  }

  ghost predicate NoneReaches(db: Member, own: Option<GroupRow>, groups: seq<ExportGroup>, name: string) {
    forall j :: 0 <= j < |groups| && groups[j].displayModel == name ==> !Reaches(db, own, groups[j])
  }

  lemma {:induction false} FindLast(db: Member, own: Option<GroupRow>, groups: seq<ExportGroup>, name: string)
    ensures NoneReaches(db, own, groups, name) || exists k: nat :: Last(db, own, groups, name, k)
  {
    if groups != [] {
      var n := |groups| - 1;
      assert forall j :: 0 <= j < n ==> groups[..n][j] == groups[j];
      FindLast(db, own, groups[..n], name);
      if groups[n].displayModel == name && Reaches(db, own, groups[n]) {
        assert Last(db, own, groups, name, n);
      } else if k: nat :| Last(db, own, groups[..n], name, k) {
        assert Last(db, own, groups, name, k);
      }
    }
  }

  lemma {:induction false} WrittenNone(db: Member, own: Option<GroupRow>, groups: seq<ExportGroup>, name: string)
    requires NoneReaches(db, own, groups, name)
    ensures Written(db, own, groups, name) == own
  {
    if groups != [] {
      var n := |groups| - 1;
      assert forall j :: 0 <= j < n ==> groups[..n][j] == groups[j];
      WrittenNone(db, own, groups[..n], name);
    }
  }

  lemma {:induction false} WrittenLast(db: Member, own: Option<GroupRow>, groups: seq<ExportGroup>, name: string, k: nat)
    requires Last(db, own, groups, name, k)
    ensures Written(db, own, groups, name)
            == Some(UpsertedRow(Written(db, own, groups[..k], name), groups[k], Filled(db, groups[k], own)))
  {
    var n := |groups| - 1;
    if k < n {
      assert forall j :: 0 <= j < n ==> groups[..n][j] == groups[j];
      WrittenLast(db, own, groups[..n], name, k);
      assert groups[..n][..k] == groups[..k];
    }
  }

  /** A group that, written over the row, clears its stamp. */
  ghost predicate ClearsStamp(db: Member, own: Option<GroupRow>, g: ExportGroup, name: string) {
    g.displayModel == name && Reaches(db, own, g) && (g.autoCreated || g.groupEnabled)
  }

  ghost predicate Clears(db: Member, own: Option<GroupRow>, groups: seq<ExportGroup>, name: string) {
    exists j :: 0 <= j < |groups| && ClearsStamp(db, own, groups[j], name)
  }

  lemma ClearsStep(db: Member, own: Option<GroupRow>, groups: seq<ExportGroup>, name: string)
    requires groups != []
    ensures var n := |groups| - 1;
            Clears(db, own, groups, name) <==> Clears(db, own, groups[..n], name) || ClearsStamp(db, own, groups[n], name)
  {
    var n := |groups| - 1;
    if Clears(db, own, groups[..n], name) {
      var j :| 0 <= j < n && ClearsStamp(db, own, groups[..n][j], name);
      assert ClearsStamp(db, own, groups[j], name);
    }
    if Clears(db, own, groups, name) {
      var j :| 0 <= j <= n && ClearsStamp(db, own, groups[j], name);
      assert j < n ==> groups[..n][j] == groups[j];
    }
  }

  /** The stamp a row keeps is the one it was found with, or none. */
  lemma {:induction false} StampAfter(db: Member, own: Option<GroupRow>, groups: seq<ExportGroup>, name: string)
    ensures var row := Written(db, own, groups, name);
            row.Some? ==> row.value.autoDisabledAt
                          == if own.None? || Clears(db, own, groups, name) then None else own.value.autoDisabledAt
    ensures own.Some? ==> Written(db, own, groups, name).Some?
  {
    if groups != [] {
      StampAfter(db, own, groups[..|groups| - 1], name);
      ClearsStep(db, own, groups, name);
    }
  }

  // --- A second run over the row the first left ---

  /** The row an auto group writes; nothing of the row before shows in it. */
  ghost function AutoRow(db: Member, g: ExportGroup, own: Option<GroupRow>): GroupRow {
    UpsertedRow(None, g, Filled(db, g, own))
  }

  lemma RefilledOverOwn(db: Member, g: ExportGroup, own: Option<GroupRow>)
    requires g.autoCreated && Usable(own)
    ensures Filled(db, g, Some(AutoRow(db, g, own))) == Filled(db, g, own)
  {
    var row := AutoRow(db, g, own);
    var toggles := SentToggles(db, g.entries, true);
    var extras := Extras(db, own.value.priority.value, toggles.Keys);
    SentAreKeys(db, g.entries, true);
    ExtrasExactly(db, own.value.priority.value, toggles.Keys);
    ExtrasAgain(db, Sent(db, g.entries, true), toggles.Keys, extras);
    assert (map x | x in extras :: OwnToggle(row, x)) == (map x | x in extras :: OwnToggle(own.value, x));
  }

  /** An auto group fills over the row it wrote as it filled over the row it found. */
  lemma RefilledSame(db: Member, g: ExportGroup, own: Option<GroupRow>)
    requires g.autoCreated
    ensures Filled(db, g, Some(AutoRow(db, g, own))) == Filled(db, g, own)
  {
    if Usable(own) {
      RefilledOverOwn(db, g, own);
    } else {
      var sent, toggles := Sent(db, g.entries, true), SentToggles(db, g.entries, true);
      SentAreKeys(db, g.entries, true);
      ExtrasAgain(db, sent, toggles.Keys, []);
      assert sent + [] == sent;
      assert toggles + map[] == toggles;
    }
  }

  /** Over a row no auto group can use, every group finds what it was sent and no more. */
  lemma FewerOverCustom(db: Member, own: Option<GroupRow>, now: Option<GroupRow>, g: ExportGroup)
    requires !Usable(now)
    ensures Reaches(db, now, g) ==> Reaches(db, own, g)
    ensures !g.autoCreated ==> Filled(db, g, now) == Filled(db, g, own)
    ensures !Usable(own) ==> Filled(db, g, now) == Filled(db, g, own)
  {
  }

  lemma SettlesUnwritten(db: Member, own: Option<GroupRow>, groups: seq<ExportGroup>, name: string)
    requires NoneReaches(db, own, groups, name)
    ensures Through(db, Through(db, own, groups, name), groups, name) == Through(db, own, groups, name)
  {
    WrittenNone(db, own, groups, name);
    var now := Remaining(own, groups, name);
    if now != own {
      forall j | 0 <= j < |groups| && groups[j].displayModel == name ensures !Reaches(db, now, groups[j]) {
        FewerOverCustom(db, own, now, groups[j]);
      }
      WrittenNone(db, now, groups, name);
    }
  }

  lemma ClearsAgain(db: Member, own: Option<GroupRow>, now: Option<GroupRow>, groups: seq<ExportGroup>, name: string)
    requires !Usable(now) && Clears(db, now, groups, name)
    ensures Clears(db, own, groups, name)
  {
    var j :| 0 <= j < |groups| && ClearsStamp(db, now, groups[j], name);
    FewerOverCustom(db, own, now, groups[j]);
    assert ClearsStamp(db, own, groups[j], name);
  }

  lemma SettlesCustom(db: Member, own: Option<GroupRow>, groups: seq<ExportGroup>, name: string, l: nat)
    requires Last(db, own, groups, name, l) && !groups[l].autoCreated
    ensures Through(db, Through(db, own, groups, name), groups, name) == Through(db, own, groups, name)
  {
    WrittenLast(db, own, groups, name, l);
    StampAfter(db, own, groups, name);
    assert NamesCustom(groups, name);
    var now := Written(db, own, groups, name);
    forall j | 0 <= j < |groups| ensures Reaches(db, now, groups[j]) ==> Reaches(db, own, groups[j]) {
      FewerOverCustom(db, own, now, groups[j]);
    }
    FewerOverCustom(db, own, now, groups[l]);
    assert Last(db, now, groups, name, l);
    WrittenLast(db, now, groups, name, l);
    StampAfter(db, now, groups, name);
    if Clears(db, now, groups, name) {
      ClearsAgain(db, own, now, groups, name);
    }
  }

  /** An auto group left by the first run, and the last group its row lets fill: the second run
      leaves the second group's row. */
  lemma AutoThenLast(db: Member, own: Option<GroupRow>, groups: seq<ExportGroup>, name: string, l: nat, j: nat)
    requires Last(db, own, groups, name, l) && groups[l].autoCreated
    requires Last(db, Some(AutoRow(db, groups[l], own)), groups, name, j)
    ensures l <= j && groups[j].autoCreated
    ensures Through(db, own, groups, name) == Some(AutoRow(db, groups[l], own))
    ensures Through(db, Through(db, own, groups, name), groups, name)
            == Some(AutoRow(db, groups[j], Some(AutoRow(db, groups[l], own))))
  {
    WrittenLast(db, own, groups, name, l);
    RefilledSame(db, groups[l], own);
    WrittenLast(db, Some(AutoRow(db, groups[l], own)), groups, name, j);
  }

  /** The second run overwrites group l's row with group j's: both are auto, and j falls short over
      the row found but not over the row l wrote. */
  ghost predicate Overwrites(db: Member, own: Option<GroupRow>, groups: seq<ExportGroup>, name: string, l: nat, j: nat) {
    && l < j
    && Last(db, own, groups, name, l) && groups[l].autoCreated
    && var row := AutoRow(db, groups[l], own);
    Last(db, Some(row), groups, name, j) && AutoRow(db, groups[j], Some(row)) != row
  }

  lemma SettlesAuto(db: Member, own: Option<GroupRow>, groups: seq<ExportGroup>, name: string, l: nat)
    requires Last(db, own, groups, name, l) && groups[l].autoCreated
    ensures Through(db, Through(db, own, groups, name), groups, name) == Through(db, own, groups, name)
            <==> !exists j: nat :: Overwrites(db, own, groups, name, l, j)
  {
    var row := AutoRow(db, groups[l], own);
    FindLast(db, Some(row), groups, name);
    RefilledSame(db, groups[l], own);
    assert !NoneReaches(db, Some(row), groups, name);
    var j: nat :| Last(db, Some(row), groups, name, j);
    AutoThenLast(db, own, groups, name, l, j);
    if Overwrites(db, own, groups, name, l, j) {
      assert AutoRow(db, groups[j], Some(row)) != row;
    } else {
      assert AutoRow(db, groups[j], Some(row)) == row;
      forall k: nat ensures !Overwrites(db, own, groups, name, l, k) {
        assert Last(db, Some(row), groups, name, k) ==> k == j;
      }
    }
  }

  /** One name, whatever groups carry it. */
  lemma NameSettlesIff(db: Member, own: Option<GroupRow>, groups: seq<ExportGroup>, name: string)
    ensures Through(db, Through(db, own, groups, name), groups, name) == Through(db, own, groups, name)
            <==> !exists l: nat, j: nat :: Overwrites(db, own, groups, name, l, j)
  {
    FindLast(db, own, groups, name);
    if l: nat :| Last(db, own, groups, name, l) {
      forall k: nat, j: nat | Overwrites(db, own, groups, name, k, j) ensures k == l {
        assert Last(db, own, groups, name, k);
      }
      if groups[l].autoCreated {
        SettlesAuto(db, own, groups, name, l);
      } else {
        SettlesCustom(db, own, groups, name, l);
      }
    } else {
      SettlesUnwritten(db, own, groups, name);
    }
  }

  ghost predicate Rewritten(db: Member, groups: seq<ExportGroup>, name: string) {
    exists l: nat, j: nat :: Overwrites(db, Lookup(db.groups, name), groups, name, l, j)
  }

  /** Re-applying the same groups over the same models changes no row and no echo, for any list
      and any member, exactly when no auto group overwrites the row of an earlier one. */
  lemma GroupsFixedPointIff(db: Member, groups: seq<ExportGroup>, storeEcho: bool)
    requires db.RefsUnique()
    ensures var once := GroupSection(db, groups, storeEcho);
            GroupSection(once, groups, storeEcho) == once <==> forall name :: !Rewritten(db, groups, name)
  {
    var once := GroupSection(db, groups, storeEcho);
    var twice := GroupSection(once, groups, storeEcho);
    assert once.RefsUnique() by {
      assert forall id :: once.RefOf(id) == db.RefOf(id);
    }
    forall name ensures Lookup(twice.groups, name) == Lookup(once.groups, name) <==> !Rewritten(db, groups, name) {
      SectionIs(db, db, groups, storeEcho, name);
      SectionIs(once, db, groups, storeEcho, name);
      NameSettlesIff(db, Lookup(db.groups, name), groups, name);
    }
    SameByLookup(twice.groups, once.groups);
  }

  lemma SameByLookup(a: map<string, GroupRow>, b: map<string, GroupRow>)
    ensures a == b <==> forall name :: Lookup(a, name) == Lookup(b, name)
  {
    if forall name :: Lookup(a, name) == Lookup(b, name) {
      forall name ensures (name in a <==> name in b) && (name in a ==> a[name] == b[name]) {
        assert Lookup(a, name) == Lookup(b, name);
      }
      assert a.Keys == b.Keys;
    }
  }
}
