/** What the failover-group section of an import does to the group rows
    (internal/api/configsync_apply_upserts.go), as functions of the database. */
module FailoverGroups {
  import opened Wrappers
  import opened MemberTables

  // --- Resolving a group's entries on this member ---

  /** The local model a ref resolves to. */
  ghost function LocalId(db: Member, ref: ModelRef): Id
    requires db.Present(ref)
  {
    var id :| id in db.models && db.RefOf(id) == Some(ref);
    id
  }

  /** A ref with no model here is dropped; an auto group also drops a model that is off here. */
  ghost predicate Takes(db: Member, ref: ModelRef, auto: bool) {
    db.Present(ref) && (auto ==> db.Routable(LocalId(db, ref)))
  }

  /** The primary's entries that resolve here, in the primary's order. */
  ghost function Sent(db: Member, entries: seq<ExportEntry>, auto: bool): seq<Id> {
    if entries == [] then []
    else
      var rest := Sent(db, entries[..|entries| - 1], auto);
      var e := entries[|entries| - 1];
      if Takes(db, e.ref, auto) then rest + [LocalId(db, e.ref)] else rest
  }

  ghost function SentToggles(db: Member, entries: seq<ExportEntry>, auto: bool): map<Id, bool> {
    if entries == [] then map[]
    else
      var rest := SentToggles(db, entries[..|entries| - 1], auto);
      var e := entries[|entries| - 1];
      if Takes(db, e.ref, auto) then rest[LocalId(db, e.ref) := e.enabled] else rest
  }

  /** This member's own auto row, when both its JSON columns parse. */
  predicate Usable(row: Option<GroupRow>) {
    row.Some? && row.value.autoCreated && row.value.priority.Some? && row.value.entryEnabled.Some?
  }

  function OwnToggle(row: GroupRow, id: Id): bool
    requires Usable(Some(row))
  {
    if id in row.entryEnabled.value then row.entryEnabled.value[id] else true
  }

  /** The member's own enabled entries the primary did not send, in the member's order. */
  function Extras(db: Member, own: seq<Id>, sent: set<Id>): seq<Id> {
    if own == [] then []
    else
      var rest := Extras(db, own[..|own| - 1], sent);
      var x := own[|own| - 1];
      if x in sent || x in rest || !db.Routable(x) then rest else rest + [x]
  }

  datatype Filling = Filling(priority: seq<Id>, toggles: map<Id, bool>)

  /** What was sent, then an auto group's own extras with their own toggles. */
  function WithExtras(db: Member, sent: seq<Id>, toggles: map<Id, bool>, auto: bool, own: Option<GroupRow>): Filling {
    if auto && Usable(own) then
      var extras := Extras(db, own.value.priority.value, toggles.Keys);
      Filling(sent + extras, toggles + (map x | x in extras :: OwnToggle(own.value, x)))
    else
      Filling(sent, toggles)
  }

  ghost function Filled(db: Member, g: ExportGroup, own: Option<GroupRow>): Filling {
    WithExtras(db, Sent(db, g.entries, g.autoCreated), SentToggles(db, g.entries, g.autoCreated), g.autoCreated, own)
  }

  function Lookup(rows: map<string, GroupRow>, name: string): Option<GroupRow> {
    if name in rows then Some(rows[name]) else None
  }

  function UpsertedRow(row: Option<GroupRow>, g: ExportGroup, f: Filling): GroupRow {
    GroupRow(Some(f.priority), Some(f.toggles), g.groupEnabled, g.displayName, g.description, g.autoCreated,
             if row.None? || g.groupEnabled || g.autoCreated then None else row.value.autoDisabledAt)
  }

  ghost function Fill(db: Member, g: ExportGroup): Filling {
    Filled(db, g, Lookup(db.groups, g.displayModel))
  }

  /** The rows after the upsert loop. Own auto rows are read once, before it. */
  ghost function Upserted(db: Member, groups: seq<ExportGroup>): map<string, GroupRow> {
    if groups == [] then db.groups
    else
      var rest := Upserted(db, groups[..|groups| - 1]);
      var g := groups[|groups| - 1];
      var f := Fill(db, g);
      if |f.priority| < 2 then rest
      else rest[g.displayModel := UpsertedRow(Lookup(rest, g.displayModel), g, f)]
  }

  ghost function Skipped(db: Member, groups: seq<ExportGroup>): seq<string> {
    if groups == [] then []
    else
      var g := groups[|groups| - 1];
      Skipped(db, groups[..|groups| - 1])
      + if |Fill(db, g).priority| < 2 && !g.autoCreated then [g.displayModel] else []
  }

  ghost function Partial(db: Member, groups: seq<ExportGroup>): seq<string> {
    if groups == [] then []
    else
      var g := groups[|groups| - 1];
      var n := |Fill(db, g).priority|;
      Partial(db, groups[..|groups| - 1])
      + if 2 <= n < |g.entries| && !g.autoCreated then [g.displayModel] else []
  }

  function CustomNames(groups: seq<ExportGroup>): seq<string> {
    if groups == [] then []
    else
      var g := groups[|groups| - 1];
      CustomNames(groups[..|groups| - 1]) + if g.autoCreated then [] else [g.displayModel]
  }

  function AutoGroups(groups: seq<ExportGroup>): seq<ExportGroup> {
    if groups == [] then []
    else
      var g := groups[|groups| - 1];
      AutoGroups(groups[..|groups| - 1]) + if g.autoCreated then [g] else []
  }

  /** The declarative delete: a custom row goes unless the envelope names it as custom. */
  function Pruned(rows: map<string, GroupRow>, customNames: seq<string>): map<string, GroupRow> {
    map name | name in rows && (rows[name].autoCreated || name in customNames) :: rows[name]
  }

  ghost function GroupSection(db: Member, groups: seq<ExportGroup>, storeEcho: bool): Member {
    db.(groups := Pruned(Upserted(db, groups), CustomNames(groups)),
        autoEcho := if storeEcho then Some(AutoGroups(groups)) else None)
  }

  // --- Order of an auto group ---

  /** Where x first stands in the list. */
  ghost function FirstAt(s: seq<Id>, x: Id): (i: nat)
    requires x in s
    ensures i < |s| && s[i] == x && x !in s[..i]
  {
    if s[0] == x then 0 else
      var k := FirstAt(s[1..], x);
      assert s[..k + 1] == [s[0]] + s[1..][..k];
      k + 1
  }

  /** The extras are exactly the member's own routable entries the primary did not send, each once. */
  lemma {:induction false} ExtrasExactly(db: Member, own: seq<Id>, sent: set<Id>)
    ensures forall x :: x in Extras(db, own, sent) <==> x in own && x !in sent && db.Routable(x)
    ensures forall i, j :: 0 <= i < j < |Extras(db, own, sent)| ==> Extras(db, own, sent)[i] != Extras(db, own, sent)[j]
  {
    if own != [] {
      ExtrasExactly(db, own[..|own| - 1], sent);
      assert own == own[..|own| - 1] + [own[|own| - 1]];
    }
  }

  lemma FirstAtPrefix(s: seq<Id>, n: nat, x: Id)
    requires n <= |s| && x in s[..n]
    ensures FirstAt(s, x) == FirstAt(s[..n], x)
  {
    var i := FirstAt(s, x);
    var j := FirstAt(s[..n], x);
  }

  /** ... and they keep the member's order. */
  lemma {:induction false} ExtrasInOrder(db: Member, own: seq<Id>, sent: set<Id>, i: nat, j: nat)
    requires i < j < |Extras(db, own, sent)|
    ensures Extras(db, own, sent)[i] in own && Extras(db, own, sent)[j] in own
    ensures FirstAt(own, Extras(db, own, sent)[i]) < FirstAt(own, Extras(db, own, sent)[j])
  {
    ExtrasExactly(db, own, sent);
    var n := |own| - 1;
    var e := Extras(db, own, sent);
    var rest := Extras(db, own[..n], sent);
    ExtrasExactly(db, own[..n], sent);
    if j < |rest| {
      ExtrasInOrder(db, own[..n], sent, i, j);
      FirstAtPrefix(own, n, e[i]);
      FirstAtPrefix(own, n, e[j]);
    } else {
      assert e == rest + [own[n]];
      FirstAtPrefix(own, n, e[i]);
    }
  }

  ghost predicate Subsequence(tail: seq<Id>, own: seq<Id>) {
    && (forall x :: x in tail ==> x in own)
    && (forall i, j :: 0 <= i < j < |tail| ==> FirstAt(own, tail[i]) < FirstAt(own, tail[j]))
  }

  lemma ExtrasSubsequence(db: Member, own: seq<Id>, sent: set<Id>)
    ensures Subsequence(Extras(db, own, sent), own)
  {
    ExtrasExactly(db, own, sent);
    forall i: nat, j: nat | i < j < |Extras(db, own, sent)|
      ensures FirstAt(own, Extras(db, own, sent)[i]) < FirstAt(own, Extras(db, own, sent)[j])
    {
      ExtrasInOrder(db, own, sent, i, j);
    }
  }

  lemma {:induction false} ExtrasNone(db: Member, sent: seq<Id>, sentKeys: set<Id>)
    requires forall x :: x in sent ==> x in sentKeys
    ensures Extras(db, sent, sentKeys) == []
  {
    if sent != [] {
      var m := |sent| - 1;
      assert sent[m] in sent;
      ExtrasNone(db, sent[..m], sentKeys);
    }
  }

  lemma ExtrasLast(db: Member, own: seq<Id>, sentKeys: set<Id>, x: Id)
    ensures var rest := Extras(db, own, sentKeys);
            Extras(db, own + [x], sentKeys) == if x in sentKeys || x in rest || !db.Routable(x) then rest else rest + [x]
  {
    assert (own + [x])[..|own|] == own;
  }

  /** Extras taken out of a row that already ends in them are the same extras. */
  lemma {:induction false} ExtrasAgain(db: Member, sent: seq<Id>, sentKeys: set<Id>, tail: seq<Id>)
    requires forall x :: x in sent ==> x in sentKeys
    requires forall x :: x in tail ==> x !in sentKeys && db.Routable(x)
    requires forall i, j :: 0 <= i < j < |tail| ==> tail[i] != tail[j]
    ensures Extras(db, sent + tail, sentKeys) == tail
  {
    if tail == [] {
      assert sent + tail == sent;
      ExtrasNone(db, sent, sentKeys);
    } else {
      var n := |tail| - 1;
      ExtrasAgain(db, sent, sentKeys, tail[..n]);
      assert sent + tail == sent + tail[..n] + [tail[n]];
      assert tail == tail[..n] + [tail[n]];
      assert tail[n] in tail && tail[n] !in tail[..n];
      ExtrasLast(db, sent + tail[..n], sentKeys, tail[n]);
    }
  }

  lemma {:induction false} SentAreKeys(db: Member, entries: seq<ExportEntry>, auto: bool)
    ensures forall x :: x in Sent(db, entries, auto) <==> x in SentToggles(db, entries, auto)
  {
    if entries != [] {
      SentAreKeys(db, entries[..|entries| - 1], auto);
    }
  }

  /** The entries a group is sent with resolve one by one, in order. */
  lemma {:induction false} SentInOrder(db: Member, before: seq<ExportEntry>, after: seq<ExportEntry>, auto: bool)
    ensures Sent(db, before + after, auto) == Sent(db, before, auto) + Sent(db, after, auto)
  {
    if after == [] {
      assert before + after == before;
    } else {
      var n := |after| - 1;
      SentInOrder(db, before, after[..n], auto);
      assert (before + after)[..|before + after| - 1] == before + after[..n];
    }
  }

  // --- The rows the section leaves ---

  /** The envelope names the group as a custom one. */
  ghost predicate NamesCustom(groups: seq<ExportGroup>, name: string) {
    exists k :: 0 <= k < |groups| && groups[k].displayModel == name && !groups[k].autoCreated
  }

  lemma NamesCustomStep(groups: seq<ExportGroup>, g: ExportGroup, name: string)
    ensures NamesCustom(groups + [g], name) <==> NamesCustom(groups, name) || (g.displayModel == name && !g.autoCreated)
  {
    if NamesCustom(groups, name) {
      var k :| 0 <= k < |groups| && groups[k].displayModel == name && !groups[k].autoCreated;
      assert (groups + [g])[k] == groups[k];
    }
    assert (groups + [g])[|groups|] == g;
  }

  lemma {:induction false} CustomNamesAre(groups: seq<ExportGroup>, name: string)
    ensures name in CustomNames(groups) <==> NamesCustom(groups, name)
  {
    if groups != [] {
      var n := |groups| - 1;
      CustomNamesAre(groups[..n], name);
      NamesCustomStep(groups[..n], groups[n], name);
      assert groups == groups[..n] + [groups[n]];
    }
  }

  /** The last group of its name with two entries or more: the one the upsert loop leaves. */
  ghost predicate LastWritten(db: Member, groups: seq<ExportGroup>, k: nat) {
    && k < |groups| && |Fill(db, groups[k]).priority| >= 2
    && forall j :: k < j < |groups| && groups[j].displayModel == groups[k].displayModel ==> |Fill(db, groups[j]).priority| < 2
  }

  lemma {:induction false} UpsertedLast(db: Member, groups: seq<ExportGroup>, k: nat)
    requires LastWritten(db, groups, k)
    ensures var g := groups[k];
            Lookup(Upserted(db, groups), g.displayModel)
            == Some(UpsertedRow(Lookup(Upserted(db, groups[..k]), g.displayModel), g, Fill(db, g)))
  {
    var n := |groups| - 1;
    if k < n {
      assert forall j :: 0 <= j < n ==> groups[..n][j] == groups[j];
      UpsertedLast(db, groups[..n], k);
      assert groups[..n][..k] == groups[..k];
    }
  }

  /** What an auto group is filled with: the primary's entries that are routable here, one by
      one in its order, then exactly the member's own enabled extras, in the member's order. */
  ghost predicate AutoOrder(db: Member, g: ExportGroup, own: Option<GroupRow>, priority: seq<Id>) {
    var sent := Sent(db, g.entries, true);
    && sent <= priority
    && (forall k :: 0 <= k < |g.entries| && Takes(db, g.entries[k].ref, true) ==> EntryAt(db, g.entries, k, priority))
    && var tail := priority[|sent|..];
    if Usable(own) then
      && (forall x :: x in tail <==> x in own.value.priority.value && x !in sent && db.Routable(x))
      && Subsequence(tail, own.value.priority.value)
    else
      tail == []
  }

  /** Entry k, which resolves, stands right behind the entries ahead of it that resolve. */
  ghost predicate EntryAt(db: Member, entries: seq<ExportEntry>, k: nat, priority: seq<Id>)
    requires k < |entries| && Takes(db, entries[k].ref, true)
  {
    var at := |Sent(db, entries[..k], true)|;
    at < |priority| && priority[at] == LocalId(db, entries[k].ref)
  }

  lemma SentAt(db: Member, entries: seq<ExportEntry>, k: nat, auto: bool)
    requires k < |entries| && Takes(db, entries[k].ref, auto)
    ensures Sent(db, entries, auto)
            == Sent(db, entries[..k], auto) + [LocalId(db, entries[k].ref)] + Sent(db, entries[k + 1..], auto)
  {
    var one := [entries[k]];
    assert one[..0] == [] && Sent(db, one, auto) == [LocalId(db, entries[k].ref)];
    assert entries == entries[..k] + one + entries[k + 1..];
    SentInOrder(db, entries[..k], one, auto);
    SentInOrder(db, entries[..k] + one, entries[k + 1..], auto);
  }

  lemma FilledAutoOrder(db: Member, g: ExportGroup, own: Option<GroupRow>)
    requires g.autoCreated
    ensures AutoOrder(db, g, own, Filled(db, g, own).priority)
  {
    SentAreKeys(db, g.entries, true);
    var sent := Sent(db, g.entries, true);
    var keys := SentToggles(db, g.entries, true).Keys;
    forall k | 0 <= k < |g.entries| && Takes(db, g.entries[k].ref, true)
      ensures EntryAt(db, g.entries, k, Filled(db, g, own).priority)
    {
      SentAt(db, g.entries, k, true);
    }
    if Usable(own) {
      ExtrasExactly(db, own.value.priority.value, keys);
      ExtrasSubsequence(db, own.value.priority.value, keys);
      assert (sent + Extras(db, own.value.priority.value, keys))[|sent|..] == Extras(db, own.value.priority.value, keys);
    }
  }

  /** The row an auto group leaves, when it is the last of its name to find two entries or more. */
  lemma AutoGroupOrder(db: Member, groups: seq<ExportGroup>, storeEcho: bool, k: nat)
    requires LastWritten(db, groups, k) && groups[k].autoCreated
    ensures var row := Lookup(GroupSection(db, groups, storeEcho).groups, groups[k].displayModel);
            && row.Some? && row.value.autoCreated && row.value.priority.Some?
            && AutoOrder(db, groups[k], Lookup(db.groups, groups[k].displayModel), row.value.priority.value)
  {
    UpsertedLast(db, groups, k);
    FilledAutoOrder(db, groups[k], Lookup(db.groups, groups[k].displayModel));
  }

  /** A custom row survives iff it was here (or just built) and the envelope names it as custom; an auto row is never deleted. */
  lemma CustomRowsSurvive(db: Member, groups: seq<ExportGroup>, storeEcho: bool, name: string)
    ensures var before := Upserted(db, groups);
            var after := GroupSection(db, groups, storeEcho).groups;
            && (name in after ==> name in before && after[name] == before[name])
            && (name in before && before[name].autoCreated ==> name in after)
            && (name in before && !before[name].autoCreated ==>
                  (name in after <==> NamesCustom(groups, name)))
  {
    CustomNamesAre(groups, name);
  }

  ghost predicate IsSkipped(db: Member, g: ExportGroup) {
    !g.autoCreated && |Fill(db, g).priority| < 2
  }

  ghost predicate IsPartial(db: Member, g: ExportGroup) {
    !g.autoCreated && 2 <= |Fill(db, g).priority| < |g.entries|
  }

  ghost predicate NamesSkipped(db: Member, groups: seq<ExportGroup>, name: string) {
    exists k :: 0 <= k < |groups| && groups[k].displayModel == name && IsSkipped(db, groups[k])
  }

  ghost predicate NamesPartial(db: Member, groups: seq<ExportGroup>, name: string) {
    exists k :: 0 <= k < |groups| && groups[k].displayModel == name && IsPartial(db, groups[k])
  }

  lemma ReportStep(db: Member, groups: seq<ExportGroup>, g: ExportGroup, name: string)
    ensures NamesSkipped(db, groups + [g], name) <==> NamesSkipped(db, groups, name) || (g.displayModel == name && IsSkipped(db, g))
    ensures NamesPartial(db, groups + [g], name) <==> NamesPartial(db, groups, name) || (g.displayModel == name && IsPartial(db, g))
  {
    var longer := groups + [g];
    assert longer[|groups|] == g && forall k :: 0 <= k < |groups| ==> longer[k] == groups[k];
    if NamesSkipped(db, groups, name) {
      var k :| 0 <= k < |groups| && groups[k].displayModel == name && IsSkipped(db, groups[k]);
      assert longer[k].displayModel == name;
    }
    if NamesPartial(db, groups, name) {
      var k :| 0 <= k < |groups| && groups[k].displayModel == name && IsPartial(db, groups[k]);
      assert longer[k].displayModel == name;
    }
  }

  lemma {:induction false} ReportedNames(db: Member, groups: seq<ExportGroup>, name: string)
    ensures name in Skipped(db, groups) <==> NamesSkipped(db, groups, name)
    ensures name in Partial(db, groups) <==> NamesPartial(db, groups, name)
  {
    if groups != [] {
      var n := |groups| - 1;
      ReportedNames(db, groups[..n], name);
      ReportStep(db, groups[..n], groups[n], name);
      assert groups == groups[..n] + [groups[n]];
    }
  }

  /** A name is reported both skipped and partial only for two custom groups that share it;
      no group is both. */
  lemma SkippedNotPartial(db: Member, groups: seq<ExportGroup>, name: string)
    ensures name in Skipped(db, groups) && name in Partial(db, groups)
            <==> exists i, j :: 0 <= i < |groups| && 0 <= j < |groups| && i != j
                                && groups[i].displayModel == name == groups[j].displayModel
                                && IsSkipped(db, groups[i]) && IsPartial(db, groups[j])
  {
    ReportedNames(db, groups, name);
    if NamesSkipped(db, groups, name) && NamesPartial(db, groups, name) {
      var i :| 0 <= i < |groups| && groups[i].displayModel == name && IsSkipped(db, groups[i]);
      var j :| 0 <= j < |groups| && groups[j].displayModel == name && IsPartial(db, groups[j]);
      assert i != j;
    }
  }
}
