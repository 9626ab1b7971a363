/** What the failover-group section leaves of a name, in the envelope's own terms
    (internal/api/configsync_apply_upserts.go). */
module GroupRows {
  import opened Wrappers
  import opened MemberTables
  import opened FailoverGroups
  import opened GroupFixedPoint

  // --- What a group is filled with ---

  /** A custom group takes every model held here, an auto group only one that is on. */
  ghost predicate Resolves(db: Member, g: ExportGroup, i: int) {
    && 0 <= i < |g.entries| && db.Present(g.entries[i].ref)
    && (g.autoCreated ==> db.Routable(LocalId(db, g.entries[i].ref)))
  }

  ghost predicate ResolvesTo(db: Member, g: ExportGroup, i: int, x: Id) {
    Resolves(db, g, i) && LocalId(db, g.entries[i].ref) == x
  }

  ghost predicate IsSent(db: Member, g: ExportGroup, x: Id) {
    exists i :: ResolvesTo(db, g, i, x)
  }

  /** The ids of the entries that resolve, one for each and in their order. */
  ghost predicate SentAtIndices(db: Member, g: ExportGroup, ids: seq<Id>, at: seq<int>) {
    && |at| == |ids|
    && (forall n :: 0 <= n < |at| ==> ResolvesTo(db, g, at[n], ids[n]))
    && (forall m, n :: 0 <= m < n < |at| ==> at[m] < at[n])
    && (forall i :: Resolves(db, g, i) ==> i in at)
  }

  /** This member's own auto row, where both its columns can be read. */
  predicate Readable(own: Option<GroupRow>) {
    own.Some? && own.value.autoCreated && own.value.priority.Some? && own.value.entryEnabled.Some?
  }

  /** What an auto group adds of the member's own: its models that are on and were not sent, in its order. */
  ghost predicate OwnTail(db: Member, g: ExportGroup, own: Option<GroupRow>, tail: seq<Id>) {
    if g.autoCreated && Readable(own) then
      && (forall x :: x in tail <==> x in own.value.priority.value && db.Routable(x) && !IsSent(db, g, x))
      && Subsequence(tail, own.value.priority.value)
    else
      tail == []
  }

  /** A model is switched as the last entry that resolves to it says; one of the member's own as it
      was, and on if it was never switched. */
  ghost predicate Switched(db: Member, g: ExportGroup, own: Option<GroupRow>, x: Id, on: bool) {
    && (forall i :: ResolvesTo(db, g, i, x) && (forall j :: i < j < |g.entries| ==> !ResolvesTo(db, g, j, x)) ==>
          on == g.entries[i].enabled)
    && (!IsSent(db, g, x) && Readable(own) ==>
          on == if x in own.value.entryEnabled.value then own.value.entryEnabled.value[x] else true)
  }

  ghost predicate IsFilling(db: Member, g: ExportGroup, own: Option<GroupRow>, f: Filling, at: seq<int>) {
    && |at| <= |f.priority| && SentAtIndices(db, g, f.priority[..|at|], at)
    && OwnTail(db, g, own, f.priority[|at|..])
    && (forall x :: x in f.toggles <==> x in f.priority)
    && (forall x :: x in f.toggles ==> Switched(db, g, own, x, f.toggles[x]))
  }

  // --- ... is what the section fills it with ---

  function Shorter(g: ExportGroup, n: nat): ExportGroup
    requires n <= |g.entries|
  {
    g.(entries := g.entries[..n])
  }

  lemma {:induction false} SentIndices(db: Member, g: ExportGroup) returns (at: seq<int>)
    ensures SentAtIndices(db, g, Sent(db, g.entries, g.autoCreated), at)
    decreases |g.entries|
  {
    at := [];
    if g.entries != [] {
      var n := |g.entries| - 1;
      var less := Shorter(g, n);
      at := SentIndices(db, less);
      OneMoreIndex(db, g, Sent(db, less.entries, g.autoCreated), at);
      if Resolves(db, g, n) {
        at := at + [n];
      }
    }
  }

  lemma OneMoreIndex(db: Member, g: ExportGroup, ids: seq<Id>, at: seq<int>)
    requires g.entries != [] && SentAtIndices(db, Shorter(g, |g.entries| - 1), ids, at)
    ensures var n := |g.entries| - 1;
            if Resolves(db, g, n) then SentAtIndices(db, g, ids + [LocalId(db, g.entries[n].ref)], at + [n])
            else SentAtIndices(db, g, ids, at)
  {
    var n := |g.entries| - 1;
    var more := at + [n];
    assert more[|at|] == n;
    forall i | Resolves(db, g, i) ensures i in more && (i < n ==> i in at) {
      if i < n {
        assert Resolves(db, Shorter(g, n), i);
      }
    }
    forall m | 0 <= m < |at| ensures ResolvesTo(db, g, at[m], ids[m]) {
      assert ResolvesTo(db, Shorter(g, n), at[m], ids[m]);
    }
  }

  lemma SentIffListed(db: Member, g: ExportGroup, ids: seq<Id>, at: seq<int>, x: Id)
    requires SentAtIndices(db, g, ids, at)
    ensures x in ids <==> IsSent(db, g, x)
  {
    if n :| 0 <= n < |ids| && ids[n] == x {
      assert ResolvesTo(db, g, at[n], x);
    }
    if i :| ResolvesTo(db, g, i, x) {
      assert i in at;
      var n :| 0 <= n < |at| && at[n] == i;
      assert ids[n] == x;
    }
  }

  lemma {:induction false} LastSwitches(db: Member, g: ExportGroup, i: int, x: Id)
    requires ResolvesTo(db, g, i, x) && forall j :: i < j < |g.entries| ==> !ResolvesTo(db, g, j, x)
    ensures var toggles := SentToggles(db, g.entries, g.autoCreated); x in toggles && toggles[x] == g.entries[i].enabled
    decreases |g.entries|
  {
    var n := |g.entries| - 1;
    if i < n {
      var less := Shorter(g, n);
      assert ResolvesTo(db, less, i, x);
      forall j | i < j < n ensures !ResolvesTo(db, less, j, x) {
        assert !ResolvesTo(db, g, j, x);
      }
      LastSwitches(db, less, i, x);
      assert !ResolvesTo(db, g, n, x);
    }
  }

  /** The section's filling is the filling described above. */
  lemma FilledIs(db: Member, g: ExportGroup, own: Option<GroupRow>) returns (at: seq<int>)
    ensures IsFilling(db, g, own, Filled(db, g, own), at)
  {
    var sent, toggles := Sent(db, g.entries, g.autoCreated), SentToggles(db, g.entries, g.autoCreated);
    at := SentIndices(db, g);
    SentAreKeys(db, g.entries, g.autoCreated);
    forall x ensures (x in sent) == IsSent(db, g, x) {
      SentIffListed(db, g, sent, at, x);
    }
    var f := Filled(db, g, own);
    if g.autoCreated && Usable(own) {
      ExtrasExactly(db, own.value.priority.value, toggles.Keys);
      ExtrasSubsequence(db, own.value.priority.value, toggles.Keys);
      var extras := Extras(db, own.value.priority.value, toggles.Keys);
      assert f.priority[..|at|] == sent && f.priority[|at|..] == extras;
    } else {
      assert f.priority[..|at|] == sent && f.priority[|at|..] == [];
    }
    forall x | x in f.toggles ensures Switched(db, g, own, x, f.toggles[x]) {
      SwitchedAs(db, g, own, x);
    }
  }

  lemma SwitchedAs(db: Member, g: ExportGroup, own: Option<GroupRow>, x: Id)
    requires x in Filled(db, g, own).toggles
    requires x in Sent(db, g.entries, g.autoCreated) <==> IsSent(db, g, x)
    ensures Switched(db, g, own, x, Filled(db, g, own).toggles[x])
  {
    SentAreKeys(db, g.entries, g.autoCreated);
    var toggles := SentToggles(db, g.entries, g.autoCreated);
    if g.autoCreated && Usable(own) {
      ExtrasExactly(db, own.value.priority.value, toggles.Keys);
    }
    forall i | ResolvesTo(db, g, i, x) && (forall j :: i < j < |g.entries| ==> !ResolvesTo(db, g, j, x))
      ensures Filled(db, g, own).toggles[x] == g.entries[i].enabled
    {
      LastSwitches(db, g, i, x);
    }
  }

  // --- The row of a name ---

  /** The row of group g under that filling. */
  ghost predicate RowOf(g: ExportGroup, own: Option<GroupRow>, f: Filling, row: GroupRow) {
    && row.priority == Some(f.priority) && row.entryEnabled == Some(f.toggles)
    && row.groupEnabled == g.groupEnabled && row.displayName == g.displayName && row.description == g.description
    && row.autoCreated == g.autoCreated
    && (g.groupEnabled || g.autoCreated || own.None? ==> row.autoDisabledAt.None?)
    && (row.autoDisabledAt.Some? ==> row.autoDisabledAt == own.value.autoDisabledAt)
  }

  ghost predicate FilledWith(db: Member, g: ExportGroup, own: Option<GroupRow>, f: Filling) {
    exists at :: IsFilling(db, g, own, f, at)
  }

  /** The group finds fewer than two entries. */
  ghost predicate Short(db: Member, g: ExportGroup, own: Option<GroupRow>) {
    exists f :: FilledWith(db, g, own, f) && |f.priority| < 2
  }

  /** Group k is the last of the name to find two entries or more, and the row is the one it writes. */
  ghost predicate WrittenBy(db: Member, groups: seq<ExportGroup>, name: string, k: nat, row: GroupRow) {
    var own := Lookup(db.groups, name);
    && k < |groups| && groups[k].displayModel == name
    && (exists f :: FilledWith(db, groups[k], own, f) && |f.priority| >= 2 && RowOf(groups[k], own, f, row))
    && (forall j :: k < j < |groups| && groups[j].displayModel == name ==> Short(db, groups[j], own))
    && (own.Some? && (forall j :: 0 <= j <= k && groups[j].displayModel == name ==> !groups[j].groupEnabled && !groups[j].autoCreated) ==>
          row.autoDisabledAt == own.value.autoDisabledAt)
  }

  /** The row a name has after the section: the one its last group of two entries or more writes; without
      such a group the row found, unless it is a custom one the envelope does not name as custom. */
  lemma RowAfter(db: Member, groups: seq<ExportGroup>, storeEcho: bool, name: string)
    requires db.RefsUnique()
    ensures var row := Lookup(GroupSection(db, groups, storeEcho).groups, name);
            || (row.Some? && exists k: nat :: WrittenBy(db, groups, name, k, row.value))
            || ((forall j :: 0 <= j < |groups| && groups[j].displayModel == name ==> Short(db, groups[j], Lookup(db.groups, name)))
                && row == if name in db.groups && !db.groups[name].autoCreated && !NamesCustom(groups, name) then None
                          else Lookup(db.groups, name))
  {
    var own := Lookup(db.groups, name);
    SectionIs(db, db, groups, storeEcho, name);
    FindLast(db, own, groups, name);
    if k: nat :| Last(db, own, groups, name, k) {
      forall j | k < j < |groups| && groups[j].displayModel == name ensures Short(db, groups[j], own) {
        NotReached(db, own, groups[j]);
      }
      LastWrites(db, own, groups, name, k);
      if own.Some? && (forall j :: 0 <= j <= k && groups[j].displayModel == name ==> !groups[j].groupEnabled && !groups[j].autoCreated) {
        StampStays(db, own, groups, name, k);
      }
      assert WrittenBy(db, groups, name, k, Written(db, own, groups, name).value);
      assert !groups[k].autoCreated ==> NamesCustom(groups, name);
    } else {
      forall j | 0 <= j < |groups| && groups[j].displayModel == name ensures Short(db, groups[j], own) {
        NotReached(db, own, groups[j]);
      }
      WrittenNone(db, own, groups, name);
    }
  }

  /** A stamp stands where no group up to the last written one clears it. */
  lemma StampStays(db: Member, own: Option<GroupRow>, groups: seq<ExportGroup>, name: string, k: nat)
    requires Last(db, own, groups, name, k) && own.Some?
    requires forall j :: 0 <= j <= k && groups[j].displayModel == name ==> !groups[j].groupEnabled && !groups[j].autoCreated
    ensures Written(db, own, groups, name).Some? && Written(db, own, groups, name).value.autoDisabledAt == own.value.autoDisabledAt
  {
    StampAfter(db, own, groups, name);
    forall j | 0 <= j < |groups| ensures !ClearsStamp(db, own, groups[j], name) {
      assert groups[j].displayModel == name ==> j <= k || !Reaches(db, own, groups[j]);
    }
  }

  lemma NotReached(db: Member, own: Option<GroupRow>, g: ExportGroup)
    requires !Reaches(db, own, g)
    ensures Short(db, g, own)
  {
    var at := FilledIs(db, g, own);
    assert FilledWith(db, g, own, Filled(db, g, own));
  }

  lemma LastWrites(db: Member, own: Option<GroupRow>, groups: seq<ExportGroup>, name: string, k: nat)
    requires Last(db, own, groups, name, k)
    ensures var row := Written(db, own, groups, name);
            row.Some? && row.value.autoCreated == groups[k].autoCreated
            && exists f :: FilledWith(db, groups[k], own, f) && |f.priority| >= 2 && RowOf(groups[k], own, f, row.value)
  {
    WrittenLast(db, own, groups, name, k);
    StampAfter(db, own, groups, name);
    var f := Filled(db, groups[k], own);
    var at := FilledIs(db, groups[k], own);
    assert FilledWith(db, groups[k], own, f);
    assert RowOf(groups[k], own, f, Written(db, own, groups, name).value);
  }

  // --- The report and the echo ---

  /** The entries of a group that resolve here. */
  ghost function Found(db: Member, g: ExportGroup): set<int> {
    set i | 0 <= i < |g.entries| && Resolves(db, g, i)
  }

  lemma {:induction false} FoundAreSent(db: Member, g: ExportGroup)
    ensures |Sent(db, g.entries, g.autoCreated)| == |Found(db, g)|
    decreases |g.entries|
  {
    if g.entries != [] {
      var n := |g.entries| - 1;
      var less := Shorter(g, n);
      FoundAreSent(db, less);
      forall i | 0 <= i < n ensures Resolves(db, less, i) == Resolves(db, g, i) {
      }
      if Resolves(db, g, n) {
        assert Found(db, g) == Found(db, less) + {n};
      } else {
        assert Found(db, g) == Found(db, less);
      }
    } else {
      assert Found(db, g) == {};
    }
  }

  /** A name is reported skipped for a custom group of which fewer than two entries are held here, and
      partial for one of which two or more are held, but not all. */
  lemma ReportedExactly(db: Member, groups: seq<ExportGroup>, name: string)
    ensures name in Skipped(db, groups)
            <==> exists k :: 0 <= k < |groups| && groups[k].displayModel == name && !groups[k].autoCreated
                             && |Found(db, groups[k])| < 2
    ensures name in Partial(db, groups)
            <==> exists k :: 0 <= k < |groups| && groups[k].displayModel == name && !groups[k].autoCreated
                             && 2 <= |Found(db, groups[k])| < |groups[k].entries|
  {
    ReportedNames(db, groups, name);
    forall k | 0 <= k < |groups| && !groups[k].autoCreated ensures |Fill(db, groups[k]).priority| == |Found(db, groups[k])| {
      FoundAreSent(db, groups[k]);
    }
  }

  /** The auto groups of the list, in order. */
  ghost predicate AutosAt(groups: seq<ExportGroup>, autos: seq<ExportGroup>, at: seq<int>) {
    && |at| == |autos|
    && (forall n :: 0 <= n < |at| ==> 0 <= at[n] < |groups| && groups[at[n]].autoCreated && autos[n] == groups[at[n]])
    && (forall m, n :: 0 <= m < n < |at| ==> at[m] < at[n])
    && (forall k :: 0 <= k < |groups| && groups[k].autoCreated ==> k in at)
  }

  lemma OneMoreAuto(groups: seq<ExportGroup>, g: ExportGroup, autos: seq<ExportGroup>, at: seq<int>)
    requires AutosAt(groups, autos, at)
    ensures if g.autoCreated then AutosAt(groups + [g], autos + [g], at + [|groups|]) else AutosAt(groups + [g], autos, at)
  {
    var longer, more := groups + [g], at + [|groups|];
    assert more[|at|] == |groups|;
    forall k | 0 <= k < |longer| && longer[k].autoCreated ensures k in more && (k < |groups| ==> k in at) {
      if k < |groups| {
        assert groups[k].autoCreated;
      }
    }
  }

  lemma {:induction false} AutosAre(groups: seq<ExportGroup>) returns (at: seq<int>)
    ensures AutosAt(groups, AutoGroups(groups), at)
  {
    at := [];
    if groups != [] {
      var n := |groups| - 1;
      at := AutosAre(groups[..n]);
      OneMoreAuto(groups[..n], groups[n], AutoGroups(groups[..n]), at);
      assert groups == groups[..n] + [groups[n]];
      if groups[n].autoCreated {
        at := at + [n];
      }
    }
  }

  /** The section touches the group rows and the echo alone; the echo is the envelope's auto groups, in
      order, when this member's discovery ran, and none otherwise. */
  lemma EchoAfter(db: Member, groups: seq<ExportGroup>, storeEcho: bool)
    ensures var after := GroupSection(db, groups, storeEcho);
            && after == db.(groups := after.groups, autoEcho := after.autoEcho)
            && (after.autoEcho.Some? <==> storeEcho)
            && (storeEcho ==> exists at :: AutosAt(groups, after.autoEcho.value, at))
  {
    var at := AutosAre(groups);
  }
}
