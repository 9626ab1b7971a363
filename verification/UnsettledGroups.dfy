/** The members that auto groups of one name leave unsettled, and with them the exact condition on
    an envelope under which every member settles in one run. */
module UnsettledGroups {
  import opened Wrappers
  import opened MemberTables
  import opened FailoverGroups
  import opened GroupFixedPoint
  import opened RepeatedGroups

  // --- A member of a few models ---

  const FIELDS := ProviderFields("", "", "", None, true, true, None, None)

  function Enabled(provider: Id, ref: ModelRef): ModelRow {
    ModelRow(provider, ref.modelId, true, false, None, None, 0, None, false)
  }

  /** The member's own auto row of one model. */
  function Own(o: Id): GroupRow { GroupRow(Some([o]), Some(map[]), true, None, "", true, None) }

  ghost predicate Apart(refs: seq<ModelRef>) {
    forall i, j :: 0 <= i < j < |refs| ==> refs[i] != refs[j] && Coexist(refs[i], refs[j])
  }

  /** The first of the models under one's provider stands for that provider. */
  function ProviderOf(refs: seq<ModelRef>, i: nat, from: nat): (p: nat)
    requires from <= i < |refs| && forall q :: 0 <= q < from ==> refs[q].providerName != refs[i].providerName
    ensures p <= i && refs[p].providerName == refs[i].providerName
    ensures forall q :: 0 <= q < p ==> refs[q].providerName != refs[i].providerName
    decreases i - from
  {
    if refs[from].providerName == refs[i].providerName then from else ProviderOf(refs, i, from + 1)
  }

  /** Model i answers to refs[i]; every one routes. */
  function Holding(refs: seq<ModelRef>, name: string, own: Option<GroupRow>): Member {
    Member(map p | 0 <= p < |refs| && ProviderOf(refs, p, 0) == p :: ProviderRow(refs[p].providerName, FIELDS, 0),
           map i | 0 <= i < |refs| :: Enabled(ProviderOf(refs, i, 0), refs[i]),
           if own.Some? then map[name := own.value] else map[],
           map[], map[], map[], None, None, None, NoRow, NoRow)
  }

  ghost predicate Held(db: Member, refs: seq<ModelRef>) {
    && Constrained(db)
    && (forall i :: i in db.models <==> 0 <= i < |refs|)
    && (forall i :: 0 <= i < |refs| ==> db.RefOf(i) == Some(refs[i]) && db.Routable(i))
  }

  lemma ProviderStands(refs: seq<ModelRef>, i: nat)
    requires i < |refs|
    ensures var p := ProviderOf(refs, i, 0); ProviderOf(refs, p, 0) == p
  {
  }

  lemma ProvidersApart(refs: seq<ModelRef>, name: string, own: Option<GroupRow>)
    requires Apart(refs)
    ensures ProviderNamesUnique(Holding(refs, name, own).providers)
  {
    var providers := Holding(refs, name, own).providers;
    forall i, j | i in providers && j in providers && i != j
      ensures NormalizeName(providers[i].name) != NormalizeName(providers[j].name)
    {
      assert if i < j then Coexist(refs[i], refs[j]) else Coexist(refs[j], refs[i]);
    }
  }

  lemma ModelsApart(refs: seq<ModelRef>, name: string, own: Option<GroupRow>)
    requires Apart(refs)
    ensures ModelsKeyed(Holding(refs, name, own).providers, Holding(refs, name, own).models)
  {
    var db := Holding(refs, name, own);
    forall i | i in db.models ensures db.models[i].provider in db.providers {
      ProviderStands(refs, i);
    }
    forall i, j | i in db.models && j in db.models && i != j
      ensures db.models[i].provider != db.models[j].provider || db.models[i].modelId != db.models[j].modelId
    {
      assert refs[i] != refs[j];
      assert refs[ProviderOf(refs, i, 0)].providerName == refs[i].providerName;
      assert refs[ProviderOf(refs, j, 0)].providerName == refs[j].providerName;
    }
  }

  lemma HoldingHolds(refs: seq<ModelRef>, name: string, own: Option<GroupRow>)
    requires Apart(refs)
    ensures Held(Holding(refs, name, own), refs)
    ensures Lookup(Holding(refs, name, own).groups, name) == own
  {
    var db := Holding(refs, name, own);
    ProvidersApart(refs, name, own);
    ModelsApart(refs, name, own);
    forall i | 0 <= i < |refs| ensures db.RefOf(i) == Some(refs[i]) && db.Routable(i) {
      ProviderStands(refs, i);
      assert refs[ProviderOf(refs, i, 0)].providerName == refs[i].providerName;
    }
  }

  lemma HeldTakes(db: Member, refs: seq<ModelRef>, ref: ModelRef, auto: bool)
    requires Held(db, refs)
    ensures Takes(db, ref, auto) <==> ref in refs
  {
    if i :| 0 <= i < |refs| && refs[i] == ref {
      assert db.Present(ref);
    }
  }

  lemma HeldId(db: Member, refs: seq<ModelRef>, i: Id)
    requires Held(db, refs) && 0 <= i < |refs|
    ensures Takes(db, refs[i], true) && LocalId(db, refs[i]) == i
  {
    HeldTakes(db, refs, refs[i], true);
    ConstrainedRefsUnique(db);
  }

  lemma {:induction false} AtMostOneSent(db: Member, entries: seq<ExportEntry>, auto: bool, refs: set<ModelRef>)
    requires AtMostOne(entries, refs) && forall ref :: Takes(db, ref, auto) ==> ref in refs
    ensures |Sent(db, entries, auto)| <= 1
  {
    if entries != [] {
      var n := |entries| - 1;
      AtMostOneSent(db, entries[..n], auto, refs);
      if Takes(db, entries[n].ref, auto) {
        forall i | 0 <= i < n ensures !Takes(db, entries[..n][i].ref, auto) {
          assert entries[i].ref !in refs;
        }
        SentNone(db, entries[..n], auto);
      }
    }
  }

  lemma ShortSent(db: Member, refs: seq<ModelRef>, groups: seq<ExportGroup>, l: int, k: int, all: set<ModelRef>)
    requires Held(db, refs) && Short(groups, l, all) && Later(groups, l, k) && forall ref :: ref in refs ==> ref in all
    ensures |Sent(db, groups[k].entries, groups[k].autoCreated)| <= 1
  {
    forall ref | Takes(db, ref, groups[k].autoCreated) ensures ref in all {
      HeldTakes(db, refs, ref, groups[k].autoCreated);
    }
    AtMostOneSent(db, groups[k].entries, groups[k].autoCreated, all);
  }

  lemma SentId(db: Member, refs: seq<ModelRef>, entries: seq<ExportEntry>, i: Id)
    requires Held(db, refs) && 0 <= i < |refs|
    ensures i in Sent(db, entries, true) <==> Mentions(entries, refs[i])
  {
    HeldId(db, refs, i);
    SentFrom(db, entries, i);
    if m :| Taken(db, entries, m) && LocalId(db, entries[m].ref) == i {
      SameId(db, entries[m].ref, refs[i]);
    }
    if m :| 0 <= m < |entries| && entries[m].ref == refs[i] {
      assert Taken(db, entries, m);
    }
  }

  // --- The last group over the row found, and over the row it left ---

  /** Only g, of its name and behind it, fills over the row found; what it leaves are two models. */
  ghost predicate Scene(db: Member, own: Option<GroupRow>, groups: seq<ExportGroup>, l: nat, j: nat, x: Id, y: Id) {
    && LastRival(groups, l, j) && x != y && db.Routable(x) && db.Routable(y)
    && Reaches(db, own, groups[l]) && (forall k :: Later(groups, l, k) ==> !Reaches(db, own, groups[k]))
    && var p := AutoRow(db, groups[l], own).priority.value; x in p && y in p
  }

  lemma SceneLasts(db: Member, own: Option<GroupRow>, groups: seq<ExportGroup>, l: nat, j: nat, x: Id, y: Id)
    requires Scene(db, own, groups, l, j, x, y)
    ensures Last(db, own, groups, groups[l].displayModel, l)
    ensures Last(db, Some(AutoRow(db, groups[l], own)), groups, groups[l].displayModel, j)
  {
    var row := AutoRow(db, groups[l], own);
    TwoFill(db, groups[j], Some(row), x, y);
    forall k | Later(groups, j, k) ensures !Reaches(db, Some(row), groups[k]) {
      assert Later(groups, l, k) && Filled(db, groups[k], Some(row)) == Filled(db, groups[k], own);
    }
  }

  ghost predicate Settles(db: Member, groups: seq<ExportGroup>, storeEcho: bool) {
    var once := GroupSection(db, groups, storeEcho);
    GroupSection(once, groups, storeEcho) == once
  }

  lemma OverwriteUnsettles(db: Member, groups: seq<ExportGroup>, storeEcho: bool, l: nat, j: nat)
    requires Constrained(db) && l < |groups|
    requires var name := groups[l].displayModel; Overwrites(db, Lookup(db.groups, name), groups, name, l, j)
    ensures !Settles(db, groups, storeEcho)
  {
    assert Rewritten(db, groups, groups[l].displayModel);
    ConstrainedRefsUnique(db);
    GroupsFixedPointIff(db, groups, storeEcho);
  }

  lemma SceneUnsettles(db: Member, groups: seq<ExportGroup>, storeEcho: bool, l: nat, j: nat, x: Id, y: Id)
    requires Constrained(db) && l < j < |groups|
    requires var own := Lookup(db.groups, groups[l].displayModel);
             && Scene(db, own, groups, l, j, x, y)
             && AutoRow(db, groups[j], Some(AutoRow(db, groups[l], own))) != AutoRow(db, groups[l], own)
    ensures !Settles(db, groups, storeEcho)
  {
    SceneLasts(db, Lookup(db.groups, groups[l].displayModel), groups, l, j, x, y);
    OverwriteUnsettles(db, groups, storeEcho, l, j);
  }

  /** A row the last group would write again has its text, no model twice, and its one entry in front. */
  lemma SameRow(db: Member, g: ExportGroup, h: ExportGroup, own: Option<GroupRow>)
    requires g.autoCreated && h.autoCreated && |Sent(db, h.entries, true)| <= 1
    requires AutoRow(db, h, Some(AutoRow(db, g, own))) == AutoRow(db, g, own)
    ensures SameText(g, h)
    ensures var p := AutoRow(db, g, own).priority.value;
            && (forall a, b :: 0 <= a < b < |p| ==> p[a] != p[b])
            && Sent(db, h.entries, true) <= p
  {
    var row := AutoRow(db, g, own);
    FillingOf(db, h, Some(row));
    DistinctJoin(Sent(db, h.entries, true), OwnExtras(db, h, Some(row)));
  }

  lemma SameToggle(db: Member, g: ExportGroup, h: ExportGroup, own: Option<GroupRow>, m: nat)
    requires g.autoCreated && h.autoCreated && |Sent(db, h.entries, true)| <= 1 && Taken(db, h.entries, m)
    requires AutoRow(db, h, Some(AutoRow(db, g, own))) == AutoRow(db, g, own)
    ensures var f, x := Filled(db, g, own), LocalId(db, h.entries[m].ref);
            |f.priority| > 0 && f.priority[0] == x && x in f.toggles && f.toggles[x] == h.entries[m].enabled
  {
    SameRow(db, g, h, own);
    OnlyTaken(db, h.entries, m);
    ToggleAt(db, h.entries, m);
    FillingOf(db, h, Some(AutoRow(db, g, own)));
    assert [LocalId(db, h.entries[m].ref)][0] in Sent(db, h.entries, true);
  }

  /** A group one model alone would fill does not. */
  lemma OneIdShort(db: Member, g: ExportGroup, own: Option<GroupRow>, z: Id)
    requires g.autoCreated && |Sent(db, g.entries, true)| <= 1
    requires forall i :: i in Sent(db, g.entries, true) ==> i == z
    requires Usable(own) ==> forall i :: i in own.value.priority.value ==> i == z
    ensures !Reaches(db, own, g)
  {
    FillingOf(db, g, own);
    DistinctJoin(Sent(db, g.entries, true), OwnExtras(db, g, own));
    AllAreOne(Filled(db, g, own).priority, z);
  }

  lemma SentHeld(db: Member, refs: seq<ModelRef>, entries: seq<ExportEntry>)
    requires Held(db, refs)
    ensures forall i :: i in Sent(db, entries, true) ==> 0 <= i < |refs|
  {
    forall i | i in Sent(db, entries, true) ensures 0 <= i < |refs| {
      SentFrom(db, entries, i);
    }
  }

  // --- Over no row, two models ---

  lemma OnceOf(entries: seq<ExportEntry>, k: int)
    requires 0 <= k < |entries| && AtMostOne(entries, {entries[k].ref})
    ensures Once(entries, k)
  {
    if !Once(entries, k) {
      NotOnce(entries, k);
    }
  }

  lemma FrontIsFirst(before: seq<Id>, x: Id, after: seq<Id>)
    requires var s := before + [x] + after; s[0] == x && forall a, b :: 0 <= a < b < |s| ==> s[a] != s[b]
    ensures before == []
  {
    assert (before + [x] + after)[|before|] == x;
  }

  /** The entry of g that heads what it resolves, with h's toggle, leads. */
  lemma LeadsFirst(db: Member, g: ExportGroup, h: ExportGroup, m: nat, x: ModelRef, y: ModelRef)
    requires Takes(db, x, true) && Takes(db, y, true) && Taken(db, h.entries, m)
    requires var s := Sent(db, g.entries, true);
             |s| > 0 && s[0] == LocalId(db, h.entries[m].ref) && forall a, b :: 0 <= a < b < |s| ==> s[a] != s[b]
    requires var id := LocalId(db, h.entries[m].ref);
             id in SentToggles(db, g.entries, true) && SentToggles(db, g.entries, true)[id] == h.entries[m].enabled
    ensures Leads(g, h, m, x, y)
  {
    var e, id := g.entries, LocalId(db, h.entries[m].ref);
    SentFrom(db, e, id);
    var k :| Taken(db, e, k) && LocalId(db, e[k].ref) == id;
    SameId(db, e[k].ref, h.entries[m].ref);
    DistinctOnce(db, e, e[k].ref);
    OnceOf(e, k);
    ToggleAt(db, e, k);
    SentAt(db, e, k, true);
    FrontIsFirst(Sent(db, e[..k], true), id, Sent(db, e[k + 1..], true));
    forall i | 0 <= i < |e| && i != k && e[i].ref in {x, y} ensures k < i {
      if i < k {
        assert Taken(db, e[..k], i);
        SentOf(db, e[..k], i);
      }
    }
    assert Ahead(e, k, x, y);
  }

  lemma BareSame(db: Member, g: ExportGroup, h: ExportGroup, x: ModelRef, y: ModelRef, b: ModelRef)
    requires g.autoCreated && h.autoCreated && |Sent(db, h.entries, true)| <= 1
    requires Takes(db, x, true) && Takes(db, y, true) && Takes(db, b, true)
    requires AutoRow(db, h, Some(AutoRow(db, g, None))) == AutoRow(db, g, None)
    ensures SameText(g, h) && AtMostOne(g.entries, {x}) && AtMostOne(g.entries, {y})
    ensures forall m :: 0 <= m < |h.entries| && h.entries[m].ref == b ==> Leads(g, h, m, x, y)
  {
    SameRow(db, g, h, None);
    FillingOf(db, g, None);
    assert Filled(db, g, None).priority == Sent(db, g.entries, true);
    DistinctOnce(db, g.entries, x);
    DistinctOnce(db, g.entries, y);
    forall m | 0 <= m < |h.entries| && h.entries[m].ref == b ensures Leads(g, h, m, x, y) {
      assert Taken(db, h.entries, m);
      SameToggle(db, g, h, None, m);
      LeadsFirst(db, g, h, m, x, y);
    }
  }

  lemma BareIsScene(db: Member, refs: seq<ModelRef>, groups: seq<ExportGroup>, l: nat, j: nat, x: ModelRef, y: ModelRef, b: ModelRef)
    requires BareRewrites(groups, l, j, x, y, b) && Held(db, refs) && |refs| >= 2 && refs[0] == x && refs[1] == y
    requires forall ref :: ref in refs ==> ref in {x, y, b}
    ensures Scene(db, None, groups, l, j, 0, 1)
  {
    var g := groups[l];
    SentId(db, refs, g.entries, 0);
    SentId(db, refs, g.entries, 1);
    TwoFill(db, g, None, 0, 1);
    FillingOf(db, g, None);
    forall k | Later(groups, l, k) ensures !Reaches(db, None, groups[k]) {
      ShortSent(db, refs, groups, l, k, {x, y, b});
    }
  }

  lemma BareDiffers(db: Member, refs: seq<ModelRef>, groups: seq<ExportGroup>, l: nat, j: nat, x: ModelRef, y: ModelRef, b: ModelRef)
    requires BareRewrites(groups, l, j, x, y, b) && Held(db, refs) && x in refs && y in refs && b in refs
    requires forall ref :: ref in refs ==> ref in {x, y, b}
    ensures AutoRow(db, groups[j], Some(AutoRow(db, groups[l], None))) != AutoRow(db, groups[l], None)
  {
    HeldTakes(db, refs, x, true);
    HeldTakes(db, refs, y, true);
    HeldTakes(db, refs, b, true);
    ShortSent(db, refs, groups, l, j, {x, y, b});
    if AutoRow(db, groups[j], Some(AutoRow(db, groups[l], None))) == AutoRow(db, groups[l], None) {
      BareSame(db, groups[l], groups[j], x, y, b);
    }
  }

  lemma BareRefs(x: ModelRef, y: ModelRef, b: ModelRef) returns (refs: seq<ModelRef>)
    requires x != y && Coexist(x, y) && Coexist(x, b) && Coexist(y, b)
    ensures Apart(refs) && |refs| >= 2 && refs[0] == x && refs[1] == y && b in refs
    ensures forall ref :: ref in refs ==> ref in {x, y, b}
  {
    refs := if b == x || b == y then [x, y] else [x, y, b];
    assert refs[|refs| - 1] == b || b in {refs[0], refs[1]};
  }

  lemma BareUnsettles(groups: seq<ExportGroup>, storeEcho: bool, l: nat, j: nat, x: ModelRef, y: ModelRef, b: ModelRef)
    returns (db: Member)
    requires BareRewrites(groups, l, j, x, y, b)
    ensures Constrained(db) && !Settles(db, groups, storeEcho)
  {
    var refs := BareRefs(x, y, b);
    assert refs[0] in refs && refs[1] in refs;
    db := Holding(refs, groups[l].displayModel, None);
    HoldingHolds(refs, groups[l].displayModel, None);
    BareIsScene(db, refs, groups, l, j, x, y, b);
    BareDiffers(db, refs, groups, l, j, x, y, b);
    SceneUnsettles(db, groups, storeEcho, l, j, 0, 1);
  }

  // --- Over no row, one model listed twice ---

  /** The last auto group of the name to list b. */
  lemma LastListing(groups: seq<ExportGroup>, l: nat, j: nat, b: ModelRef) returns (last: nat)
    requires Rivals(groups, l, j) && Mentions(groups[j].entries, b)
    ensures Rivals(groups, l, last) && Mentions(groups[last].entries, b)
    ensures forall k :: Later(groups, last, k) && groups[k].autoCreated ==> !Mentions(groups[k].entries, b)
    decreases |groups| - j
  {
    if k: nat :| Later(groups, j, k) && groups[k].autoCreated && Mentions(groups[k].entries, b) {
      last := LastListing(groups, l, k, b);
    } else {
      last := j;
    }
  }

  lemma TwiceRow(db: Member, refs: seq<ModelRef>, g: ExportGroup, x: ModelRef, b: ModelRef)
    requires Held(db, refs) && refs == [x, b] && g.autoCreated && !AtMostOne(g.entries, {x}) && !Mentions(g.entries, b)
    ensures Reaches(db, None, g) && forall i :: i in AutoRow(db, g, None).priority.value <==> i == 0
  {
    HeldTakes(db, refs, x, true);
    var i: nat, k: nat :| i < k < |g.entries| && g.entries[i].ref in {x} && g.entries[k].ref in {x};
    TwoTaken(db, g.entries, i, k, true);
    FillingOf(db, g, None);
    SentId(db, refs, g.entries, 0);
    SentId(db, refs, g.entries, 1);
    SentHeld(db, refs, g.entries);
  }

  lemma TwiceLasts(db: Member, refs: seq<ModelRef>, groups: seq<ExportGroup>, l: nat, j: nat, x: ModelRef, b: ModelRef)
    requires TwiceRewrites(groups, l, j, x, b) && Held(db, refs) && refs == [x, b]
    requires forall k :: Later(groups, j, k) && groups[k].autoCreated ==> !Mentions(groups[k].entries, b)
    ensures var name, row := groups[l].displayModel, AutoRow(db, groups[l], None);
            Last(db, None, groups, name, l) && Last(db, Some(row), groups, name, j)
  {
    var g, row := groups[l], AutoRow(db, groups[l], None);
    TwiceRow(db, refs, g, x, b);
    forall k | Later(groups, l, k) ensures |Sent(db, groups[k].entries, groups[k].autoCreated)| <= 1 {
      ShortSent(db, refs, groups, l, k, {x, b});
    }
    SentId(db, refs, groups[j].entries, 1);
    TwoFill(db, groups[j], Some(row), 0, 1);
    forall k | Later(groups, j, k) ensures !Reaches(db, Some(row), groups[k]) {
      assert Later(groups, l, k);
      if groups[k].autoCreated {
        SentId(db, refs, groups[k].entries, 1);
        SentHeld(db, refs, groups[k].entries);
        OneIdShort(db, groups[k], Some(row), 0);
      }
    }
  }

  lemma TwiceDiffers(db: Member, refs: seq<ModelRef>, g: ExportGroup, h: ExportGroup, x: ModelRef, b: ModelRef)
    requires Held(db, refs) && refs == [x, b] && g.autoCreated && !AtMostOne(g.entries, {x}) && !Mentions(g.entries, b)
    requires h.autoCreated && Mentions(h.entries, b) && |Sent(db, h.entries, true)| <= 1
    ensures AutoRow(db, h, Some(AutoRow(db, g, None))) != AutoRow(db, g, None)
  {
    TwiceRow(db, refs, g, x, b);
    SentId(db, refs, h.entries, 1);
    var p := AutoRow(db, g, None).priority.value;
    assert |p| > 0 ==> p[0] in p;
    if AutoRow(db, h, Some(AutoRow(db, g, None))) == AutoRow(db, g, None) {
      SameRow(db, g, h, None);
    }
  }

  lemma TwiceUnsettles(groups: seq<ExportGroup>, storeEcho: bool, l: nat, j: nat, x: ModelRef, b: ModelRef) returns (db: Member)
    requires TwiceRewrites(groups, l, j, x, b)
    ensures Constrained(db) && !Settles(db, groups, storeEcho)
  {
    var g := groups[l];
    var last := LastListing(groups, l, j, b);
    var refs := [x, b];
    db := Holding(refs, g.displayModel, None);
    HoldingHolds(refs, g.displayModel, None);
    TwiceLasts(db, refs, groups, l, last, x, b);
    ShortSent(db, refs, groups, l, last, {x, b});
    TwiceDiffers(db, refs, g, groups[last], x, b);
    OverwriteUnsettles(db, groups, storeEcho, l, last);
  }

  // --- Over the member's own row ---

  lemma OwnIsScene(db: Member, refs: seq<ModelRef>, groups: seq<ExportGroup>, l: nat, j: nat, x: ModelRef, o: ModelRef)
    requires OwnRewrites(groups, l, j, x, o) && Held(db, refs) && refs == [x, o]
    ensures Scene(db, Some(Own(1)), groups, l, j, 0, 1)
  {
    var g := groups[l];
    SentId(db, refs, g.entries, 0);
    TwoFill(db, g, Some(Own(1)), 0, 1);
    FillingOf(db, g, Some(Own(1)));
    forall k | Later(groups, l, k) ensures !Reaches(db, Some(Own(1)), groups[k]) {
      ShortSent(db, refs, groups, l, k, {x, o});
      if groups[k].autoCreated {
        SentId(db, refs, groups[k].entries, 0);
        SentHeld(db, refs, groups[k].entries);
        OneIdShort(db, groups[k], Some(Own(1)), 1);
      }
    }
  }

  lemma OwnSame(db: Member, refs: seq<ModelRef>, g: ExportGroup, h: ExportGroup, x: ModelRef, o: ModelRef)
    requires Held(db, refs) && refs == [x, o] && g.autoCreated && h.autoCreated && |Sent(db, h.entries, true)| <= 1
    requires Mentions(g.entries, x) && !Mentions(g.entries, o)
    requires AutoRow(db, h, Some(AutoRow(db, g, Some(Own(1))))) == AutoRow(db, g, Some(Own(1)))
    ensures SameText(g, h) && AtMostOne(g.entries, {x}) && !Mentions(h.entries, o)
  {
    SameRow(db, g, h, Some(Own(1)));
    FillingOf(db, g, Some(Own(1)));
    var p, sent := Filled(db, g, Some(Own(1))).priority, Sent(db, g.entries, true);
    forall a, b | 0 <= a < b < |sent| ensures sent[a] != sent[b] {
      assert p[a] == sent[a] && p[b] == sent[b];
    }
    HeldTakes(db, refs, x, true);
    DistinctOnce(db, g.entries, x);
    SentId(db, refs, g.entries, 0);
    SentId(db, refs, g.entries, 1);
    SentId(db, refs, h.entries, 1);
    assert p[0] == sent[0] && sent[0] in sent;
  }

  lemma OwnUnsettles(groups: seq<ExportGroup>, storeEcho: bool, l: nat, j: nat, x: ModelRef, o: ModelRef) returns (db: Member)
    requires OwnRewrites(groups, l, j, x, o)
    ensures Constrained(db) && !Settles(db, groups, storeEcho)
  {
    var g, h, own := groups[l], groups[j], Some(Own(1));
    var refs := [x, o];
    db := Holding(refs, g.displayModel, own);
    HoldingHolds(refs, g.displayModel, own);
    OwnIsScene(db, refs, groups, l, j, x, o);
    ShortSent(db, refs, groups, l, j, {x, o});
    if AutoRow(db, h, Some(AutoRow(db, g, own))) == AutoRow(db, g, own) {
      OwnSame(db, refs, g, h, x, o);
    }
    SceneUnsettles(db, groups, storeEcho, l, j, 0, 1);
  }

  // --- The exact condition ---

  lemma RewritesUnsettle(groups: seq<ExportGroup>, storeEcho: bool, l: nat, j: nat, x: ModelRef, y: ModelRef, b: ModelRef)
    returns (db: Member)
    requires Rewrites(groups, l, j, x, y, b)
    ensures Constrained(db) && !Settles(db, groups, storeEcho)
  {
    if BareRewrites(groups, l, j, x, y, b) {
      db := BareUnsettles(groups, storeEcho, l, j, x, y, b);
    } else if TwiceRewrites(groups, l, j, x, b) {
      db := TwiceUnsettles(groups, storeEcho, l, j, x, b);
    } else {
      db := OwnUnsettles(groups, storeEcho, l, j, x, b);
    }
  }

  /** Any envelope, whatever names its groups share, settles on every member in one run exactly
      when no group of it can undo another's row on a member of three models or fewer. */
  lemma FixedPointIff(groups: seq<ExportGroup>, storeEcho: bool)
    ensures Settled(groups) <==> forall db :: Constrained(db) ==> Settles(db, groups, storeEcho)
  {
    if Settled(groups) {
      forall db | Constrained(db) ensures Settles(db, groups, storeEcho) {
        GroupsFixedPoint(db, groups, storeEcho);
      }
    } else {
      var l, j, x, y, b :| Rewrites(groups, l, j, x, y, b);
      var db := RewritesUnsettle(groups, storeEcho, l, j, x, y, b);
    }
  }

  const HERE := ModelRef("p", "a")

  const FIRST := ExportGroup("g", None, "first", true, true, [ExportEntry(HERE, true)])

  const SECOND := ExportGroup("g", None, "second", true, true, [])

  /** Two auto groups of one name: the first import builds the first of them, and the row it
      leaves lets the second import build the other over it. */
  lemma RepeatedNameIsNoFixedPoint(storeEcho: bool)
    ensures exists db :: Constrained(db) && !Settles(db, [FIRST, SECOND], storeEcho)
  {
    var there := ModelRef("p", "b");
    assert FIRST.entries[0].ref == HERE;
    assert OwnRewrites([FIRST, SECOND], 0, 1, HERE, there);
    var db := OwnUnsettles([FIRST, SECOND], storeEcho, 0, 1, HERE, there);
  }
}
