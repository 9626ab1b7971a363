/** Which envelopes a member converges to in one run of the failover-group section, whatever it
    holds. Only two auto groups of one name can come undone: the primary's UNIQUE(display_model)
    rules them out, and the import does not check it. */
module RepeatedGroups {
  import opened Wrappers
  import opened MemberTables
  import opened FailoverGroups
  import opened GroupFixedPoint

  // --- The condition, on the envelope alone ---

  ghost predicate Mentions(entries: seq<ExportEntry>, ref: ModelRef) {
    exists i :: 0 <= i < |entries| && entries[i].ref == ref
  }

  /** No two entries name a model among these. */
  ghost predicate AtMostOne(entries: seq<ExportEntry>, refs: set<ModelRef>) {
    forall i, j :: 0 <= i < j < |entries| ==> !(entries[i].ref in refs && entries[j].ref in refs)
  }

  /** No other entry names the model of this one. */
  ghost predicate Once(entries: seq<ExportEntry>, i: int) {
    0 <= i < |entries| && forall k :: 0 <= k < |entries| && k != i ==> entries[k].ref != entries[i].ref
  }

  /** One member can hold both: their providers are one, or stay apart under normalization. */
  predicate Coexist(a: ModelRef, b: ModelRef) {
    a.providerName == b.providerName || NormalizeName(a.providerName) != NormalizeName(b.providerName)
  }

  predicate SameText(g: ExportGroup, h: ExportGroup) {
    g.groupEnabled == h.groupEnabled && g.displayName == h.displayName && g.description == h.description
  }

  /** Group k carries the name of group l, behind it. */
  predicate Later(groups: seq<ExportGroup>, l: int, k: int) {
    0 <= l < k < |groups| && groups[k].displayModel == groups[l].displayModel
  }

  ghost predicate Rivals(groups: seq<ExportGroup>, l: int, j: int) {
    Later(groups, l, j) && groups[l].autoCreated && groups[j].autoCreated
  }

  /** No auto group of the name behind j. */
  ghost predicate LastRival(groups: seq<ExportGroup>, l: int, j: int) {
    Rivals(groups, l, j) && forall k :: Later(groups, j, k) ==> !groups[k].autoCreated
  }

  /** No later group of the name lists two of these models. */
  ghost predicate Short(groups: seq<ExportGroup>, l: int, refs: set<ModelRef>) {
    forall k :: Later(groups, l, k) ==> AtMostOne(groups[k].entries, refs)
  }

  /** Entry m of h is an entry of g, once, ahead of all that name x or y. */
  ghost predicate Leads(g: ExportGroup, h: ExportGroup, m: int, x: ModelRef, y: ModelRef)
    requires 0 <= m < |h.entries|
  {
    exists k :: Once(g.entries, k) && g.entries[k] == h.entries[m] && Ahead(g.entries, k, x, y)
  }

  ghost predicate Ahead(entries: seq<ExportEntry>, k: int, x: ModelRef, y: ModelRef) {
    forall i :: 0 <= i < |entries| && i != k && entries[i].ref in {x, y} ==> k < i
  }

  /** Over no row: g is filled by x and y, the last auto group by what g then holds, and it would
      leave another text, no model twice, or b in front. */
  ghost predicate BareRewrites(groups: seq<ExportGroup>, l: int, j: int, x: ModelRef, y: ModelRef, b: ModelRef) {
    && LastRival(groups, l, j)
    && var (g, h) := (groups[l], groups[j]);
    && x != y && Mentions(g.entries, x) && Mentions(g.entries, y)
    && Coexist(x, y) && Coexist(x, b) && Coexist(y, b) && Short(groups, l, {x, y, b})
    && (!SameText(g, h) || !AtMostOne(g.entries, {x}) || !AtMostOne(g.entries, {y})
        || exists m :: 0 <= m < |h.entries| && h.entries[m].ref == b && !Leads(g, h, m, x, y))
  }

  /** Over no row: g is filled by x alone, listed twice, and a later auto group puts b before it. */
  ghost predicate TwiceRewrites(groups: seq<ExportGroup>, l: int, j: int, x: ModelRef, b: ModelRef) {
    && Rivals(groups, l, j)
    && var g := groups[l];
    && !AtMostOne(g.entries, {x}) && !Mentions(g.entries, b) && Mentions(groups[j].entries, b)
    && Coexist(x, b) && Short(groups, l, {x, b})
  }

  /** Over the member's own row of o: g is filled by x and o, and what the last auto group makes of
      them has another text, x once, or o in front. */
  ghost predicate OwnRewrites(groups: seq<ExportGroup>, l: int, j: int, x: ModelRef, o: ModelRef) {
    && LastRival(groups, l, j)
    && var (g, h) := (groups[l], groups[j]);
    && Mentions(g.entries, x) && !Mentions(g.entries, o) && Coexist(x, o) && Short(groups, l, {x, o})
    && (forall k :: Later(groups, l, k) && groups[k].autoCreated ==> !Mentions(groups[k].entries, x))
    && (!SameText(g, h) || !AtMostOne(g.entries, {x}) || Mentions(h.entries, o))
  }

  ghost predicate Rewrites(groups: seq<ExportGroup>, l: int, j: int, x: ModelRef, y: ModelRef, b: ModelRef) {
    BareRewrites(groups, l, j, x, y, b) || TwiceRewrites(groups, l, j, x, b) || OwnRewrites(groups, l, j, x, b)
  }

  /** No group of the envelope undoes another's row on a member of at most three models. */
  ghost predicate Settled(groups: seq<ExportGroup>) {
    forall l, j, x, y, b :: !Rewrites(groups, l, j, x, y, b)
  }

  // --- What a list of entries resolves to ---

  ghost predicate Taken(db: Member, entries: seq<ExportEntry>, i: int) {
    0 <= i < |entries| && Takes(db, entries[i].ref, true)
  }

  ghost predicate TakenAs(db: Member, entries: seq<ExportEntry>, x: Id) {
    exists i :: Taken(db, entries, i) && LocalId(db, entries[i].ref) == x
  }

  lemma {:induction false} SentFrom(db: Member, entries: seq<ExportEntry>, x: Id)
    ensures x in Sent(db, entries, true) <==> TakenAs(db, entries, x)
  {
    if entries != [] {
      var n := |entries| - 1;
      SentFrom(db, entries[..n], x);
      if TakenAs(db, entries[..n], x) {
        var i :| Taken(db, entries[..n], i) && LocalId(db, entries[..n][i].ref) == x;
        assert Taken(db, entries, i);
      }
      if TakenAs(db, entries, x) {
        var i :| Taken(db, entries, i) && LocalId(db, entries[i].ref) == x;
        assert i < n ==> Taken(db, entries[..n], i);
      }
    }
  }

  lemma {:induction false} SentNone(db: Member, entries: seq<ExportEntry>, auto: bool)
    requires forall i :: 0 <= i < |entries| ==> !Takes(db, entries[i].ref, auto)
    ensures Sent(db, entries, auto) == [] && SentToggles(db, entries, auto) == map[]
  {
    if entries != [] {
      var n := |entries| - 1;
      assert !Takes(db, entries[n].ref, auto);
      SentNone(db, entries[..n], auto);
    }
  }

  ghost predicate TakenOnce(db: Member, entries: seq<ExportEntry>) {
    forall i :: Taken(db, entries, i) ==> Once(entries, i)
  }

  lemma {:induction false} SentDistinct(db: Member, entries: seq<ExportEntry>)
    requires TakenOnce(db, entries)
    ensures forall i, j :: 0 <= i < j < |Sent(db, entries, true)| ==> Sent(db, entries, true)[i] != Sent(db, entries, true)[j]
  {
    if entries != [] {
      var n := |entries| - 1;
      forall i | Taken(db, entries[..n], i) ensures Once(entries[..n], i) {
        assert Taken(db, entries, i);
      }
      SentDistinct(db, entries[..n]);
      if Taken(db, entries, n) {
        var x := LocalId(db, entries[n].ref);
        SentFrom(db, entries[..n], x);
        forall i | Taken(db, entries[..n], i) ensures LocalId(db, entries[i].ref) != x {
          assert Once(entries, n) && entries[i].ref != entries[n].ref;
        }
      }
    }
  }

  lemma {:induction false} ToggleAt(db: Member, entries: seq<ExportEntry>, k: nat)
    requires Taken(db, entries, k) && Once(entries, k)
    ensures var x := LocalId(db, entries[k].ref);
            x in SentToggles(db, entries, true) && SentToggles(db, entries, true)[x] == entries[k].enabled
  {
    var n := |entries| - 1;
    if k < n {
      assert Taken(db, entries[..n], k) && Once(entries[..n], k);
      ToggleAt(db, entries[..n], k);
      assert entries[n].ref != entries[k].ref;
    }
  }

  lemma TwoTaken(db: Member, entries: seq<ExportEntry>, i: nat, j: nat, auto: bool)
    requires i < j < |entries| && Takes(db, entries[i].ref, auto) && Takes(db, entries[j].ref, auto)
    ensures |Sent(db, entries, auto)| >= 2
  {
    SentAt(db, entries, i, auto);
    SentAt(db, entries[i + 1..], j - i - 1, auto);
  }

  /** An only entry taken twice over is two of them. */
  lemma OnlyTaken(db: Member, entries: seq<ExportEntry>, j: nat)
    requires Taken(db, entries, j) && |Sent(db, entries, true)| < 2
    ensures Once(entries, j) && forall i :: Taken(db, entries, i) ==> i == j
    ensures Sent(db, entries, true) == [LocalId(db, entries[j].ref)]
  {
    forall i | Taken(db, entries, i) ensures i == j {
      if i < j { TwoTaken(db, entries, i, j, true); } else if j < i { TwoTaken(db, entries, j, i, true); }
    }
    forall i | 0 <= i < |entries| && i != j ensures entries[i].ref != entries[j].ref {
      assert !Taken(db, entries, i);
    }
    SentAt(db, entries, j, true);
  }

  lemma SentTwice(db: Member, entries: seq<ExportEntry>, i: nat, j: nat) returns (p: nat, q: nat)
    requires i < j && Taken(db, entries, i) && Taken(db, entries, j) && entries[i].ref == entries[j].ref
    ensures p < q < |Sent(db, entries, true)| && Sent(db, entries, true)[p] == Sent(db, entries, true)[q]
  {
    var x := LocalId(db, entries[i].ref);
    SentAt(db, entries, i, true);
    var before, after := Sent(db, entries[..i], true), Sent(db, entries[i + 1..], true);
    assert Taken(db, entries[i + 1..], j - i - 1);
    SentFrom(db, entries[i + 1..], x);
    p := |before|;
    var r :| 0 <= r < |after| && after[r] == x;
    q := p + 1 + r;
    assert (before + [x] + after)[p] == x && (before + [x] + after)[q] == after[r];
  }

  /** Models sent apart are entries apart. */
  lemma DistinctOnce(db: Member, entries: seq<ExportEntry>, x: ModelRef)
    requires Takes(db, x, true)
    requires forall i, j :: 0 <= i < j < |Sent(db, entries, true)| ==> Sent(db, entries, true)[i] != Sent(db, entries, true)[j]
    ensures AtMostOne(entries, {x})
  {
    forall i: nat, j: nat | i < j < |entries| ensures !(entries[i].ref in {x} && entries[j].ref in {x}) {
      if entries[i].ref == x && entries[j].ref == x {
        var p, q := SentTwice(db, entries, i, j);
      }
    }
  }

  // --- What a filling is made of ---

  ghost function OwnExtras(db: Member, g: ExportGroup, own: Option<GroupRow>): seq<Id> {
    if Usable(own) then Extras(db, own.value.priority.value, SentToggles(db, g.entries, true).Keys) else []
  }

  lemma FillingOf(db: Member, g: ExportGroup, own: Option<GroupRow>)
    requires g.autoCreated
    ensures var f, sent, extras := Filled(db, g, own), Sent(db, g.entries, true), OwnExtras(db, g, own);
            && f.priority == sent + extras
            && (forall x :: x in extras ==> x !in sent && db.Routable(x) && Usable(own) && x in own.value.priority.value)
            && (Usable(own) ==> forall x :: x in own.value.priority.value && db.Routable(x) ==> x in sent || x in extras)
            && (forall i, j :: 0 <= i < j < |extras| ==> extras[i] != extras[j])
            && (forall x :: x in f.toggles <==> x in f.priority)
            && (forall x :: x in sent ==> db.Routable(x) && x in SentToggles(db, g.entries, true)
                                          && f.toggles[x] == SentToggles(db, g.entries, true)[x])
            && (forall x :: x in extras ==> f.toggles[x] == OwnToggle(own.value, x))
  {
    SentAreKeys(db, g.entries, true);
    var sent := Sent(db, g.entries, true);
    assert sent + [] == sent;
    if Usable(own) {
      ExtrasExactly(db, own.value.priority.value, SentToggles(db, g.entries, true).Keys);
    }
    forall x | x in sent ensures db.Routable(x) {
      SentFrom(db, g.entries, x);
      var i :| Taken(db, g.entries, i) && LocalId(db, g.entries[i].ref) == x;
    }
  }

  lemma TwoIn(s: seq<Id>, x: Id, y: Id)
    requires x in s && y in s && x != y
    ensures |s| >= 2
  {
    var i :| 0 <= i < |s| && s[i] == x;
    var j :| 0 <= j < |s| && s[j] == y;
  }

  /** Two models that are sent or in the row found fill the group. */
  lemma TwoFill(db: Member, g: ExportGroup, own: Option<GroupRow>, x: Id, y: Id)
    requires g.autoCreated && x != y
    requires x in Sent(db, g.entries, true) || (Usable(own) && x in own.value.priority.value && db.Routable(x))
    requires y in Sent(db, g.entries, true) || (Usable(own) && y in own.value.priority.value && db.Routable(y))
    ensures Reaches(db, own, g)
  {
    FillingOf(db, g, own);
    TwoIn(Filled(db, g, own).priority, x, y);
  }

  lemma NoLonger(a: seq<Id>, b: seq<Id>)
    requires |b| <= 1 && forall i :: 0 <= i < |a| ==> a[i] in b
    requires forall i, j :: 0 <= i < j < |a| ==> a[i] != a[j]
    ensures |a| <= |b|
  {
    assert |a| > 0 ==> a[0] in b && a[|a| - 1] in b;
  }

  /** A group the row of g lets fill found a model in it that is none of its own. */
  lemma PrivateTaken(db: Member, g: ExportGroup, h: ExportGroup, own: Option<GroupRow>) returns (i: int)
    requires g.autoCreated && h.autoCreated
    requires !Reaches(db, own, h) && Reaches(db, Some(AutoRow(db, g, own)), h)
    ensures Taken(db, g.entries, i) && !Mentions(h.entries, g.entries[i].ref)
  {
    var row := AutoRow(db, g, own);
    var sent, extras := Sent(db, h.entries, true), OwnExtras(db, h, own);
    FillingOf(db, g, own);
    FillingOf(db, h, own);
    FillingOf(db, h, Some(row));
    if forall i :: Taken(db, g.entries, i) ==> Mentions(h.entries, g.entries[i].ref) {
      var again := OwnExtras(db, h, Some(row));
      forall x | x in again ensures x in extras {
        if x in Sent(db, g.entries, true) {
          SharedIsSent(db, g.entries, h.entries, x);
        }
      }
      NoLonger(again, extras);
    }
    i :| Taken(db, g.entries, i) && !Mentions(h.entries, g.entries[i].ref);
  }

  lemma SharedIsSent(db: Member, e: seq<ExportEntry>, d: seq<ExportEntry>, x: Id)
    requires x in Sent(db, e, true) && forall i :: Taken(db, e, i) ==> Mentions(d, e[i].ref)
    ensures x in Sent(db, d, true)
  {
    SentFrom(db, e, x);
    var i :| Taken(db, e, i) && LocalId(db, e[i].ref) == x;
    var j :| 0 <= j < |d| && d[j].ref == e[i].ref;
    assert Taken(db, d, j);
    SentFrom(db, d, x);
  }

  // --- Rows that are the same again ---

  /** The later group resolves nothing: the earlier one's row, all distinct, is its filling. */
  lemma NoneSentKeeps(db: Member, g: ExportGroup, h: ExportGroup, own: Option<GroupRow>)
    requires g.autoCreated && h.autoCreated && TakenOnce(db, g.entries) && forall i :: !Taken(db, h.entries, i)
    ensures Filled(db, h, Some(AutoRow(db, g, own))) == Filled(db, g, own)
  {
    forall i | 0 <= i < |h.entries| ensures !Takes(db, h.entries[i].ref, true) {
      assert !Taken(db, h.entries, i);
    }
    SentNone(db, h.entries, true);
    SentDistinct(db, g.entries);
    FillingOf(db, g, own);
    DistinctJoin(Sent(db, g.entries, true), OwnExtras(db, g, own));
    WholeRow(db, AutoRow(db, g, own));
  }

  lemma WholeExtras(db: Member, p: seq<Id>)
    requires (forall x :: x in p ==> db.Routable(x)) && (forall i, j :: 0 <= i < j < |p| ==> p[i] != p[j])
    ensures Extras(db, p, {}) == p
  {
    ExtrasAgain(db, [], {}, p);
    assert [] + p == p;
  }

  lemma WholeRow(db: Member, row: GroupRow)
    requires Usable(Some(row))
    requires var p := row.priority.value;
             && (forall x :: x in p ==> db.Routable(x)) && (forall i, j :: 0 <= i < j < |p| ==> p[i] != p[j])
             && forall x :: x in row.entryEnabled.value <==> x in p
    ensures WithExtras(db, [], map[], true, Some(row)) == Filling(row.priority.value, row.entryEnabled.value)
  {
    var p, none: map<Id, bool> := row.priority.value, map[];
    assert none.Keys == {};
    WholeExtras(db, p);
    TogglesAre(row, p, none);
    assert [] + p == p;
  }

  lemma DistinctJoin(a: seq<Id>, b: seq<Id>)
    requires forall i, j :: 0 <= i < j < |a| ==> a[i] != a[j]
    requires forall i, j :: 0 <= i < j < |b| ==> b[i] != b[j]
    requires forall x :: x in b ==> x !in a
    ensures forall i, j :: 0 <= i < j < |a + b| ==> (a + b)[i] != (a + b)[j]
  {
    forall i, j | 0 <= i < j < |a + b| ensures (a + b)[i] != (a + b)[j] {
      if i < |a| <= j {
        assert (a + b)[i] in a && (a + b)[j] in b;
      }
    }
  }

  /** A row's own toggles, taken back from it behind those of the entries sent. */
  lemma TogglesAre(row: GroupRow, tail: seq<Id>, sent: map<Id, bool>)
    requires Usable(Some(row)) && forall x :: x in row.entryEnabled.value <==> x in sent || x in tail
    requires forall x :: x in tail ==> x !in sent
    requires forall x :: x in sent ==> sent[x] == row.entryEnabled.value[x]
    ensures sent + (map x | x in tail :: OwnToggle(row, x)) == row.entryEnabled.value
  {
    var all := sent + (map x | x in tail :: OwnToggle(row, x));
    forall x | x in all ensures x in row.entryEnabled.value && all[x] == row.entryEnabled.value[x] {
      assert x in sent || x in tail;
    }
    forall x | x in row.entryEnabled.value ensures x in all {
      assert x in sent || x in tail;
    }
    assert all.Keys == row.entryEnabled.value.Keys;
  }

  /** Entry k of g is the one h resolves, m, ahead of all else g resolves, each once. */
  ghost predicate LeadsTaken(db: Member, g: ExportGroup, h: ExportGroup, k: int, m: int) {
    && TakenOnce(db, g.entries) && Taken(db, h.entries, m) && |Sent(db, h.entries, true)| < 2
    && Once(g.entries, k) && g.entries[k] == h.entries[m]
    && forall i :: Taken(db, g.entries, i) && i != k ==> k < i
  }

  lemma LeadingSent(db: Member, g: ExportGroup, h: ExportGroup, k: int, m: int)
    requires LeadsTaken(db, g, h, k, m)
    ensures Sent(db, g.entries, true) == [LocalId(db, h.entries[m].ref)] + Sent(db, g.entries[k + 1..], true)
    ensures TakenOnce(db, g.entries[k + 1..])
  {
    forall i | 0 <= i < k ensures !Takes(db, g.entries[..k][i].ref, true) {
      assert !Taken(db, g.entries, i);
    }
    SentNone(db, g.entries[..k], true);
    SentAt(db, g.entries, k, true);
    var x := LocalId(db, h.entries[m].ref);
    assert [] + [x] == [x];
    var rest := g.entries[k + 1..];
    forall i | Taken(db, rest, i) ensures Once(rest, i) {
      assert rest[i] == g.entries[k + 1 + i] && Taken(db, g.entries, k + 1 + i);
    }
  }

  /** A group that is sent more finds no more of the member's own. */
  lemma NothingMore(db: Member, g: ExportGroup, h: ExportGroup, own: Option<GroupRow>)
    requires g.autoCreated && h.autoCreated && OwnExtras(db, h, own) == []
    requires forall x :: x in Sent(db, h.entries, true) ==> x in Sent(db, g.entries, true)
    ensures OwnExtras(db, g, own) == []
  {
    FillingOf(db, g, own);
    FillingOf(db, h, own);
    var extras := OwnExtras(db, g, own);
    forall i | 0 <= i < |extras| ensures extras[i] in OwnExtras(db, h, own) {
      var x := extras[i];
      assert x in extras;
    }
    NoLonger(extras, OwnExtras(db, h, own));
  }

  /** The row of the earlier group: the model the later one resolves, then its own. */
  lemma LeadingRow(db: Member, g: ExportGroup, h: ExportGroup, own: Option<GroupRow>, k: int, m: int) returns (tail: seq<Id>)
    requires g.autoCreated && h.autoCreated && LeadsTaken(db, g, h, k, m) && OwnExtras(db, h, own) == []
    ensures var f, x := Filled(db, g, own), LocalId(db, h.entries[m].ref);
            && f.priority == [x] + tail && x !in tail
            && (forall y :: y in tail ==> db.Routable(y)) && (forall i, n :: 0 <= i < n < |tail| ==> tail[i] != tail[n])
            && (forall y :: y in f.toggles <==> y in f.priority) && f.toggles[x] == h.entries[m].enabled
  {
    OnlyTaken(db, h.entries, m);
    LeadingSent(db, g, h, k, m);
    tail := Sent(db, g.entries[k + 1..], true);
    SentDistinct(db, g.entries[k + 1..]);
    assert Taken(db, g.entries, k);
    NotBehind(db, g.entries, k);
    NothingMore(db, g, h, own);
    FillingOf(db, g, own);
    ToggleAt(db, g.entries, k);
    assert Sent(db, g.entries, true) + [] == Sent(db, g.entries, true);
  }

  lemma NotBehind(db: Member, entries: seq<ExportEntry>, k: nat)
    requires k < |entries| && Once(entries, k) && Taken(db, entries, k)
    ensures LocalId(db, entries[k].ref) !in Sent(db, entries[k + 1..], true)
  {
    var rest, x := entries[k + 1..], LocalId(db, entries[k].ref);
    SentFrom(db, rest, x);
    forall i | Taken(db, rest, i) ensures LocalId(db, rest[i].ref) != x {
      assert rest[i] == entries[k + 1 + i];
    }
  }

  lemma OneThenTail(db: Member, row: GroupRow, x: Id, tail: seq<Id>, toggles: map<Id, bool>)
    requires Usable(Some(row)) && row.priority.value == [x] + tail
    requires x !in tail && (forall y :: y in tail ==> db.Routable(y)) && (forall i, j :: 0 <= i < j < |tail| ==> tail[i] != tail[j])
    requires forall y :: y in row.entryEnabled.value <==> y in row.priority.value
    requires (forall y :: y in toggles <==> y == x) && toggles[x] == row.entryEnabled.value[x]
    ensures WithExtras(db, [x], toggles, true, Some(row)) == Filling(row.priority.value, row.entryEnabled.value)
  {
    ExtrasAgain(db, [x], toggles.Keys, tail);
    TogglesAre(row, tail, toggles);
  }

  /** The later group resolves one model: it leads the earlier one's row too. */
  lemma OneSentKeeps(db: Member, g: ExportGroup, h: ExportGroup, own: Option<GroupRow>, k: int, m: int)
    requires g.autoCreated && h.autoCreated && LeadsTaken(db, g, h, k, m) && OwnExtras(db, h, own) == []
    ensures Filled(db, h, Some(AutoRow(db, g, own))) == Filled(db, g, own)
  {
    var tail := LeadingRow(db, g, h, own, k, m);
    OnlyTaken(db, h.entries, m);
    ToggleAt(db, h.entries, m);
    SentAreKeys(db, h.entries, true);
    OneThenTail(db, AutoRow(db, g, own), LocalId(db, h.entries[m].ref), tail, SentToggles(db, h.entries, true));
  }

  // --- A rewritten row meets the condition ---

  /** In a database that keeps its constraints, models that are both here can coexist. */
  lemma HeldCoexist(db: Member, a: ModelRef, b: ModelRef)
    requires Constrained(db) && db.Present(a) && db.Present(b)
    ensures Coexist(a, b)
  {
    var i :| i in db.models && db.RefOf(i) == Some(a);
    var j :| j in db.models && db.RefOf(j) == Some(b);
  }

  /** Behind the last group to fill, none lists two models that route here. */
  lemma ShortHere(db: Member, own: Option<GroupRow>, groups: seq<ExportGroup>, name: string, l: nat, refs: set<ModelRef>)
    requires Last(db, own, groups, name, l) && forall x :: x in refs ==> Takes(db, x, true)
    ensures Short(groups, l, refs)
  {
    forall k | Later(groups, l, k) ensures AtMostOne(groups[k].entries, refs) {
      var g := groups[k];
      assert |Sent(db, g.entries, g.autoCreated)| <= |Filled(db, g, own).priority|;
      forall i: nat, j: nat | i < j < |g.entries| ensures !(g.entries[i].ref in refs && g.entries[j].ref in refs) {
        if g.entries[i].ref in refs && g.entries[j].ref in refs {
          TwoTaken(db, g.entries, i, j, g.autoCreated);
        }
      }
    }
  }

  /** A row of two models fills every auto group of the name, so the last of them. */
  lemma TwoMakesLast(db: Member, own: Option<GroupRow>, groups: seq<ExportGroup>, name: string, l: nat, j: nat, x: Id, y: Id)
    requires Overwrites(db, own, groups, name, l, j) && groups[j].autoCreated && x != y
    requires var p := AutoRow(db, groups[l], own).priority.value; x in p && y in p
    ensures LastRival(groups, l, j)
  {
    FillingOf(db, groups[l], own);
    forall k | Later(groups, j, k) ensures !groups[k].autoCreated {
      if groups[k].autoCreated {
        TwoFill(db, groups[k], Some(AutoRow(db, groups[l], own)), x, y);
      }
    }
  }

  /** An entry that routes here is listed apart, or is one of two. */
  lemma SentOf(db: Member, entries: seq<ExportEntry>, i: int)
    requires Taken(db, entries, i)
    ensures LocalId(db, entries[i].ref) in Sent(db, entries, true)
  {
    SentFrom(db, entries, LocalId(db, entries[i].ref));
  }

  lemma OverwriteIs(db: Member, own: Option<GroupRow>, groups: seq<ExportGroup>, name: string, l: nat, j: nat)
    requires Overwrites(db, own, groups, name, l, j)
    ensures Rivals(groups, l, j)
    ensures var (g, h) := (groups[l], groups[j]);
            && !Reaches(db, own, h) && Reaches(db, Some(AutoRow(db, g, own)), h)
            && |Sent(db, h.entries, true)| + |OwnExtras(db, h, own)| < 2
            && (Filled(db, h, Some(AutoRow(db, g, own))) == Filled(db, g, own) ==> !SameText(g, h))
  {
    AutoThenLast(db, own, groups, name, l, j);
    FillingOf(db, groups[j], own);
  }

  lemma AllAreOne(s: seq<Id>, x: Id)
    requires forall y :: y in s ==> y == x
    requires forall i, j :: 0 <= i < j < |s| ==> s[i] != s[j]
    ensures |s| <= 1
  {
    forall i | 0 <= i < |s| ensures s[i] in [x] {
      assert s[i] in s;
    }
    NoLonger(s, [x]);
  }

  /** Models of one id are one model. */
  lemma SameId(db: Member, a: ModelRef, b: ModelRef)
    requires db.Present(a) && db.Present(b) && LocalId(db, a) == LocalId(db, b)
    ensures a == b
  {
  }

  /** A list that resolves to one model alone, but to two entries or more, names it twice. */
  lemma OnlyOnceShort(db: Member, entries: seq<ExportEntry>, i: int)
    requires Taken(db, entries, i) && forall y :: y in Sent(db, entries, true) ==> y == LocalId(db, entries[i].ref)
    ensures |Sent(db, entries, true)| >= 2 ==> !AtMostOne(entries, {entries[i].ref})
  {
    var refs := {entries[i].ref};
    if AtMostOne(entries, refs) {
      forall m | Taken(db, entries, m) ensures m == i {
        SentOf(db, entries, m);
        SameId(db, entries[m].ref, entries[i].ref);
        assert entries[m].ref in refs && entries[i].ref in refs;
      }
      OnceSent(db, entries, i);
    }
  }

  /** The one model of a row, when sent, is all of it. */
  lemma SentIsAll(db: Member, g: ExportGroup, own: Option<GroupRow>, x: Id)
    requires g.autoCreated && x in Sent(db, g.entries, true) && forall y :: y in Filled(db, g, own).priority ==> y == x
    ensures Sent(db, g.entries, true) == Filled(db, g, own).priority
  {
    FillingOf(db, g, own);
    var extras := OwnExtras(db, g, own);
    assert forall y :: y in extras ==> y in Filled(db, g, own).priority;
    DistinctJoin([x], extras);
    AllAreOne([x] + extras, x);
    assert Sent(db, g.entries, true) + [] == Sent(db, g.entries, true);
  }

  /** One model filled g: it is listed twice, and the later group puts another before it. */
  lemma OneModelTwice(db: Member, own: Option<GroupRow>, groups: seq<ExportGroup>, name: string, l: nat, j: nat, i: int)
    returns (b: ModelRef)
    requires Constrained(db) && Overwrites(db, own, groups, name, l, j)
    requires Taken(db, groups[l].entries, i) && !Mentions(groups[j].entries, groups[l].entries[i].ref)
    requires forall y :: y in AutoRow(db, groups[l], own).priority.value ==> y == LocalId(db, groups[l].entries[i].ref)
    ensures TwiceRewrites(groups, l, j, groups[l].entries[i].ref, b)
  {
    var g, h, x := groups[l], groups[j], groups[l].entries[i].ref;
    OverwriteIs(db, own, groups, name, l, j);
    SentOf(db, g.entries, i);
    SentIsAll(db, g, own, LocalId(db, x));
    OnlyOnceShort(db, g.entries, i);
    var m := LaterSends(db, g, h, own, x);
    b := h.entries[m].ref;
    if n :| 0 <= n < |g.entries| && g.entries[n].ref == b {
      SentOf(db, g.entries, n);
      SameId(db, b, x);
    }
    HeldCoexist(db, x, b);
    ShortHere(db, own, groups, name, l, {x, b});
  }

  /** A group that fills over a row of one model is sent another. */
  lemma LaterSends(db: Member, g: ExportGroup, h: ExportGroup, own: Option<GroupRow>, x: ModelRef) returns (m: int)
    requires g.autoCreated && h.autoCreated && Takes(db, x, true) && Reaches(db, Some(AutoRow(db, g, own)), h)
    requires forall y :: y in AutoRow(db, g, own).priority.value ==> y == LocalId(db, x)
    ensures Taken(db, h.entries, m)
  {
    var row := AutoRow(db, g, own);
    FillingOf(db, h, Some(row));
    AllAreOne(OwnExtras(db, h, Some(row)), LocalId(db, x));
    var sent := Sent(db, h.entries, true);
    assert sent[0] in sent;
    SentFrom(db, h.entries, sent[0]);
    m :| Taken(db, h.entries, m) && LocalId(db, h.entries[m].ref) == sent[0];
  }

  lemma OnceSent(db: Member, entries: seq<ExportEntry>, j: nat)
    requires Taken(db, entries, j) && forall i :: Taken(db, entries, i) ==> i == j
    ensures Sent(db, entries, true) == [LocalId(db, entries[j].ref)]
  {
    var before, after := entries[..j], entries[j + 1..];
    forall i | 0 <= i < |before| ensures !Takes(db, before[i].ref, true) {
      assert Takes(db, before[i].ref, true) ==> Taken(db, entries, i);
    }
    forall i | 0 <= i < |after| ensures !Takes(db, after[i].ref, true) {
      assert Takes(db, after[i].ref, true) ==> Taken(db, entries, j + 1 + i);
    }
    SentNone(db, before, true);
    SentNone(db, after, true);
    SentAt(db, entries, j, true);
    var x := LocalId(db, entries[j].ref);
    assert [] + [x] + [] == [x];
  }

  // Two models of g's own route here.

  ghost predicate TwoTakenRefs(db: Member, entries: seq<ExportEntry>, x: ModelRef, y: ModelRef) {
    x != y && Mentions(entries, x) && Mentions(entries, y) && Takes(db, x, true) && Takes(db, y, true)
  }

  /** Any two of them, and any model that routes here, meet all of the condition but its last clause. */
  lemma BareScene(db: Member, own: Option<GroupRow>, groups: seq<ExportGroup>, name: string, l: nat, j: nat,
                  x: ModelRef, y: ModelRef, b: ModelRef)
    requires Constrained(db) && Overwrites(db, own, groups, name, l, j)
    requires TwoTakenRefs(db, groups[l].entries, x, y) && Takes(db, b, true)
    ensures LastRival(groups, l, j) && Coexist(x, y) && Coexist(x, b) && Coexist(y, b) && Short(groups, l, {x, y, b})
  {
    var g := groups[l];
    OverwriteIs(db, own, groups, name, l, j);
    var i :| 0 <= i < |g.entries| && g.entries[i].ref == x;
    var k :| 0 <= k < |g.entries| && g.entries[k].ref == y;
    SentOf(db, g.entries, i);
    SentOf(db, g.entries, k);
    if LocalId(db, x) == LocalId(db, y) { SameId(db, x, y); }
    FillingOf(db, g, own);
    TwoMakesLast(db, own, groups, name, l, j, LocalId(db, x), LocalId(db, y));
    HeldCoexist(db, x, y);
    HeldCoexist(db, x, b);
    HeldCoexist(db, y, b);
    ShortHere(db, own, groups, name, l, {x, y, b});
  }

  /** Of two models one is not the third. */
  lemma Other(db: Member, entries: seq<ExportEntry>, x: ModelRef, y: ModelRef, z: ModelRef) returns (w: ModelRef)
    requires TwoTakenRefs(db, entries, x, y) && Mentions(entries, z) && Takes(db, z, true)
    ensures TwoTakenRefs(db, entries, z, w)
  {
    w := if x == z then y else x;
  }

  lemma NotOnce(entries: seq<ExportEntry>, i: int)
    requires 0 <= i < |entries| && !Once(entries, i)
    ensures !AtMostOne(entries, {entries[i].ref})
  {
    var k :| 0 <= k < |entries| && k != i && entries[k].ref == entries[i].ref;
    var refs := {entries[i].ref};
    if k < i {
      assert entries[k].ref in refs && entries[i].ref in refs;
    } else {
      assert entries[i].ref in refs && entries[k].ref in refs;
    }
  }

  /** Where the entry of h leads every two of them, it leads all g resolves. */
  lemma LeadsAllTaken(db: Member, g: ExportGroup, h: ExportGroup, m: int, x: ModelRef, y: ModelRef) returns (k: int)
    requires TakenOnce(db, g.entries) && Taken(db, h.entries, m) && |Sent(db, h.entries, true)| < 2
    requires TwoTakenRefs(db, g.entries, x, y)
    requires forall a, b :: TwoTakenRefs(db, g.entries, a, b) ==> Leads(g, h, m, a, b)
    ensures LeadsTaken(db, g, h, k, m)
  {
    assert Leads(g, h, m, x, y);
    k :| Once(g.entries, k) && g.entries[k] == h.entries[m] && Ahead(g.entries, k, x, y);
    forall i | Taken(db, g.entries, i) && i != k ensures k < i {
      var z := g.entries[i].ref;
      assert Mentions(g.entries, z);
      var w := Other(db, g.entries, x, y, z);
      assert Leads(g, h, m, z, w);
      var n :| Once(g.entries, n) && g.entries[n] == h.entries[m] && Ahead(g.entries, n, z, w);
      assert n == k;
    }
  }

  lemma TwoModels(db: Member, own: Option<GroupRow>, groups: seq<ExportGroup>, name: string, l: nat, j: nat, x: ModelRef, y: ModelRef)
    requires Constrained(db) && Overwrites(db, own, groups, name, l, j) && TwoTakenRefs(db, groups[l].entries, x, y)
    ensures exists a, b, c :: BareRewrites(groups, l, j, a, b, c)
  {
    var g, h := groups[l], groups[j];
    OverwriteIs(db, own, groups, name, l, j);
    if !SameText(g, h) {
      BareScene(db, own, groups, name, l, j, x, y, x);
      assert BareRewrites(groups, l, j, x, y, x);
    } else if i :| Taken(db, g.entries, i) && !Once(g.entries, i) {
      var z := g.entries[i].ref;
      assert Mentions(g.entries, z);
      var w := Other(db, g.entries, x, y, z);
      NotOnce(g.entries, i);
      BareScene(db, own, groups, name, l, j, z, w, z);
      assert BareRewrites(groups, l, j, z, w, z);
    } else if m :| Taken(db, h.entries, m) {
      var a, b := NotLed(db, g, h, own, m, x, y);
      BareScene(db, own, groups, name, l, j, a, b, h.entries[m].ref);
      assert BareRewrites(groups, l, j, a, b, h.entries[m].ref);
    } else {
      NoneSentKeeps(db, g, h, own);
    }
  }

  /** Where the row differs, the entry of h does not lead some two of them. */
  lemma NotLed(db: Member, g: ExportGroup, h: ExportGroup, own: Option<GroupRow>, m: int, x: ModelRef, y: ModelRef)
    returns (a: ModelRef, b: ModelRef)
    requires g.autoCreated && h.autoCreated && TakenOnce(db, g.entries) && Taken(db, h.entries, m)
    requires |Sent(db, h.entries, true)| + |OwnExtras(db, h, own)| < 2
    requires Filled(db, h, Some(AutoRow(db, g, own))) != Filled(db, g, own) && TwoTakenRefs(db, g.entries, x, y)
    ensures TwoTakenRefs(db, g.entries, a, b) && !Leads(g, h, m, a, b)
  {
    SentOf(db, h.entries, m);
    if forall a, b :: TwoTakenRefs(db, g.entries, a, b) ==> Leads(g, h, m, a, b) {
      var k := LeadsAllTaken(db, g, h, m, x, y);
      OneSentKeeps(db, g, h, own, k, m);
    }
    a, b :| TwoTakenRefs(db, g.entries, a, b) && !Leads(g, h, m, a, b);
  }

  // One model of g's own routes here, behind it one of the member's.

  lemma RoutedRef(db: Member, o: Id) returns (ref: ModelRef)
    requires Constrained(db) && db.Routable(o)
    ensures Takes(db, ref, true) && LocalId(db, ref) == o
  {
    ref := db.RefOf(o).value;
    assert db.Present(ref);
    ConstrainedRefsUnique(db);
  }

  lemma NoLaterLists(db: Member, own: Option<GroupRow>, groups: seq<ExportGroup>, name: string, l: nat, x: ModelRef, o: Id)
    requires Last(db, own, groups, name, l) && Takes(db, x, true) && LocalId(db, x) != o
    requires Usable(own) && o in own.value.priority.value && db.Routable(o)
    ensures forall k :: Later(groups, l, k) && groups[k].autoCreated ==> !Mentions(groups[k].entries, x)
  {
    forall k | Later(groups, l, k) && groups[k].autoCreated ensures !Mentions(groups[k].entries, x) {
      if i :| 0 <= i < |groups[k].entries| && groups[k].entries[i].ref == x {
        SentOf(db, groups[k].entries, i);
        TwoFill(db, groups[k], own, LocalId(db, x), o);
      }
    }
  }

  /** The last group, which does not list the member's model, leaves the row of one entry and it. */
  lemma OwnStays(db: Member, g: ExportGroup, h: ExportGroup, own: Option<GroupRow>, x: ModelRef, b: ModelRef)
    requires g.autoCreated && h.autoCreated && |Sent(db, h.entries, true)| + |OwnExtras(db, h, own)| < 2
    requires (forall m :: Taken(db, g.entries, m) ==> g.entries[m].ref == x) && AtMostOne(g.entries, {x})
    requires Takes(db, b, true) && LocalId(db, b) in OwnExtras(db, g, own) && !Mentions(h.entries, b)
    ensures Filled(db, h, Some(AutoRow(db, g, own))) == Filled(db, g, own)
  {
    FillingOf(db, g, own);
    FillingOf(db, h, own);
    var o := LocalId(db, b);
    SentFrom(db, h.entries, o);
    assert !TakenAs(db, h.entries, o);
    forall i ensures !Taken(db, h.entries, i) {
      if Taken(db, h.entries, i) { SentOf(db, h.entries, i); }
    }
    forall i | Taken(db, g.entries, i) ensures Once(g.entries, i) {
      if !Once(g.entries, i) { NotOnce(g.entries, i); }
    }
    NoneSentKeeps(db, g, h, own);
  }

  lemma OneModelAndOwn(db: Member, own: Option<GroupRow>, groups: seq<ExportGroup>, name: string, l: nat, j: nat, i: int, o: Id)
    returns (b: ModelRef)
    requires Constrained(db) && Overwrites(db, own, groups, name, l, j)
    requires Taken(db, groups[l].entries, i) && o in OwnExtras(db, groups[l], own)
    requires forall m :: Taken(db, groups[l].entries, m) ==> groups[l].entries[m].ref == groups[l].entries[i].ref
    ensures OwnRewrites(groups, l, j, groups[l].entries[i].ref, b)
  {
    var g, h, x := groups[l], groups[j], groups[l].entries[i].ref;
    OverwriteIs(db, own, groups, name, l, j);
    b := OwnScene(db, own, groups, name, l, j, i, o);
    if SameText(g, h) && AtMostOne(g.entries, {x}) && !Mentions(h.entries, b) {
      OwnStays(db, g, h, own, x, b);
    }
  }

  lemma OwnIs(db: Member, own: Option<GroupRow>, g: ExportGroup, o: Id)
    requires g.autoCreated && o in OwnExtras(db, g, own)
    ensures Usable(own) && o in own.value.priority.value && db.Routable(o) && o !in Sent(db, g.entries, true)
    ensures o in AutoRow(db, g, own).priority.value
  {
    FillingOf(db, g, own);
  }

  lemma NotListed(db: Member, entries: seq<ExportEntry>, b: ModelRef)
    requires Takes(db, b, true) && LocalId(db, b) !in Sent(db, entries, true)
    ensures !Mentions(entries, b)
  {
    if n :| 0 <= n < |entries| && entries[n].ref == b {
      SentOf(db, entries, n);
    }
  }

  lemma OwnScene(db: Member, own: Option<GroupRow>, groups: seq<ExportGroup>, name: string, l: nat, j: nat, i: int, o: Id)
    returns (b: ModelRef)
    requires Constrained(db) && Overwrites(db, own, groups, name, l, j) && groups[j].autoCreated
    requires Taken(db, groups[l].entries, i) && o in OwnExtras(db, groups[l], own)
    ensures Takes(db, b, true) && LocalId(db, b) == o && !Mentions(groups[l].entries, b)
    ensures var x := groups[l].entries[i].ref;
            && LastRival(groups, l, j) && Coexist(x, b) && Short(groups, l, {x, b})
            && forall k :: Later(groups, l, k) && groups[k].autoCreated ==> !Mentions(groups[k].entries, x)
  {
    var x := groups[l].entries[i].ref;
    OwnIs(db, own, groups[l], o);
    b := RoutedRef(db, o);
    NotListed(db, groups[l].entries, b);
    SentIsFirst(db, own, groups[l], i);
    TwoMakesLast(db, own, groups, name, l, j, LocalId(db, x), o);
    HeldCoexist(db, x, b);
    ShortHere(db, own, groups, name, l, {x, b});
    NoLaterLists(db, own, groups, name, l, x, o);
  }

  lemma SentIsFirst(db: Member, own: Option<GroupRow>, g: ExportGroup, i: int)
    requires g.autoCreated && Taken(db, g.entries, i)
    ensures LocalId(db, g.entries[i].ref) in Sent(db, g.entries, true)
    ensures LocalId(db, g.entries[i].ref) in AutoRow(db, g, own).priority.value
  {
    FillingOf(db, g, own);
    SentOf(db, g.entries, i);
  }

  // --- Whatever a member holds ---

  lemma OverwriteRewrites(db: Member, own: Option<GroupRow>, groups: seq<ExportGroup>, name: string, l: nat, j: nat)
    requires Constrained(db) && Overwrites(db, own, groups, name, l, j)
    ensures exists x, y, b :: Rewrites(groups, l, j, x, y, b)
  {
    var g, h := groups[l], groups[j];
    OverwriteIs(db, own, groups, name, l, j);
    FillingOf(db, g, own);
    var i := PrivateTaken(db, g, h, own);
    var x := g.entries[i].ref;
    SentOf(db, g.entries, i);
    if m :| Taken(db, g.entries, m) && g.entries[m].ref != x {
      assert Mentions(g.entries, g.entries[m].ref) && Mentions(g.entries, x);
      TwoModels(db, own, groups, name, l, j, x, g.entries[m].ref);
      var a, b, c :| BareRewrites(groups, l, j, a, b, c);
      assert Rewrites(groups, l, j, a, b, c);
    } else if o :| o in OwnExtras(db, g, own) {
      var b := OneModelAndOwn(db, own, groups, name, l, j, i, o);
      assert Rewrites(groups, l, j, x, x, b);
    } else {
      OnlyX(db, g, own, x);
      var b := OneModelTwice(db, own, groups, name, l, j, i);
      assert Rewrites(groups, l, j, x, x, b);
    }
  }

  lemma OnlyX(db: Member, g: ExportGroup, own: Option<GroupRow>, x: ModelRef)
    requires g.autoCreated && Takes(db, x, true) && (forall m :: Taken(db, g.entries, m) ==> g.entries[m].ref == x)
    requires forall o :: o !in OwnExtras(db, g, own)
    ensures forall y :: y in AutoRow(db, g, own).priority.value ==> y == LocalId(db, x)
  {
    FillingOf(db, g, own);
    forall y | y in Sent(db, g.entries, true) ensures y == LocalId(db, x) {
      SentFrom(db, g.entries, y);
    }
  }

  /** Re-applying the same groups over the same models changes no row and no echo, on any member. */
  lemma GroupsFixedPoint(db: Member, groups: seq<ExportGroup>, storeEcho: bool)
    requires Constrained(db) && Settled(groups)
    ensures var once := GroupSection(db, groups, storeEcho);
            GroupSection(once, groups, storeEcho) == once
  {
    ConstrainedRefsUnique(db);
    forall name ensures !Rewritten(db, groups, name) {
      forall l: nat, j: nat ensures !Overwrites(db, Lookup(db.groups, name), groups, name, l, j) {
        if Overwrites(db, Lookup(db.groups, name), groups, name, l, j) {
          OverwriteRewrites(db, Lookup(db.groups, name), groups, name, l, j);
        }
      }
    }
    GroupsFixedPointIff(db, groups, storeEcho);
  }

  /** Every model an auto group lists, the later auto groups of its name list too: so where names
      are distinct, where only custom groups share one, and where one auto group is sent twice. */
  ghost predicate Covered(groups: seq<ExportGroup>) {
    forall l, j :: Rivals(groups, l, j) ==> forall x :: Mentions(groups[l].entries, x) ==> Mentions(groups[j].entries, x)
  }

  lemma TwoListed(entries: seq<ExportEntry>, x: ModelRef, y: ModelRef, refs: set<ModelRef>)
    requires Mentions(entries, x) && Mentions(entries, y) && x != y && x in refs && y in refs
    ensures !AtMostOne(entries, refs)
  {
    var i :| 0 <= i < |entries| && entries[i].ref == x;
    var j :| 0 <= j < |entries| && entries[j].ref == y;
    if i < j {
      assert entries[i].ref in refs && entries[j].ref in refs;
    } else {
      assert entries[j].ref in refs && entries[i].ref in refs;
    }
  }

  lemma SomeListed(entries: seq<ExportEntry>, x: ModelRef)
    requires !AtMostOne(entries, {x})
    ensures Mentions(entries, x)
  {
    var i, j :| 0 <= i < j < |entries| && entries[i].ref in {x} && entries[j].ref in {x};
  }

  lemma CoveredSettles(groups: seq<ExportGroup>)
    requires Covered(groups)
    ensures Settled(groups)
  {
    forall l, j, x, y, b ensures !Rewrites(groups, l, j, x, y, b) {
      if BareRewrites(groups, l, j, x, y, b) {
        TwoListed(groups[j].entries, x, y, {x, y, b});
      } else if TwiceRewrites(groups, l, j, x, b) {
        SomeListed(groups[l].entries, x);
        TwoListed(groups[j].entries, x, b, {x, b});
      }
    }
  }
}
