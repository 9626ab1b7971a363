/** What the tool-call index resolver (internal/egress/toolindex.go) is for: fragments that carry
    call ids are told apart by them, whatever indices the upstream stamps on them. */
module ToolCallIndexing {
  import opened Wrappers
  import opened IngressStream

  /** What one fragment gives the resolver. */
  datatype Asked = Asked(index: Option<int>, id: string, openCalls: set<int>)

  function Answer(x: Indexer, a: Asked): (Indexer, int) { Resolve(x, a.index, a.id, a.openCalls) }

  function AfterAll(asked: seq<Asked>): Indexer {
    if asked == [] then NO_CALLS else Answer(AfterAll(asked[..|asked| - 1]), asked[|asked| - 1]).0
  }

  /** The index fragment k of a stream is given. */
  function IndexAt(asked: seq<Asked>, k: nat): int
    requires k < |asked|
  {
    Answer(AfterAll(asked[..k]), asked[k]).1
  }

  // --- The stream by itself ---

  predicate Seen(asked: seq<Asked>, id: string) {
    exists k :: 0 <= k < |asked| && asked[k].id == id
  }

  /** The id shows for the first time behind the fragments so far. */
  predicate Fresh(asked: seq<Asked>, id: string) { id != "" && !Seen(asked, id) }

  /** Fragment k opens a call: it carries an id none before it does. */
  predicate Opens(asked: seq<Asked>, k: nat) {
    k < |asked| && Fresh(asked[..k], asked[k].id)
  }

  /** How many calls the fragments open. */
  function Openers(asked: seq<Asked>): nat {
    if asked == [] then 0
    else
      var n := |asked| - 1;
      Openers(asked[..n]) + if Fresh(asked[..n], asked[n].id) then 1 else 0
  }

  /** Some opener stamped the index. */
  predicate Stamped(asked: seq<Asked>, w: int) {
    exists k: nat :: k < |asked| && Opens(asked, k) && asked[k].index == Some(w)
  }

  /** Fragment k has an index no earlier opener stamped. */
  predicate OwnIndex(asked: seq<Asked>, k: nat) {
    k < |asked| && asked[k].index.Some? && !Stamped(asked[..k], asked[k].index.value)
  }

  /** An opener with an index of its own is given it; any other the next number below zero. */
  function OpenerIndex(asked: seq<Asked>, k: nat): int
    requires k < |asked|
  {
    if OwnIndex(asked, k) then asked[k].index.value else -1 - Openers(asked[..k])
  }

  /** The opener of fragment k's call. */
  ghost function OpenerOf(asked: seq<Asked>, k: nat): (o: nat)
    requires k < |asked| && asked[k].id != ""
    ensures o <= k && Opens(asked, o) && asked[o].id == asked[k].id
  {
    if Seen(asked[..k], asked[k].id) then
      var j: nat :| j < k && asked[..k][j].id == asked[k].id;
      OpenerOf(asked, j)
    else k
  }

  // --- One fragment more ---

  lemma OpensPrefix(asked: seq<Asked>, a: Asked, k: nat)
    requires k < |asked|
    ensures Opens(asked + [a], k) <==> Opens(asked, k)
  {
    assert (asked + [a])[..k] == asked[..k];
  }

  lemma SeenStep(asked: seq<Asked>, a: Asked, id: string)
    ensures Seen(asked + [a], id) <==> Seen(asked, id) || a.id == id
  {
    var longer := asked + [a];
    assert longer[|asked|] == a;
    if Seen(asked, id) {
      var k :| 0 <= k < |asked| && asked[k].id == id;
      assert longer[k].id == id;
    }
  }

  lemma StampedStep(asked: seq<Asked>, a: Asked, w: int)
    ensures Stamped(asked + [a], w) <==> Stamped(asked, w) || (Fresh(asked, a.id) && a.index == Some(w))
  {
    var longer := asked + [a];
    assert longer[..|asked|] == asked && longer[|asked|] == a;
    forall k: nat | k < |asked| ensures (Opens(longer, k) <==> Opens(asked, k)) && longer[k] == asked[k] {
      OpensPrefix(asked, a, k);
    }
    if Stamped(asked, w) {
      var k: nat :| k < |asked| && Opens(asked, k) && asked[k].index == Some(w);
      assert Opens(longer, k);
    }
    if Fresh(asked, a.id) && a.index == Some(w) {
      assert Opens(longer, |asked|);
    }
  }

  lemma OpenersStep(asked: seq<Asked>, a: Asked)
    ensures Openers(asked + [a]) == Openers(asked) + if Fresh(asked, a.id) then 1 else 0
  {
    assert (asked + [a])[..|asked|] == asked;
  }

  // --- What the resolver remembers of the stream ---

  ghost predicate Remembers(x: Indexer, asked: seq<Asked>) {
    && (forall id :: id in x.idxByCallId <==> id != "" && Seen(asked, id))
    && |x.idxByCallId| == Openers(asked)
    && (forall w :: w in x.idByIndex <==> Stamped(asked, w))
    && (forall w :: w in x.idByIndex ==> x.idByIndex[w] in x.idxByCallId)
  }

  lemma OneKeyMore(m: map<string, int>, id: string, idx: int)
    requires id !in m
    ensures |m[id := idx]| == |m| + 1
  {
    assert m[id := idx].Keys == m.Keys + {id};
  }

  /** A fragment that opens no call changes nothing that is remembered. */
  lemma AnswerKnown(x: Indexer, asked: seq<Asked>, a: Asked)
    requires Remembers(x, asked) && !Fresh(asked, a.id)
    ensures var y := Answer(x, a).0; y.idxByCallId == x.idxByCallId && y.idByIndex == x.idByIndex
  {
  }

  /** An opener, as the resolver takes it. */
  lemma AnswerOpener(x: Indexer, asked: seq<Asked>, a: Asked)
    requires Remembers(x, asked) && Fresh(asked, a.id)
    ensures var (y, idx) := Answer(x, a);
            && idx == (if a.index.Some? && !Stamped(asked, a.index.value) then a.index.value else -1 - Openers(asked))
            && y.idxByCallId == x.idxByCallId[a.id := idx]
            && y.idByIndex == if a.index.Some? then x.idByIndex[a.index.value := a.id] else x.idByIndex
  {
  }

  lemma AnswerRemembers(x: Indexer, asked: seq<Asked>, a: Asked)
    requires Remembers(x, asked)
    ensures Remembers(Answer(x, a).0, asked + [a])
  {
    forall id ensures Seen(asked + [a], id) <==> Seen(asked, id) || a.id == id {
      SeenStep(asked, a, id);
    }
    forall w ensures Stamped(asked + [a], w) <==> Stamped(asked, w) || (Fresh(asked, a.id) && a.index == Some(w)) {
      StampedStep(asked, a, w);
    }
    OpenersStep(asked, a);
    if Fresh(asked, a.id) {
      AnswerOpener(x, asked, a);
      OneKeyMore(x.idxByCallId, a.id, Answer(x, a).1);
    } else {
      AnswerKnown(x, asked, a);
    }
  }

  lemma {:induction false} RunRemembers(asked: seq<Asked>)
    ensures Remembers(AfterAll(asked), asked)
  {
    if asked != [] {
      var n := |asked| - 1;
      RunRemembers(asked[..n]);
      AnswerRemembers(AfterAll(asked[..n]), asked[..n], asked[n]);
      assert asked == asked[..n] + [asked[n]];
    }
  }

  // --- An id keeps its index ---

  /** A keyed id answers with its index, and keeps it. */
  lemma AnswerKeepsIds(x: Indexer, a: Asked)
    ensures var (y, idx) := Answer(x, a);
            && (forall b :: b in x.idxByCallId ==> b in y.idxByCallId && y.idxByCallId[b] == x.idxByCallId[b])
            && (a.id != "" ==> a.id in y.idxByCallId && y.idxByCallId[a.id] == idx)
  {
  }

  /** What a fragment's id was given stays its id's index for the rest of the stream. */
  lemma {:induction false} IndexStays(asked: seq<Asked>, k: nat)
    requires k < |asked| && asked[k].id != ""
    ensures var x := AfterAll(asked);
            asked[k].id in x.idxByCallId && x.idxByCallId[asked[k].id] == IndexAt(asked, k)
  {
    var n := |asked| - 1;
    AnswerKeepsIds(AfterAll(asked[..n]), asked[n]);
    if k < n {
      assert asked[..n][..k] == asked[..k];
      IndexStays(asked[..n], k);
    }
  }

  /** Every fragment with an id is given its opener's index. */
  lemma IndexIsOpeners(asked: seq<Asked>, k: nat)
    requires k < |asked| && asked[k].id != ""
    ensures IndexAt(asked, k) == OpenerIndex(asked, OpenerOf(asked, k))
  {
    var o := OpenerOf(asked, k);
    IndexStays(asked, k);
    IndexStays(asked, o);
    RunRemembers(asked[..o]);
    AnswerOpener(AfterAll(asked[..o]), asked[..o], asked[o]);
  }

  // --- When two ids share an index ---

  /** Opener j's own index is the number the resolver gives opener k, which has none. */
  predicate Collides(asked: seq<Asked>, j: nat, k: nat)
    requires j < |asked| && k < |asked|
  {
    OwnIndex(asked, j) && !OwnIndex(asked, k) && asked[j].index.value == -1 - Openers(asked[..k])
  }

  /** Later openers are numbered higher. */
  lemma {:induction false} OpenersRise(asked: seq<Asked>, j: nat, k: nat)
    requires j < k <= |asked| && Opens(asked, j)
    ensures Openers(asked[..j]) < Openers(asked[..k])
  {
    var longer := asked[..k];
    assert longer[..k - 1] == asked[..k - 1];
    if j < k - 1 {
      OpenersRise(asked, j, k - 1);
    }
  }

  lemma OpenersApart(asked: seq<Asked>, j: nat, k: nat)
    requires j < k < |asked| && Opens(asked, j) && Opens(asked, k)
    ensures OpenerIndex(asked, j) == OpenerIndex(asked, k) <==> Collides(asked, j, k) || Collides(asked, k, j)
  {
    OpenersRise(asked, j, k);
    if OwnIndex(asked, j) && OwnIndex(asked, k) {
      assert asked[..k][..j] == asked[..j] && Opens(asked[..k], j);
      assert Stamped(asked[..k], asked[j].index.value);
    }
  }

  lemma OneOpener(asked: seq<Asked>, a: nat, b: nat)
    requires a < b && Opens(asked, a) && Opens(asked, b)
    ensures asked[a].id != asked[b].id
  {
    assert asked[..b][a] == asked[a];
  }

  /** In any stream, two fragments with ids are given one index exactly when they carry one id, or
      the opener of one has an index of its own that is the number given to the other's. */
  lemma SameIndexIff(asked: seq<Asked>, j: nat, k: nat)
    requires j < |asked| && k < |asked| && asked[j].id != "" && asked[k].id != ""
    ensures var a, b := OpenerOf(asked, j), OpenerOf(asked, k);
            IndexAt(asked, j) == IndexAt(asked, k)
            <==> asked[j].id == asked[k].id || Collides(asked, a, b) || Collides(asked, b, a)
  {
    var a, b := OpenerOf(asked, j), OpenerOf(asked, k);
    IndexIsOpeners(asked, j);
    IndexIsOpeners(asked, k);
    if a < b {
      OneOpener(asked, a, b);
      OpenersApart(asked, a, b);
    } else if b < a {
      OneOpener(asked, b, a);
      OpenersApart(asked, b, a);
    }
  }

  /** Indices that are not negative are never taken for such a number. */
  lemma NaturalIndicesTellApart(asked: seq<Asked>, j: nat, k: nat)
    requires forall i :: 0 <= i < |asked| && asked[i].index.Some? ==> asked[i].index.value >= 0
    requires j < |asked| && k < |asked| && asked[j].id != "" && asked[k].id != ""
    ensures IndexAt(asked, j) == IndexAt(asked, k) <==> asked[j].id == asked[k].id
  {
    SameIndexIff(asked, j, k);
  }

  /** A negative index can be the number of another call: both calls are given it. */
  lemma NegativeIndexIsShared()
    ensures var asked := [Asked(None, "a", {}), Asked(Some(-1), "b", {})];
            IndexAt(asked, 0) == IndexAt(asked, 1)
  {
    var asked := [Asked(None, "a", {}), Asked(Some(-1), "b", {})];
    assert asked[..0] == [] && asked[..1] == [asked[0]] && [asked[0]][..0] == [];
    assert AfterAll([asked[0]]) == Indexer(map["a" := -1], map[], map[], -1);
  }

  // --- Fragments without an id ---

  /** The index the fragments end on; before any, 0. */
  function Latest(asked: seq<Asked>): int { if asked == [] then 0 else IndexAt(asked, |asked| - 1) }

  /** Opener o is the last that stamped the index. */
  predicate NamedBy(asked: seq<Asked>, w: int, o: nat) {
    && o < |asked| && Opens(asked, o) && asked[o].index == Some(w)
    && forall k: nat :: o < k < |asked| && Opens(asked, k) ==> asked[k].index != Some(w)
  }

  /** A fragment behind it that does not open a call under the index leaves the index named as it is. */
  lemma AliasKept(x: Indexer, asked: seq<Asked>, a: Asked, w: int)
    requires Remembers(x, asked) && !(Fresh(asked, a.id) && a.index == Some(w))
    ensures var y := Answer(x, a).0; (w in y.aliasOf <==> w in x.aliasOf) && (w in x.aliasOf ==> y.aliasOf[w] == x.aliasOf[w])
  {
  }

  lemma NamedBefore(before: seq<Asked>, a: Asked, w: int, o: nat)
    requires NamedBy(before + [a], w, o) && o < |before|
    ensures NamedBy(before, w, o) && !(Fresh(before, a.id) && a.index == Some(w))
  {
    var asked := before + [a];
    assert asked[..|before|] == before && asked[|before|] == a;
    assert Opens(asked, |before|) ==> a.index != Some(w);
    forall k: nat | k < |before| ensures Opens(before, k) <==> Opens(asked, k) {
      OpensPrefix(before, a, k);
    }
    forall k: nat | o < k < |before| && Opens(before, k) ensures before[k].index != Some(w) {
      assert Opens(asked, k) && asked[k] == before[k];
    }
  }

  lemma AliasOpened(before: seq<Asked>, a: Asked)
    requires Fresh(before, a.id) && a.index.Some?
    ensures var (y, idx) := Answer(AfterAll(before), a); a.index.value in y.aliasOf && y.aliasOf[a.index.value] == idx
  {
    RunRemembers(before);
  }

  lemma AliasStays(before: seq<Asked>, a: Asked, w: int)
    requires !(Fresh(before, a.id) && a.index == Some(w))
    ensures var x := AfterAll(before);
            var y := Answer(x, a).0;
            (w in y.aliasOf <==> w in x.aliasOf) && (w in x.aliasOf ==> y.aliasOf[w] == x.aliasOf[w])
  {
    RunRemembers(before);
    AliasKept(AfterAll(before), before, a, w);
  }

  lemma {:induction false} AliasIs(asked: seq<Asked>, w: int, o: nat)
    requires NamedBy(asked, w, o)
    ensures var names := AfterAll(asked).aliasOf; w in names && names[w] == IndexAt(asked, o)
  {
    var n := |asked| - 1;
    var before, a := asked[..n], asked[n];
    if o == n {
      AliasOpened(before, a);
    } else {
      assert before[..o] == asked[..o] && before + [a] == asked;
      NamedBefore(before, a, w, o);
      AliasIs(before, w, o);
      AliasStays(before, a, w);
      assert IndexAt(before, o) == IndexAt(asked, o);
    }
  }

  lemma {:induction false} NoAlias(asked: seq<Asked>, w: int)
    requires !Stamped(asked, w)
    ensures w !in AfterAll(asked).aliasOf
  {
    if asked != [] {
      var n := |asked| - 1;
      var before, a := asked[..n], asked[n];
      assert before + [a] == asked;
      StampedStep(before, a, w);
      NoAlias(before, w);
      AliasStays(before, a, w);
    }
  }

  /** An index some opener stamped has a last one. */
  lemma StampedIsNamed(asked: seq<Asked>, w: int) returns (o: nat)
    requires Stamped(asked, w)
    ensures NamedBy(asked, w, o)
  {
    o :| o < |asked| && Opens(asked, o) && asked[o].index == Some(w);
    while !NamedBy(asked, w, o)
      invariant o < |asked| && Opens(asked, o) && asked[o].index == Some(w)
      decreases |asked| - o
    {
      var k: nat :| o < k < |asked| && Opens(asked, k) && asked[k].index == Some(w);
      o := k;
    }
  }

  /** A fragment without an id is the latest call's if it has no index either. With one it is the call's
      that opened last under the index; under an index no call opened with it is the latest call's again
      if that was numbered below zero and nothing is open under the index, and the index itself otherwise. */
  lemma BareFragmentIndex(asked: seq<Asked>, k: nat)
    requires k < |asked| && asked[k].id == ""
    ensures var before, index := asked[..k], asked[k].index;
            && (index.None? ==> IndexAt(asked, k) == Latest(before))
            && (index.Some? && Stamped(before, index.value) ==>
                  exists o: nat :: NamedBy(before, index.value, o) && IndexAt(asked, k) == IndexAt(asked, o))
            && (index.Some? && !Stamped(before, index.value) ==>
                  IndexAt(asked, k) == if Latest(before) < 0 && index.value !in asked[k].openCalls then Latest(before)
                                       else index.value)
  {
    var before, index := asked[..k], asked[k].index;
    assert AfterAll(before).last == Latest(before);
    if index.Some? && Stamped(before, index.value) {
      var o := StampedIsNamed(before, index.value);
      AliasIs(before, index.value, o);
      assert before[..o] == asked[..o];
    } else if index.Some? {
      NoAlias(before, index.value);
    }
  }
}
