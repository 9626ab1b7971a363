/** Sorted listings of finite sets of integers, as slices.Sort leaves them. */
module SortedInts {
  predicate Ascending(list: seq<int>) {
    forall i, j :: 0 <= i < j < |list| ==> list[i] < list[j]
  }

  /** The one ascending listing of a finite set. */
  ghost predicate Lists(list: seq<int>, keys: set<int>) {
    Ascending(list) && forall k :: k in list <==> k in keys
  }

  lemma HasMax(keys: set<int>)
    requires keys != {}
    ensures exists m :: IsMax(m, keys)
  {
    assert (forall k :: k !in keys) ==> keys == {};
    var k: int :| k in keys;
    var rest := keys - {k};
    if forall x :: x in keys ==> x == k {
      assert IsMax(k, keys);
    } else {
      var other: int :| other in keys && other != k;
      assert other in rest;
      HasMax(rest);
      var m :| IsMax(m, rest);
      forall x | x in keys ensures x <= k || x <= m {
        assert x == k || x in rest;
      }
      assert IsMax(if k > m then k else m, keys);
    }
  }

  ghost predicate IsMax(m: int, keys: set<int>) {
    m in keys && forall k :: k in keys ==> k <= m
  }

  ghost function Listing(keys: set<int>): (list: seq<int>)
    ensures Lists(list, keys)
  {
    if keys == {} then []
    else
      HasMax(keys);
      var m :| IsMax(m, keys);
      Listing(keys - {m}) + [m]
  }

  /** slices.Sort, by insertion. */
  method Sort(keys: seq<int>) returns (sorted: seq<int>)
    requires forall i, j :: 0 <= i < j < |keys| ==> keys[i] != keys[j]
    ensures Ascending(sorted) && forall k :: k in sorted <==> k in keys
  {
    sorted := [];
    for i := 0 to |keys|
      invariant Ascending(sorted)
      invariant forall k :: k in sorted <==> k in keys[..i]
    {
      assert keys[i] !in keys[..i];
      sorted := Insert(sorted, keys[i]);
      assert keys[..i + 1] == keys[..i] + [keys[i]];
    }
    assert keys[..|keys|] == keys;
  }

  method Insert(sorted: seq<int>, key: int) returns (longer: seq<int>)
    requires Ascending(sorted) && key !in sorted
    ensures Ascending(longer) && forall k :: k in longer <==> k in sorted || k == key
  {
    var at := 0;
    while at < |sorted| && sorted[at] < key
      invariant at <= |sorted|
      invariant forall j :: 0 <= j < at ==> sorted[j] < key
    {
      at := at + 1;
    }
    longer := sorted[..at] + [key] + sorted[at..];
    assert sorted == sorted[..at] + sorted[at..];
    assert at < |sorted| ==> key < sorted[at] && forall j :: at <= j < |sorted| ==> key < sorted[j];
  }

  lemma LastIsMax(a: seq<int>, keys: set<int>)
    requires Lists(a, keys) && a != []
    ensures IsMax(a[|a| - 1], keys)
  {
  }

  lemma {:induction false} AscendingUnique(a: seq<int>, b: seq<int>, keys: set<int>)
    requires Lists(a, keys) && Lists(b, keys)
    ensures a == b
    decreases |a|
  {
    if a != [] && b != [] {
      LastIsMax(a, keys);
      LastIsMax(b, keys);
      LastDropped(a, keys);
      LastDropped(b, keys);
      AscendingUnique(a[..|a| - 1], b[..|b| - 1], keys - {a[|a| - 1]});
    } else {
      SameElements(a, b, keys);
    }
  }

  lemma SameElements(a: seq<int>, b: seq<int>, keys: set<int>)
    requires Lists(a, keys) && Lists(b, keys)
    ensures a == [] <==> b == []
  {
    if a != [] { var x := a[0]; assert x in a; assert x in b; }
    if b != [] { var x := b[0]; assert x in b; assert x in a; }
  }

  lemma LastDropped(a: seq<int>, keys: set<int>)
    requires Lists(a, keys) && a != []
    ensures Lists(a[..|a| - 1], keys - {a[|a| - 1]})
  {
    var n := |a| - 1;
    assert a == a[..n] + [a[n]];
    assert a[n] !in a[..n];
  }
}
