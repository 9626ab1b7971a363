/** Son, father and grandfather rotation of backups (internal/api/backup_retention.go), for any
    bucket functions and any sets of wanted buckets. */
module BackupRotation {
  import opened Wrappers
  import opened SortedInts

  /** A backup file and the time its name parses to, None when the name does not parse. */
  datatype Backup = Backup(name: string, stamp: Option<int>)

  // Go's zero time, which a name can spell.
  const ZERO_TIME := 0

  /** A tier: the bucket a time falls into, and the buckets wanted. Keys keep the order of the
      strings they stand for. */
  datatype Tier = Tier(bucket: int -> int, wanted: set<int>)

  datatype Classification = Classification(son: seq<Backup>, father: seq<Backup>, grandfather: seq<Backup>, prune: seq<Backup>)

  predicate DistinctNames(backups: seq<Backup>) {
    forall i, j :: 0 <= i < j < |backups| ==> backups[i].name != backups[j].name
  }

  function Names(backups: seq<Backup>): set<string> { set b | b in backups :: b.name }

  // --- One tier ---

  predicate InBucket(b: Backup, kept: set<string>, bucket: int -> int, key: int) {
    b.stamp.Some? && b.name !in kept && bucket(b.stamp.value) == key
  }

  /** The bucket's candidates, in list order. */
  function Candidates(backups: seq<Backup>, kept: set<string>, bucket: int -> int, key: int): (list: seq<Backup>)
    ensures forall b :: b in list <==> b in backups && InBucket(b, kept, bucket, key)
  {
    if backups == [] then []
    else
      var n := |backups| - 1;
      assert backups == backups[..n] + [backups[n]];
      Candidates(backups[..n], kept, bucket, key) + if InBucket(backups[n], kept, bucket, key) then [backups[n]] else []
  }

  /** slices.MaxFunc: the first of the most recent. */
  function MostRecent(list: seq<Backup>): (best: Option<Backup>)
    requires forall b :: b in list ==> b.stamp.Some?
    ensures best.None? <==> list == []
    ensures best.Some? ==> best.value in list && forall b :: b in list ==> b.stamp.value <= best.value.stamp.value
  {
    if list == [] then None
    else
      var n := |list| - 1;
      assert list == list[..n] + [list[n]];
      var best := MostRecent(list[..n]);
      if best.None? || best.value.stamp.value < list[n].stamp.value then Some(list[n]) else best
  }

  function Pick(backups: seq<Backup>, kept: set<string>, bucket: int -> int, key: int): Option<Backup> {
    MostRecent(Candidates(backups, kept, bucket, key))
  }

  function KeyOf(b: Backup, bucket: int -> int): int
    requires b.stamp.Some?
  {
    bucket(b.stamp.value)
  }

  /** The tier keeps the pick of every wanted bucket that has one and nothing else, latest bucket first. */
  ghost predicate IsTier(kept: set<string>, backups: seq<Backup>, t: Tier, tier: seq<Backup>) {
    && (forall i :: 0 <= i < |tier| ==>
          tier[i].stamp.Some? && KeyOf(tier[i], t.bucket) in t.wanted
          && Pick(backups, kept, t.bucket, KeyOf(tier[i], t.bucket)) == Some(tier[i]))
    && (forall i, j :: 0 <= i < j < |tier| ==> KeyOf(tier[i], t.bucket) > KeyOf(tier[j], t.bucket))
    && (forall key :: key in t.wanted && Pick(backups, kept, t.bucket, key).Some? ==> Pick(backups, kept, t.bucket, key).value in tier)
  }

  ghost predicate IsClassification(backups: seq<Backup>, son: Tier, father: Tier, grandfather: Tier, c: Classification) {
    && IsTier({}, backups, son, c.son)
    && IsTier(Names(c.son), backups, father, c.father)
    && IsTier(Names(c.son) + Names(c.father), backups, grandfather, c.grandfather)
    && c.prune == Unparsed(backups) + Unkept(backups, Kept(c))
  }

  function Kept(c: Classification): set<string> { Names(c.son) + Names(c.father) + Names(c.grandfather) }

  function Unparsed(backups: seq<Backup>): (list: seq<Backup>)
    ensures forall b :: b in list <==> b in backups && b.stamp.None?
  {
    if backups == [] then []
    else
      var n := |backups| - 1;
      assert backups == backups[..n] + [backups[n]];
      Unparsed(backups[..n]) + if backups[n].stamp.None? then [backups[n]] else []
  }

  predicate Expendable(b: Backup, kept: set<string>) {
    b.name !in kept && b.stamp.Some? && b.stamp.value != ZERO_TIME
  }

  function Unkept(backups: seq<Backup>, kept: set<string>): (list: seq<Backup>)
    ensures forall b :: b in list <==> b in backups && Expendable(b, kept)
  {
    if backups == [] then []
    else
      var n := |backups| - 1;
      assert backups == backups[..n] + [backups[n]];
      Unkept(backups[..n], kept) + if Expendable(backups[n], kept) then [backups[n]] else []
  }

  // --- The code ---

  method MostRecentEntry(entries: seq<Backup>) returns (best: Option<Backup>)
    requires forall b :: b in entries ==> b.stamp.Some?
    ensures best == MostRecent(entries)
  {
    if entries == [] { return None; }
    var max := entries[0];
    for i := 1 to |entries|
      invariant forall b :: b in entries[..i] ==> b.stamp.Some?
      invariant max in entries && MostRecent(entries[..i]) == Some(max)
    {
      assert entries[..i + 1][..i] == entries[..i];
      if max.stamp.value < entries[i].stamp.value { max := entries[i]; }
    }
    assert entries[..|entries|] == entries;
    best := Some(max);
  }

  method Reverse(list: seq<int>) returns (reversed: seq<int>)
    ensures |reversed| == |list| && forall i :: 0 <= i < |list| ==> reversed[i] == list[|list| - 1 - i]
  {
    reversed := [];
    for i := 0 to |list|
      invariant |reversed| == i && forall k :: 0 <= k < i ==> reversed[k] == list[|list| - 1 - k]
    {
      reversed := reversed + [list[|list| - 1 - i]];
    }
  }

  method DescendingKeys(buckets: map<int, seq<Backup>>) returns (keys: seq<int>)
    ensures forall i, j :: 0 <= i < j < |keys| ==> keys[i] > keys[j]
    ensures forall k :: k in keys <==> k in buckets
  {
    var collected: seq<int> := [];
    var rest := buckets.Keys;
    while rest != {}
      invariant rest <= buckets.Keys
      invariant forall k :: k in collected <==> k in buckets && k !in rest
      invariant forall i, j :: 0 <= i < j < |collected| ==> collected[i] != collected[j]
    {
      assert (forall k :: k !in rest) ==> rest == {};
      var k: int :| k in rest;
      rest := rest - {k};
      collected := collected + [k];
    }
    var sorted := Sort(collected);
    keys := Reverse(sorted);
    forall k ensures k in keys <==> k in sorted {
      if k in sorted {
        var i :| 0 <= i < |sorted| && sorted[i] == k;
        assert keys[|sorted| - 1 - i] == k;
      }
    }
  }

  /** The buckets hold, for each wanted key, its candidates among the entries seen. */
  ghost predicate Bucketed(buckets: map<int, seq<Backup>>, seen: seq<Backup>, kept: set<string>, t: Tier) {
    && (forall key :: key in buckets ==> key in t.wanted && buckets[key] == Candidates(seen, kept, t.bucket, key) && buckets[key] != [])
    && (forall key :: key in t.wanted && key !in buckets ==> Candidates(seen, kept, t.bucket, key) == [])
  }

  /** The buckets after one more entry. */
  function Filed(buckets: map<int, seq<Backup>>, b: Backup, kept: set<string>, t: Tier): map<int, seq<Backup>> {
    if b.stamp.Some? && b.name !in kept && KeyOf(b, t.bucket) in t.wanted then
      var key := KeyOf(b, t.bucket);
      buckets[key := (if key in buckets then buckets[key] else []) + [b]]
    else
      buckets
  }

  lemma BucketedStep(buckets: map<int, seq<Backup>>, seen: seq<Backup>, b: Backup, kept: set<string>, t: Tier)
    requires Bucketed(buckets, seen, kept, t)
    ensures Bucketed(Filed(buckets, b, kept, t), seen + [b], kept, t)
  {
    forall key ensures Candidates(seen + [b], kept, t.bucket, key)
                       == if InBucket(b, kept, t.bucket, key) then Candidates(seen, kept, t.bucket, key) + [b]
                          else Candidates(seen, kept, t.bucket, key) {
      CandidatesPush(seen, kept, t.bucket, key, b);
    }
  }

  method FillBuckets(backups: seq<Backup>, kept: set<string>, t: Tier) returns (buckets: map<int, seq<Backup>>)
    ensures Bucketed(buckets, backups, kept, t)
  {
    buckets := map[];
    for i := 0 to |backups|
      invariant Bucketed(buckets, backups[..i], kept, t)
    {
      var b := backups[i];
      assert backups[..i + 1] == backups[..i] + [b];
      BucketedStep(buckets, backups[..i], b, kept, t);
      if b.stamp.Some? && b.name !in kept {
        var key := t.bucket(b.stamp.value);
        if key in t.wanted {
          buckets := buckets[key := (if key in buckets then buckets[key] else []) + [b]];
        }
      }
    }
    assert backups[..|backups|] == backups;
  }

  lemma BucketHolds(buckets: map<int, seq<Backup>>, backups: seq<Backup>, kept: set<string>, t: Tier, key: int)
    requires Bucketed(buckets, backups, kept, t) && key in buckets
    ensures forall b :: b in buckets[key] ==> b.stamp.Some?
    ensures MostRecent(buckets[key]) == Pick(backups, kept, t.bucket, key) && Pick(backups, kept, t.bucket, key).Some?
  {
  }

  lemma NamesGrow(tier: seq<Backup>, b: Backup)
    ensures Names(tier + [b]) == Names(tier) + {b.name}
  {
  }

  /** The tier so far: the picks of the keys so far, in order. */
  ghost predicate ArePicks(backups: seq<Backup>, kept: set<string>, bucket: int -> int, keys: seq<int>, tier: seq<Backup>) {
    |tier| == |keys| && forall k :: 0 <= k < |keys| ==> Pick(backups, kept, bucket, keys[k]) == Some(tier[k])
  }

  lemma PicksGrow(backups: seq<Backup>, kept: set<string>, bucket: int -> int, keys: seq<int>, tier: seq<Backup>, i: nat, p: Backup)
    requires i < |keys| && ArePicks(backups, kept, bucket, keys[..i], tier) && Pick(backups, kept, bucket, keys[i]) == Some(p)
    ensures ArePicks(backups, kept, bucket, keys[..i + 1], tier + [p])
  {
  }

  method KeepMostRecentPerBucket(backups: seq<Backup>, kept: set<string>, t: Tier) returns (tier: seq<Backup>, nowKept: set<string>)
    requires DistinctNames(backups)
    ensures IsTier(kept, backups, t, tier) && nowKept == kept + Names(tier)
  {
    var buckets := FillBuckets(backups, kept, t);
    var keys := DescendingKeys(buckets);
    tier, nowKept := [], kept;
    for i := 0 to |keys|
      invariant nowKept == kept + Names(tier)
      invariant ArePicks(backups, kept, t.bucket, keys[..i], tier)
    {
      var key := keys[i];
      assert key in keys && key !in keys[..i];
      BucketHolds(buckets, backups, kept, t, key);
      var picked := MostRecentEntry(buckets[key]);
      PicksDiffer(backups, kept, t.bucket, keys[..i], tier, key);
      if picked.Some? && picked.value.name !in nowKept {
        PicksGrow(backups, kept, t.bucket, keys, tier, i, picked.value);
        NamesGrow(tier, picked.value);
        tier := tier + [picked.value];
        nowKept := nowKept + {picked.value.name};
      }
    }
    assert keys[..|keys|] == keys;
    TierOfKeys(backups, kept, t, buckets, keys, tier);
  }

  /** Picks of different buckets are different files, so none is refused as kept already. */
  lemma PicksDiffer(backups: seq<Backup>, kept: set<string>, bucket: int -> int, keys: seq<int>, tier: seq<Backup>, key: int)
    requires DistinctNames(backups) && key !in keys && ArePicks(backups, kept, bucket, keys, tier)
    requires Pick(backups, kept, bucket, key).Some?
    ensures Pick(backups, kept, bucket, key).value.name !in kept + Names(tier)
  {
    var p := Pick(backups, kept, bucket, key).value;
    forall k | 0 <= k < |tier| ensures tier[k].name != p.name {
      assert tier[k] in backups && p in backups;
      assert KeyOf(tier[k], bucket) == keys[k] && KeyOf(p, bucket) == key;
      SameNameSame(backups, tier[k], p);
    }
  }

  lemma SameNameSame(backups: seq<Backup>, a: Backup, b: Backup)
    requires DistinctNames(backups) && a in backups && b in backups
    ensures a.name == b.name <==> a == b
  {
    var i :| 0 <= i < |backups| && backups[i] == a;
    var j :| 0 <= j < |backups| && backups[j] == b;
  }

  lemma TierOfKeys(backups: seq<Backup>, kept: set<string>, t: Tier, buckets: map<int, seq<Backup>>, keys: seq<int>, tier: seq<Backup>)
    requires Bucketed(buckets, backups, kept, t) && ArePicks(backups, kept, t.bucket, keys, tier)
    requires forall i, j :: 0 <= i < j < |keys| ==> keys[i] > keys[j]
    requires forall k :: k in keys <==> k in buckets
    ensures IsTier(kept, backups, t, tier)
  {
    forall i | 0 <= i < |tier|
      ensures tier[i].stamp.Some? && KeyOf(tier[i], t.bucket) == keys[i] && keys[i] in t.wanted
    {
      var k := keys[i];
      assert k in keys && k in buckets;
    }
    forall key | key in t.wanted && Pick(backups, kept, t.bucket, key).Some? ensures Pick(backups, kept, t.bucket, key).value in tier {
      assert key in buckets && key in keys;
      var i :| 0 <= i < |keys| && keys[i] == key;
      assert tier[i] == Pick(backups, kept, t.bucket, key).value;
    }
  }

  method ClassifyBackups(backups: seq<Backup>, son: Tier, father: Tier, grandfather: Tier) returns (c: Classification)
    requires DistinctNames(backups)
    ensures IsClassification(backups, son, father, grandfather, c)
  {
    var prune: seq<Backup> := [];
    for i := 0 to |backups|
      invariant prune == Unparsed(backups[..i])
    {
      assert backups[..i + 1][..i] == backups[..i];
      if backups[i].stamp.None? { prune := prune + [backups[i]]; } else { assert prune + [] == prune; }
    }
    assert backups[..|backups|] == backups;
    var kept: set<string> := {};
    var sons, fathers, grandfathers;
    sons, kept := KeepMostRecentPerBucket(backups, kept, son);
    assert {} + Names(sons) == Names(sons);
    fathers, kept := KeepMostRecentPerBucket(backups, kept, father);
    grandfathers, kept := KeepMostRecentPerBucket(backups, kept, grandfather);
    var unkept: seq<Backup> := [];
    for i := 0 to |backups|
      invariant unkept == Unkept(backups[..i], kept)
    {
      assert backups[..i + 1][..i] == backups[..i];
      if backups[i].name !in kept && backups[i].stamp.Some? && backups[i].stamp.value != ZERO_TIME {
        unkept := unkept + [backups[i]];
      } else {
        assert unkept + [] == unkept;
      }
    }
    assert backups[..|backups|] == backups;
    c := Classification(sons, fathers, grandfathers, prune + unkept);
  }

  // --- Exactly one tier, or pruned ---

  /** How many times the four lists hold the backup. */
  function Homes(c: Classification, b: Backup): nat {
    multiset(c.son)[b] + multiset(c.father)[b] + multiset(c.grandfather)[b] + multiset(c.prune)[b]
  }

  predicate Distinct(list: seq<Backup>) {
    forall i, j :: 0 <= i < j < |list| ==> list[i] != list[j]
  }

  lemma {:induction false} CountsOnce(list: seq<Backup>, b: Backup)
    requires Distinct(list)
    ensures multiset(list)[b] == if b in list then 1 else 0
  {
    if list != [] {
      var n := |list| - 1;
      CountsOnce(list[..n], b);
      assert list == list[..n] + [list[n]];
    }
  }

  /** Files of different names are listed for pruning once. */
  lemma {:induction false} PruneDistinct(backups: seq<Backup>, kept: set<string>)
    requires DistinctNames(backups)
    ensures Distinct(Unparsed(backups)) && Distinct(Unkept(backups, kept))
  {
    if backups != [] {
      var n := |backups| - 1;
      PruneDistinct(backups[..n], kept);
      assert backups[n] !in backups[..n];
    }
  }

  lemma PruneCounts(backups: seq<Backup>, kept: set<string>, b: Backup)
    requires DistinctNames(backups)
    ensures multiset(Unparsed(backups) + Unkept(backups, kept))[b]
            == if b in backups && (b.stamp.None? || Expendable(b, kept)) then 1 else 0
  {
    PruneDistinct(backups, kept);
    CountsOnce(Unparsed(backups), b);
    CountsOnce(Unkept(backups, kept), b);
  }

  /** No tier lists a backup twice: its buckets differ. */
  lemma TiersDistinct(backups: seq<Backup>, kept: set<string>, t: Tier, tier: seq<Backup>)
    requires IsTier(kept, backups, t, tier)
    ensures Distinct(tier)
  {
  }

  lemma TierFrom(kept: set<string>, backups: seq<Backup>, t: Tier, tier: seq<Backup>, b: Backup)
    requires IsTier(kept, backups, t, tier) && b in tier
    ensures b in backups && b.stamp.Some? && b.name !in kept && KeyOf(b, t.bucket) in t.wanted
    ensures Pick(backups, kept, t.bucket, KeyOf(b, t.bucket)) == Some(b)
  {
    var i :| 0 <= i < |tier| && tier[i] == b;
  }

  lemma TierCounts(backups: seq<Backup>, kept: set<string>, t: Tier, tier: seq<Backup>, b: Backup)
    requires IsTier(kept, backups, t, tier)
    ensures multiset(tier)[b] == if b in tier then 1 else 0
  {
    TiersDistinct(backups, kept, t, tier);
    CountsOnce(tier, b);
  }

  /** With distinct file names, every backup lands in exactly one of the four lists, except one
      whose name parses to the zero time and that no tier keeps, which lands in none. */
  lemma ExactlyOneHome(backups: seq<Backup>, son: Tier, father: Tier, grandfather: Tier, c: Classification, b: Backup)
    requires DistinctNames(backups) && IsClassification(backups, son, father, grandfather, c) && b in backups
    ensures Homes(c, b) == if b.stamp == Some(ZERO_TIME) && b.name !in Kept(c) then 0 else 1
  {
    var all := Names(c.son) + Names(c.father);
    TierCounts(backups, {}, son, c.son, b);
    TierCounts(backups, Names(c.son), father, c.father, b);
    TierCounts(backups, all, grandfather, c.grandfather, b);
    PruneCounts(backups, Kept(c), b);
    if b in c.father { TierFrom(Names(c.son), backups, father, c.father, b); }
    if b in c.grandfather { TierFrom(all, backups, grandfather, c.grandfather, b); }
    if b in c.son { TierFrom({}, backups, son, c.son, b); }
    KeptMeansListed(backups, c.son, b, {}, son);
    KeptMeansListed(backups, c.father, b, Names(c.son), father);
    KeptMeansListed(backups, c.grandfather, b, all, grandfather);
    assert b in c.prune <==> b in Unparsed(backups) || b in Unkept(backups, Kept(c));
  }

  lemma KeptMeansListed(backups: seq<Backup>, tier: seq<Backup>, b: Backup, kept: set<string>, t: Tier)
    requires DistinctNames(backups) && b in backups && IsTier(kept, backups, t, tier)
    ensures b.name in Names(tier) <==> b in tier
  {
    if b.name in Names(tier) {
      var a :| a in tier && a.name == b.name;
      TierFrom(kept, backups, t, tier, a);
      SameNameSame(backups, a, b);
    }
  }

  // --- Picks over part of a list ---

  function Filter(list: seq<Backup>, keep: Backup -> bool): (r: seq<Backup>)
    ensures forall b :: b in r <==> b in list && keep(b)
  {
    if list == [] then []
    else
      var n := |list| - 1;
      assert list == list[..n] + [list[n]];
      Filter(list[..n], keep) + if keep(list[n]) then [list[n]] else []
  }

  /** Dropping others, in order, does not change which entry is the first most recent. */
  lemma {:induction false} MostRecentSurvives(list: seq<Backup>, keep: Backup -> bool)
    requires forall b :: b in list ==> b.stamp.Some?
    requires MostRecent(list).Some? && keep(MostRecent(list).value)
    ensures MostRecent(Filter(list, keep)) == MostRecent(list)
  {
    var n := |list| - 1;
    var before := list[..n];
    assert list == before + [list[n]];
    var kept := Filter(before, keep);
    if MostRecent(list) == MostRecent(before) && before != [] {
      MostRecentSurvives(before, keep);
      if keep(list[n]) { MostRecentPush(kept, list[n]); } else { assert kept + [] == kept; }
    } else {
      MostRecentPush(kept, list[n]);
    }
  }

  lemma MostRecentPush(list: seq<Backup>, b: Backup)
    requires (forall x :: x in list ==> x.stamp.Some?) && b.stamp.Some?
    ensures forall x :: x in list + [b] ==> x.stamp.Some?
    ensures MostRecent(list + [b])
            == if list == [] || MostRecent(list).value.stamp.value < b.stamp.value then Some(b) else MostRecent(list)
  {
    assert (list + [b])[..|list|] == list;
  }

  lemma {:induction false} CandidatesOfFiltered(backups: seq<Backup>, kept: set<string>, bucket: int -> int, key: int, keep: Backup -> bool)
    ensures Candidates(Filter(backups, keep), kept, bucket, key) == Filter(Candidates(backups, kept, bucket, key), keep)
  {
    if backups != [] {
      var n := |backups| - 1;
      var b := backups[n];
      CandidatesOfFiltered(backups[..n], kept, bucket, key, keep);
      FilteredStep(Filter(backups[..n], keep), Candidates(backups[..n], kept, bucket, key), kept, bucket, key, keep, b);
    }
  }

  /** One more entry, filtered and bucketed in either order. */
  lemma FilteredStep(filtered: seq<Backup>, candidates: seq<Backup>, kept: set<string>, bucket: int -> int, key: int,
                     keep: Backup -> bool, b: Backup)
    requires Candidates(filtered, kept, bucket, key) == Filter(candidates, keep)
    ensures Candidates(filtered + (if keep(b) then [b] else []), kept, bucket, key)
            == Filter(candidates + (if InBucket(b, kept, bucket, key) then [b] else []), keep)
  {
    assert filtered + [] == filtered && candidates + [] == candidates;
    CandidatesPush(filtered, kept, bucket, key, b);
    FilterPush(candidates, keep, b);
  }

  lemma CandidatesPush(backups: seq<Backup>, kept: set<string>, bucket: int -> int, key: int, b: Backup)
    ensures Candidates(backups + [b], kept, bucket, key)
            == Candidates(backups, kept, bucket, key) + if InBucket(b, kept, bucket, key) then [b] else []
  {
    assert (backups + [b])[..|backups|] == backups;
  }

  lemma FilterPush(list: seq<Backup>, keep: Backup -> bool, b: Backup)
    ensures Filter(list + [b], keep) == Filter(list, keep) + if keep(b) then [b] else []
  {
    assert (list + [b])[..|list|] == list;
  }

  lemma {:induction false} CandidatesKeptMore(backups: seq<Backup>, kept: set<string>, more: set<string>, bucket: int -> int, key: int,
                                             free: Backup -> bool)
    requires kept <= more && forall b :: free(b) <==> b.name !in more
    ensures Candidates(backups, more, bucket, key) == Filter(Candidates(backups, kept, bucket, key), free)
  {
    if backups != [] {
      var n := |backups| - 1;
      var b := backups[n];
      CandidatesKeptMore(backups[..n], kept, more, bucket, key, free);
      var list := Candidates(backups[..n], kept, bucket, key);
      assert list + [] == list;
      FilterPush(list, free, b);
    }
  }

  /** Keeping more elsewhere leaves a pick standing, unless it is what is now kept. */
  lemma PickStands(backups: seq<Backup>, kept: set<string>, more: set<string>, bucket: int -> int, key: int)
    requires kept <= more && Pick(backups, kept, bucket, key).Some? && Pick(backups, kept, bucket, key).value.name !in more
    ensures Pick(backups, more, bucket, key) == Pick(backups, kept, bucket, key)
  {
    var free := (b: Backup) => b.name !in more;
    CandidatesKeptMore(backups, kept, more, bucket, key, free);
    MostRecentSurvives(Candidates(backups, kept, bucket, key), free);
  }

  // --- Re-classifying the survivors ---

  function Survivors(backups: seq<Backup>, c: Classification): seq<Backup> {
    Filter(backups, (b: Backup) => b !in c.prune)
  }

  lemma PickOfFiltered(backups: seq<Backup>, kept: set<string>, bucket: int -> int, key: int, keep: Backup -> bool)
    requires Pick(backups, kept, bucket, key).Some? ==> keep(Pick(backups, kept, bucket, key).value)
    ensures Pick(Filter(backups, keep), kept, bucket, key) == Pick(backups, kept, bucket, key)
  {
    CandidatesOfFiltered(backups, kept, bucket, key, keep);
    var list := Candidates(backups, kept, bucket, key);
    if list != [] {
      MostRecentSurvives(list, keep);
    }
  }

  lemma SamePicksSameTier(a: seq<Backup>, b: seq<Backup>, kept: set<string>, t: Tier, tier: seq<Backup>)
    requires IsTier(kept, a, t, tier)
    requires forall key :: key in t.wanted ==> Pick(b, kept, t.bucket, key) == Pick(a, kept, t.bucket, key)
    ensures IsTier(kept, b, t, tier)
  {
  }

  lemma SameTier(backups: seq<Backup>, kept: set<string>, t: Tier, tier: seq<Backup>, keep: Backup -> bool)
    requires IsTier(kept, backups, t, tier) && forall b :: b in tier ==> keep(b)
    ensures IsTier(kept, Filter(backups, keep), t, tier)
  {
    forall key | key in t.wanted ensures Pick(Filter(backups, keep), kept, t.bucket, key) == Pick(backups, kept, t.bucket, key) {
      PickOfFiltered(backups, kept, t.bucket, key, keep);
    }
    SamePicksSameTier(backups, Filter(backups, keep), kept, t, tier);
  }

  lemma ListedNotPruned(backups: seq<Backup>, son: Tier, father: Tier, grandfather: Tier, c: Classification, b: Backup)
    requires DistinctNames(backups) && IsClassification(backups, son, father, grandfather, c)
    requires b in c.son || b in c.father || b in c.grandfather
    ensures b !in c.prune
  {
    if b in c.son { TierFrom({}, backups, son, c.son, b); }
    if b in c.father { TierFrom(Names(c.son), backups, father, c.father, b); }
    if b in c.grandfather { TierFrom(Names(c.son) + Names(c.father), backups, grandfather, c.grandfather, b); }
    ExactlyOneHome(backups, son, father, grandfather, c, b);
    assert b in c.prune ==> multiset(c.prune)[b] >= 1;
  }

  /** The survivors of a rotation, classified again at the same instant, keep their tiers and
      nothing is pruned. */
  lemma RotationSettles(backups: seq<Backup>, son: Tier, father: Tier, grandfather: Tier, c: Classification)
    requires DistinctNames(backups) && IsClassification(backups, son, father, grandfather, c)
    ensures IsClassification(Survivors(backups, c), son, father, grandfather, c.(prune := []))
  {
    var keep := (b: Backup) => b !in c.prune;
    forall b | b in c.son || b in c.father || b in c.grandfather ensures keep(b) {
      ListedNotPruned(backups, son, father, grandfather, c, b);
    }
    SameTier(backups, {}, son, c.son, keep);
    SameTier(backups, Names(c.son), father, c.father, keep);
    SameTier(backups, Names(c.son) + Names(c.father), grandfather, c.grandfather, keep);
    var rest := Survivors(backups, c);
    NothingIn(Unparsed(rest));
    NothingIn(Unkept(rest, Kept(c)));
  }

  lemma NothingIn(list: seq<Backup>)
    ensures list == [] || exists b :: b in list
  {
    if list != [] {
      var b := list[0];
      assert b in list;
    }
  }

  // --- Wanting more ---

  ghost predicate WantsMore(t: Tier, u: Tier) { u.bucket == t.bucket && t.wanted <= u.wanted }

  lemma TierKeeps(backups: seq<Backup>, kept: set<string>, more: set<string>, t: Tier, u: Tier, tier: seq<Backup>, wider: seq<Backup>)
    requires kept <= more && WantsMore(t, u)
    requires IsTier(kept, backups, t, tier) && IsTier(more, backups, u, wider)
    ensures Names(tier) <= more + Names(wider)
  {
    forall b | b in tier ensures b.name in more + Names(wider) {
      TierFrom(kept, backups, t, tier, b);
      if b.name !in more {
        PickStands(backups, kept, more, t.bucket, KeyOf(b, t.bucket));
      }
    }
  }

  /** Enlarging any tier's wanted buckets never prunes a backup that was kept, ties included. */
  lemma WantingMoreKeepsMore(backups: seq<Backup>, son: Tier, father: Tier, grandfather: Tier, c: Classification,
                             son2: Tier, father2: Tier, grandfather2: Tier, d: Classification)
    requires DistinctNames(backups)
    requires IsClassification(backups, son, father, grandfather, c)
    requires IsClassification(backups, son2, father2, grandfather2, d)
    requires WantsMore(son, son2) && WantsMore(father, father2) && WantsMore(grandfather, grandfather2)
    ensures Kept(c) <= Kept(d)
    ensures forall b :: b in backups && b.name in Kept(c) ==> b !in d.prune
  {
    TierKeeps(backups, {}, {}, son, son2, c.son, d.son);
    assert Names(c.son) <= Names(d.son);
    TierKeeps(backups, Names(c.son), Names(d.son), father, father2, c.father, d.father);
    TierKeeps(backups, Names(c.son) + Names(c.father), Names(d.son) + Names(d.father), grandfather, grandfather2, c.grandfather, d.grandfather);
    forall b | b in backups && b.name in Kept(c) ensures b !in d.prune {
      TierParsed(backups, {}, son, c.son, b);
      TierParsed(backups, Names(c.son), father, c.father, b);
      TierParsed(backups, Names(c.son) + Names(c.father), grandfather, c.grandfather, b);
    }
  }

  lemma TierParsed(backups: seq<Backup>, kept: set<string>, t: Tier, tier: seq<Backup>, b: Backup)
    requires DistinctNames(backups) && b in backups && IsTier(kept, backups, t, tier)
    ensures b.name in Names(tier) ==> b.stamp.Some?
  {
    KeptMeansListed(backups, tier, b, kept, t);
    if b in tier { TierFrom(kept, backups, t, tier, b); }
  }

  // --- Who is kept, by the list alone ---

  /** The bucket's winner by list order: no candidate is later, and none as late stands ahead of it. */
  predicate Leads(backups: seq<Backup>, kept: set<string>, bucket: int -> int, key: int, i: int) {
    && 0 <= i < |backups| && InBucket(backups[i], kept, bucket, key)
    && forall j :: 0 <= j < |backups| && InBucket(backups[j], kept, bucket, key) ==>
         backups[j].stamp.value < backups[i].stamp.value || (backups[j].stamp == backups[i].stamp && i <= j)
  }

  /** The pick, one backup more. */
  lemma PickGrows(backups: seq<Backup>, kept: set<string>, bucket: int -> int, key: int, b: Backup)
    ensures var was := Pick(backups, kept, bucket, key);
            Pick(backups + [b], kept, bucket, key)
            == if InBucket(b, kept, bucket, key) && (was.None? || was.value.stamp.value < b.stamp.value) then Some(b) else was
  {
    var list := Candidates(backups, kept, bucket, key);
    CandidatesPush(backups, kept, bucket, key, b);
    if InBucket(b, kept, bucket, key) {
      MostRecentPush(list, b);
    } else {
      assert list + [] == list;
    }
  }

  lemma LeadsShorter(backups: seq<Backup>, b: Backup, kept: set<string>, bucket: int -> int, key: int, i: int)
    requires 0 <= i < |backups|
    ensures Leads(backups + [b], kept, bucket, key, i)
            <==> Leads(backups, kept, bucket, key, i)
                 && (InBucket(b, kept, bucket, key) ==> b.stamp.value <= backups[i].stamp.value)
  {
    var longer := backups + [b];
    assert longer[|backups|] == b && forall j :: 0 <= j < |backups| ==> longer[j] == backups[j];
  }

  lemma LeadsNew(backups: seq<Backup>, b: Backup, kept: set<string>, bucket: int -> int, key: int)
    requires InBucket(b, kept, bucket, key)
    requires forall k :: 0 <= k < |backups| && InBucket(backups[k], kept, bucket, key) ==> backups[k].stamp.value < b.stamp.value
    ensures Leads(backups + [b], kept, bucket, key, |backups|)
  {
  }

  /** What the pick is, by index; -1 where the bucket is empty. */
  ghost predicate Picked(backups: seq<Backup>, kept: set<string>, bucket: int -> int, key: int, p: Option<Backup>, i: int) {
    if p.None? then i == -1 && forall k :: 0 <= k < |backups| ==> !InBucket(backups[k], kept, bucket, key)
    else Leads(backups, kept, bucket, key, i) && p == Some(backups[i])
  }

  lemma PickedGrows(backups: seq<Backup>, b: Backup, kept: set<string>, bucket: int -> int, key: int, p: Option<Backup>, i: int)
    requires Picked(backups, kept, bucket, key, p, i)
    ensures var taken := InBucket(b, kept, bucket, key) && (p.None? || p.value.stamp.value < b.stamp.value);
            Picked(backups + [b], kept, bucket, key, if taken then Some(b) else p, if taken then |backups| else i)
  {
    if InBucket(b, kept, bucket, key) && (p.None? || p.value.stamp.value < b.stamp.value) {
      LeadsNew(backups, b, kept, bucket, key);
    } else if p.Some? {
      LeadsShorter(backups, b, kept, bucket, key, i);
    }
  }

  lemma {:induction false} PickLeads(backups: seq<Backup>, kept: set<string>, bucket: int -> int, key: int) returns (i: int)
    ensures Picked(backups, kept, bucket, key, Pick(backups, kept, bucket, key), i)
  {
    i := -1;
    if backups != [] {
      var n := |backups| - 1;
      var before, b := backups[..n], backups[n];
      var was := Pick(before, kept, bucket, key);
      i := PickLeads(before, kept, bucket, key);
      PickGrows(before, kept, bucket, key, b);
      PickedGrows(before, b, kept, bucket, key, was, i);
      assert backups == before + [b];
      i := if InBucket(b, kept, bucket, key) && (was.None? || was.value.stamp.value < b.stamp.value) then n else i;
    }
  }

  /** A tier holds a backup exactly when its bucket is wanted, it was not kept before, and of the
      others of the bucket none is later and none as late stands ahead of it in the list. */
  lemma TierHolds(backups: seq<Backup>, kept: set<string>, t: Tier, tier: seq<Backup>, i: int)
    requires DistinctNames(backups) && IsTier(kept, backups, t, tier) && 0 <= i < |backups|
    ensures backups[i] in tier
            <==> backups[i].stamp.Some? && KeyOf(backups[i], t.bucket) in t.wanted
                 && Leads(backups, kept, t.bucket, KeyOf(backups[i], t.bucket), i)
  {
    var b := backups[i];
    assert forall x :: x in tier ==> x.stamp.Some? && Pick(backups, kept, t.bucket, KeyOf(x, t.bucket)) == Some(x);
    if b.stamp.Some? {
      var key := KeyOf(b, t.bucket);
      var k := PickLeads(backups, kept, t.bucket, key);
      assert Leads(backups, kept, t.bucket, key, i) ==> k == i;
      assert Pick(backups, kept, t.bucket, key) == Some(b) ==> k == i;
    }
  }
}
