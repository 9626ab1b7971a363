/** The in-memory app-log ring and the drop reporter (internal/api/applogs_buffer.go). */
module AppLogBuffer {
  import opened Wrappers

  // --- The drop reporter ---

  /** Accounts for entries that never reached the database. `reported` is history: the sum of
      the counts its notices carried. */
  class LogDropReporter {
    const writes: bool          // it has somewhere to write
    const interval: int
    var pending: nat
    var lastReport: Option<int> // None is the zero time, further back than any interval
    ghost var reported: nat

    ghost function Total(): nat
      reads this
    {
      reported + pending
    }

    constructor (writes: bool, interval: int)
      ensures this.writes == writes && this.interval == interval && Total() == 0 && lastReport.None?
    {
      this.writes, this.interval := writes, interval;
      pending, lastReport, reported := 0, None, 0;
    }

    /** Every drop is reported or pending, once; a suppressed one rides the next notice. */
    method Drop(n: int, now: int) returns (notice: Option<nat>)
      modifies this
      ensures Total() == old(Total()) + if writes && n > 0 then n else 0
      ensures notice.Some? ==> notice.value == old(pending) + n && reported == old(reported) + notice.value && pending == 0
      ensures notice.None? ==> reported == old(reported)
      ensures notice.Some? <==> writes && n > 0 && (old(lastReport).None? || now - old(lastReport).value >= interval)
      ensures lastReport == if notice.Some? then Some(now) else old(lastReport)
    {
      notice := None;
      if !writes || n <= 0 { return; }
      pending := pending + n;
      if lastReport.Some? && now - lastReport.value < interval { return; }
      lastReport := Some(now);
      notice := Some(pending);
      reported := reported + pending;
      pending := 0;
    }

    /** Says what the throttle still holds, and rearms it: the next drop reports at once. */
    method ReportPending() returns (notice: Option<nat>)
      modifies this
      ensures Total() == old(Total())
      ensures writes ==> pending == 0 && lastReport.None?
      ensures notice == if writes && old(pending) > 0 then Some(old(pending)) else None
    {
      notice := None;
      if !writes { return; }
      lastReport := None;
      if pending == 0 { return; }
      notice := Some(pending);
      reported := reported + pending;
      pending := 0;
    }
  }

  // --- The ring, as a bounded sequence ---

  /** An entry and its event time, None when the timestamp does not parse. */
  datatype LogEntry = LogEntry(text: string, stamp: Option<int>)

  const BLANK := LogEntry("", None)

  predicate Expired(e: LogEntry, cutoff: int) { e.stamp.Some? && e.stamp.value < cutoff }

  function Survivors(list: seq<LogEntry>, cutoff: int): (kept: seq<LogEntry>)
    ensures |kept| <= |list|
  {
    if list == [] then []
    else Survivors(list[..|list| - 1], cutoff) + if Expired(list[|list| - 1], cutoff) then [] else [list[|list| - 1]]
  }

  /** At most the last n. */
  function LastN(list: seq<LogEntry>, n: nat): seq<LogEntry> {
    if |list| <= n then list else list[|list| - n..]
  }

  /** i modulo n for the indices the ring computes, which go round at most once. */
  function Wrap(i: nat, n: nat): nat
    requires i < 2 * n
  {
    if i < n then i else i - n
  }

  /** Where the program takes a remainder, the index goes round once. */
  method Modulo(i: nat, n: nat) returns (k: nat)
    requires 0 < n && i < 2 * n
    ensures k == Wrap(i, n)
  {
    WrapIsModulo(i, n);
    k := i % n;
  }

  lemma WrapIsModulo(i: nat, n: nat)
    requires 0 < n && i < 2 * n
    ensures Wrap(i, n) == i % n
  {
    if i >= n {
      assert i == 1 * n + (i - n);
    }
  }

  /** The slots read oldest first: round from the head when full, from the front otherwise. */
  function Unrolled(slots: seq<LogEntry>, head: nat, count: nat): (list: seq<LogEntry>)
    requires head < |slots| && count <= |slots|
    ensures |list| == count
  {
    if count == |slots| then slots[head..] + slots[..head] else slots[..count]
  }

  lemma UnrolledAt(slots: seq<LogEntry>, head: nat, count: nat, i: nat)
    requires head < |slots| && i < count <= |slots|
    ensures Unrolled(slots, head, count)[i] == slots[Wrap((if count == |slots| then head else 0) + i, |slots|)]
  {
  }

  lemma UnrolledWrite(slots: seq<LogEntry>, head: nat, count: nat, e: LogEntry)
    requires head < |slots| && count <= |slots| && (count < |slots| ==> head == count)
    ensures var after := slots[head := e];
            var next, more := Wrap(head + 1, |slots|), if count < |slots| then count + 1 else count;
            && next < |slots| && (more < |slots| ==> next == more)
            && Unrolled(after, next, more) == LastN(Unrolled(slots, head, count) + [e], |slots|)
  {
    var n := |slots|;
    var after, was := slots[head := e], Unrolled(slots, head, count);
    if count == n {
      assert LastN(was + [e], n) == was[1..] + [e];
      if head + 1 < n {
        assert after[head + 1..] + after[..head + 1] == slots[head + 1..] + slots[..head] + [e];
      } else {
        assert after == slots[..head] + [e];
      }
    } else if count + 1 == n {
      assert after == slots[..count] + [e];
    } else {
      assert after[..count + 1] == slots[..count] + [e];
    }
  }

  class RingBuffer {
    const entries: array<LogEntry>
    var head: nat
    var count: nat

    ghost predicate Valid()
      reads this
    {
      && entries.Length > 0 && head < entries.Length && count <= entries.Length
      && (count < entries.Length ==> head == count)
    }

    /** The buffered entries, oldest first. */
    ghost function Contents(): seq<LogEntry>
      reads this, entries
      requires Valid()
    {
      Unrolled(entries[..], head, count)
    }

    constructor (capacity: nat)
      requires capacity > 0
      ensures Valid() && fresh(entries) && entries.Length == capacity && Contents() == []
    {
      entries := new LogEntry[capacity](_ => BLANK);
      head, count := 0, 0;
    }

    method WriteEntry(e: LogEntry)
      requires Valid()
      modifies this, entries
      ensures Valid() && Contents() == LastN(old(Contents()) + [e], entries.Length)
    {
      UnrolledWrite(entries[..], head, count, e);
      entries[head] := e;
      assert entries[..] == old(entries[..])[old(head) := e];
      head := Modulo(head + 1, entries.Length);
      if count < entries.Length { count := count + 1; }
    }

    method GetEntries() returns (result: seq<LogEntry>)
      requires Valid()
      ensures result == Contents()
    {
      result := [];
      if count == 0 { return; }
      var start := 0;
      if count == entries.Length { start := head; }
      for i := 0 to count
        invariant result == Contents()[..i]
      {
        UnrolledAt(entries[..], head, count, i);
        var at := Modulo(start + i, entries.Length);
        result := result + [entries[at]];
      }
    }

    method Clear() returns (n: nat)
      requires Valid()
      modifies `head, `count
      ensures Valid() && Contents() == [] && n == |old(Contents())|
    {
      n := count;
      head, count := 0, 0;
    }

    method ClearOlderThan(cutoff: int) returns (removed: nat)
      requires Valid()
      modifies this, entries
      ensures Valid() && Contents() == Survivors(old(Contents()), cutoff)
      ensures removed == |old(Contents())| - |Contents()|
    {
      removed := 0;
      if count == 0 { return; }
      var kept: seq<LogEntry>;
      kept, removed := Sift(cutoff);
      Refill(kept);
    }

    /** Walks oldest to newest, keeping what is not expired. */
    method Sift(cutoff: int) returns (kept: seq<LogEntry>, removed: nat)
      requires Valid()
      ensures kept == Survivors(Contents(), cutoff) && removed == count - |kept|
    {
      var start := 0;
      if count == entries.Length { start := head; }
      kept, removed := [], 0;
      ghost var was := Contents();
      for i := 0 to count
        invariant kept == Survivors(was[..i], cutoff) && removed == i - |kept|
      {
        assert was[..i + 1][..i] == was[..i];
        UnrolledAt(entries[..], head, count, i);
        var at := Modulo(start + i, entries.Length);
        var e := entries[at];
        if Expired(e, cutoff) {
          removed := removed + 1;
          assert kept + [] == kept;
        } else {
          kept := kept + [e];
        }
      }
      assert was[..count] == was;
    }

    /** Rebuilds the slots from the survivors, oldest at the front. */
    method Refill(kept: seq<LogEntry>)
      requires Valid() && |kept| <= entries.Length
      modifies this, entries
      ensures Valid() && Contents() == kept
    {
      forall i | 0 <= i < entries.Length { entries[i] := BLANK; }
      forall i | 0 <= i < |kept| { entries[i] := kept[i]; }
      count := |kept|;
      head := Modulo(count, entries.Length);
      assert entries[..count] == kept;
      if count == entries.Length { assert entries[..] == kept; }
    }
  }

  // --- What the ring shows after any history ---

  datatype Op = Write(e: LogEntry) | Clear | ClearOlder(cutoff: int)

  /** The ring after the operations. */
  function Shown(ops: seq<Op>, capacity: nat): seq<LogEntry> {
    if ops == [] then []
    else
      var s := Shown(ops[..|ops| - 1], capacity);
      match ops[|ops| - 1]
      case Write(e) => LastN(s + [e], capacity)
      case Clear => []
      case ClearOlder(cutoff) => Survivors(s, cutoff)
  }

  /** Everything written and not cleared since, however much. */
  function Uncleared(ops: seq<Op>): seq<LogEntry> {
    if ops == [] then []
    else
      var s := Uncleared(ops[..|ops| - 1]);
      match ops[|ops| - 1]
      case Write(e) => s + [e]
      case Clear => []
      case ClearOlder(cutoff) => Survivors(s, cutoff)
  }

  /** What the ring has let go of. */
  function Evicted(list: seq<LogEntry>, n: nat): seq<LogEntry> {
    if |list| <= n then [] else list[..|list| - n]
  }

  lemma {:induction false} SurvivorsAppend(a: seq<LogEntry>, b: seq<LogEntry>, cutoff: int)
    ensures Survivors(a + b, cutoff) == Survivors(a, cutoff) + Survivors(b, cutoff)
  {
    if b == [] {
      assert a + b == a;
    } else {
      assert (a + b)[..|a + b| - 1] == a + b[..|b| - 1];
      SurvivorsAppend(a, b[..|b| - 1], cutoff);
    }
  }

  /** The ring is still full after a ranged clear, or nothing that had fallen out outlives it. */
  predicate ExactClear(history: seq<LogEntry>, n: nat, cutoff: int) {
    |Survivors(LastN(history, n), cutoff)| == n || Survivors(Evicted(history, n), cutoff) == []
  }

  /** A ranged clear of the ring is the last entries of the cleared history exactly when the ring
      is still full, or nothing that had already fallen out would have survived the cutoff. */
  lemma RangedClearExact(history: seq<LogEntry>, n: nat, cutoff: int)
    requires n > 0
    ensures Survivors(LastN(history, n), cutoff) == LastN(Survivors(history, cutoff), n)
            <==> ExactClear(history, n, cutoff)
  {
    var gone, held := Evicted(history, n), LastN(history, n);
    assert history == gone + held;
    SurvivorsAppend(gone, held, cutoff);
    var kept := Survivors(held, cutoff);
    if Survivors(gone, cutoff) == [] {
      assert [] + kept == kept;
    }
  }

  lemma LastOfMore(list: seq<LogEntry>, e: LogEntry, n: nat)
    requires n > 0
    ensures LastN(LastN(list, n) + [e], n) == LastN(list + [e], n)
  {
  }

  /** The ring shows, in order, the last of what was written and not cleared, up to its capacity. */
  predicate ShowsLast(ops: seq<Op>, n: nat) { Shown(ops, n) == LastN(Uncleared(ops), n) }

  /** Every ranged clear is exact on the history it meets. */
  predicate ClearsExact(ops: seq<Op>, n: nat) {
    forall k :: 0 <= k < |ops| && ops[k].ClearOlder? ==> ExactClear(Uncleared(ops[..k]), n, ops[k].cutoff)
  }

  /** One operation more. */
  lemma ShowsLastStep(ops: seq<Op>, op: Op, n: nat)
    requires n > 0 && ShowsLast(ops, n)
    ensures ShowsLast(ops + [op], n) <==> (op.ClearOlder? ==> ExactClear(Uncleared(ops), n, op.cutoff))
  {
    assert (ops + [op])[..|ops|] == ops;
    match op
    case Write(e) => LastOfMore(Uncleared(ops), e, n);
    case Clear =>
    case ClearOlder(cutoff) => RangedClearExact(Uncleared(ops), n, cutoff);
  }

  lemma ClearsExactStep(ops: seq<Op>, op: Op, n: nat)
    ensures ClearsExact(ops + [op], n)
            <==> ClearsExact(ops, n) && (op.ClearOlder? ==> ExactClear(Uncleared(ops), n, op.cutoff))
  {
    var more := ops + [op];
    assert more[..|ops|] == ops && more[|ops|] == op;
    forall k | 0 <= k < |ops| ensures more[..k] == ops[..k] && more[k] == ops[k] {
    }
  }

  /** At every moment of the history. */
  predicate AlwaysShowsLast(ops: seq<Op>, n: nat) {
    forall k :: 0 <= k <= |ops| ==> ShowsLast(ops[..k], n)
  }

  lemma AlwaysShowsLastStep(ops: seq<Op>, op: Op, n: nat)
    ensures AlwaysShowsLast(ops + [op], n) <==> AlwaysShowsLast(ops, n) && ShowsLast(ops + [op], n)
  {
    var more := ops + [op];
    assert more[..|more|] == more;
    forall k | 0 <= k <= |ops| ensures ShowsLast(more[..k], n) == ShowsLast(ops[..k], n) {
      assert more[..k] == ops[..k];
    }
    assert AlwaysShowsLast(more, n) ==> ShowsLast(more[..|more|], n);
    assert forall k :: 0 <= k <= |more| ==> k <= |ops| || more[..k] == more;
  }

  /** The ring shows the last of what was written and not cleared at every moment of a history
      exactly when every ranged clear in it is exact. */
  lemma {:induction false} ShowsLastIff(ops: seq<Op>, n: nat)
    requires n > 0
    ensures AlwaysShowsLast(ops, n) <==> ClearsExact(ops, n)
  {
    if ops != [] {
      var before, op := ops[..|ops| - 1], ops[|ops| - 1];
      assert ops == before + [op];
      ShowsLastIff(before, n);
      AlwaysShowsLastStep(before, op, n);
      ClearsExactStep(before, op, n);
      if AlwaysShowsLast(before, n) {
        assert before[..|before|] == before;
        ShowsLastStep(before, op, n);
      }
    }
  }

  /** Every entry dated, and none earlier than one before it. */
  predicate InTime(list: seq<LogEntry>) {
    && (forall i :: 0 <= i < |list| ==> list[i].stamp.Some?)
    && forall i, j :: 0 <= i < j < |list| ==> list[i].stamp.value <= list[j].stamp.value
  }

  lemma {:induction false} SurvivorsAll(list: seq<LogEntry>, cutoff: int)
    requires forall i :: 0 <= i < |list| ==> !Expired(list[i], cutoff)
    ensures Survivors(list, cutoff) == list
  {
    if list != [] {
      SurvivorsAll(list[..|list| - 1], cutoff);
    }
  }

  lemma {:induction false} SurvivorsAre(list: seq<LogEntry>, cutoff: int)
    ensures forall e :: e in Survivors(list, cutoff) ==> e in list && !Expired(e, cutoff)
  {
    if list != [] {
      var n := |list| - 1;
      SurvivorsAre(list[..n], cutoff);
      assert list == list[..n] + [list[n]];
    }
  }

  lemma InTimeClears(history: seq<LogEntry>, n: nat, cutoff: int)
    requires InTime(history)
    ensures ExactClear(history, n, cutoff)
  {
    var gone, held := Evicted(history, n), LastN(history, n);
    SurvivorsAre(gone, cutoff);
    if Survivors(gone, cutoff) != [] {
      var e := Survivors(gone, cutoff)[0];
      assert e in gone;
      SurvivorsAll(held, cutoff);
    }
  }

  /** After any interleaving of writes and clears of entries in time order, every ranged clear was
      exact, and so the ring shows the last of what was written and not cleared. */
  lemma ShowsTheLastUncleared(ops: seq<Op>, n: nat)
    requires n > 0 && forall k :: 0 <= k <= |ops| ==> InTime(Uncleared(ops[..k]))
    ensures ClearsExact(ops, n) && ShowsLast(ops, n)
  {
    forall k | 0 <= k < |ops| && ops[k].ClearOlder?
      ensures ExactClear(Uncleared(ops[..k]), n, ops[k].cutoff)
    {
      InTimeClears(Uncleared(ops[..k]), n, ops[k].cutoff);
    }
    ShowsLastIff(ops, n);
    assert ops[..|ops|] == ops;
  }

  lemma LateThenEarly(late: LogEntry, early: LogEntry)
    ensures var ops := [Write(late), Write(early)]; ShowsLast(ops, 1) && Uncleared(ops) == [late, early]
  {
    var ops := [Write(late), Write(early)];
    assert ops[..1] == [Write(late)] && [Write(late)][..0] == [];
    assert Uncleared([Write(late)]) == [late] && Uncleared(ops) == [late, early];
    assert Shown(ops, 1) == [early];
  }

  lemma LateOutlives(late: LogEntry, early: LogEntry)
    requires late.stamp == Some(10) && early.stamp == Some(5)
    ensures !ExactClear([late, early], 1, 7)
  {
    assert [late, early][1..] == [early] && [late, early][..1] == [late];
    assert [late][..0] == [] && [early][..0] == [];
    assert Survivors([late], 7) == [late] && Survivors([early], 7) == [];
  }

  /** Out of time order it need not: an entry that fell out outlives the cutoff the one kept
      does not, and the ring shows nothing. */
  lemma OutOfTimeIsLost()
    ensures var ops := [Write(LogEntry("late", Some(10))), Write(LogEntry("early", Some(5))), ClearOlder(7)];
            !ShowsLast(ops, 1)
  {
    var late, early := LogEntry("late", Some(10)), LogEntry("early", Some(5));
    LateThenEarly(late, early);
    ShowsLastStep([Write(late), Write(early)], ClearOlder(7), 1);
    LateOutlives(late, early);
    assert [Write(late), Write(early)] + [ClearOlder(7)] == [Write(late), Write(early), ClearOlder(7)];
  }

  // --- What a ranged clear keeps ---

  /** The entries not dated before the cutoff, one for each and in their order. */
  ghost predicate KeptAt(list: seq<LogEntry>, cutoff: int, kept: seq<LogEntry>, at: seq<int>) {
    && |at| == |kept|
    && (forall n :: 0 <= n < |at| ==> 0 <= at[n] < |list| && kept[n] == list[at[n]] && Stays(list[at[n]], cutoff))
    && (forall m, n :: 0 <= m < n < |at| ==> at[m] < at[n])
    && (forall k :: 0 <= k < |list| && Stays(list[k], cutoff) ==> k in at)
  }

  /** No date, or none before the cutoff. */
  predicate Stays(e: LogEntry, cutoff: int) { e.stamp.None? || e.stamp.value >= cutoff }

  lemma OneMoreKept(list: seq<LogEntry>, e: LogEntry, cutoff: int, kept: seq<LogEntry>, at: seq<int>)
    requires KeptAt(list, cutoff, kept, at)
    ensures if Stays(e, cutoff) then KeptAt(list + [e], cutoff, kept + [e], at + [|list|]) else KeptAt(list + [e], cutoff, kept, at)
  {
    var longer, more := list + [e], at + [|list|];
    assert more[|at|] == |list|;
    forall k | 0 <= k < |longer| && Stays(longer[k], cutoff) ensures k in more && (k < |list| ==> k in at) {
      if k < |list| {
        assert Stays(list[k], cutoff);
      }
    }
  }

  lemma OneMoreSurvivor(list: seq<LogEntry>, e: LogEntry, cutoff: int)
    ensures Survivors(list + [e], cutoff) == if Stays(e, cutoff) then Survivors(list, cutoff) + [e] else Survivors(list, cutoff)
  {
    assert (list + [e])[..|list|] == list;
    assert Survivors(list, cutoff) + [] == Survivors(list, cutoff);
  }

  lemma {:induction false} SurvivorsExactly(list: seq<LogEntry>, cutoff: int) returns (at: seq<int>)
    ensures KeptAt(list, cutoff, Survivors(list, cutoff), at)
  {
    if list == [] {
      at := [];
    } else {
      var n := |list| - 1;
      var before := SurvivorsExactly(list[..n], cutoff);
      assert list == list[..n] + [list[n]];
      OneMoreSurvivor(list[..n], list[n], cutoff);
      OneMoreKept(list[..n], list[n], cutoff, Survivors(list[..n], cutoff), before);
      at := if Stays(list[n], cutoff) then before + [n] else before;
    }
  }
}
