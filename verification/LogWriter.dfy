/** The asynchronous app-log writer and the purge that waits on it (internal/api/applogs_buffer.go,
    and ClearAppLogs in applogs.go) as a state machine over every interleaving of senders,
    barriers, flushes, ticks, stops and purges. An INSERT is one step that lands all its rows
    or none. */
module LogWriter {
  import opened Wrappers

  const QUEUE_SIZE := 5000   // dbLogChannelSize

  const BATCH_SIZE := 50     // dbLogBatchSize

  /** What travels the queue: an entry, or a flush barrier. */
  datatype Msg = Entry(e: nat) | Barrier(b: nat)

  /** The run goroutine: in its select, about to write the batch (for a barrier or not), about to
      answer a barrier, draining the tail, writing out inside the drain, counting what is left. */
  datatype Run = Selecting | Flushing(barrier: Option<nat>) | Answering(b: nat)
               | Draining | WritingOut(last: bool) | Stranding | Finished

  /** One write call: parked in its send under the read lock, refused, or returned. */
  datatype Sender = Parked | Refused | Returned

  /** One flushBarrier call, then its purge. */
  datatype Waiter = Sending | Waiting | Failed | Flushed | Purged

  /** One stop call: waiting for the write lock, for the run goroutine, or returned. */
  datatype Stopper = Locking | Joining | Stopped

  /** The writer and the table: the queue, the run goroutine's lists, the two flags, and, as
      history, every entry ever inserted or counted and the barriers answered. */
  datatype Core = Core(
    queue: seq<Msg>, batch: seq<nat>, run: Run, closed: bool, lifeOver: bool,
    refused: seq<nat>, stranded: seq<nat>,           // the drain's running total
    rows: set<nat>,                                  // the app_logs table
    inserted: set<nat>, dropped: set<nat>, counted: nat, answered: set<nat>)

  /** The writer and its callers; `ahead` is what was handed over before each barrier. */
  datatype State = State(core: Core, senders: map<nat, Sender>, waiters: map<nat, Waiter>, stoppers: map<nat, Stopper>,
                         ahead: map<nat, set<nat>>)

  const INITIAL := State(Core([], [], Selecting, false, false, [], [], {}, {}, {}, 0, {}), map[], map[], map[], map[])

  datatype Step =
    | WriteArrives(e: nat) | WriteQueues(e: nat) | WriteGivesUp(e: nat) | WriteCounts(e: nat)
    | BarrierArrives(b: nat) | BarrierQueues(b: nat) | BarrierGivesUp(b: nat) | BarrierReturns(b: nat) | BarrierTimesOut(b: nat)
    | Purges(b: nat, ok: bool)
    | Receives | Ticks | Flushes(ok: bool) | Answers | SeesStopping
    | DrainTakes | DrainEnds | WritesOut(ok: bool) | StrandTakes | StrandEnds
    | StopArrives(p: nat) | StopLocks(p: nat) | StopReturns(p: nat) | DeadlineFires

  // --- Steps; None where one cannot happen ---

  /** TryRLock fails while a stop holds or awaits the write lock. */
  ghost predicate LockWanted(s: State) { exists p :: p in s.stoppers && s.stoppers[p] == Locking }

  ghost predicate LockRead(s: State) {
    || (exists e :: e in s.senders && s.senders[e] == Parked)
    || (exists b :: b in s.waiters && s.waiters[b] == Sending)
  }

  function QueuedEntries(queue: seq<Msg>): seq<nat> {
    if queue == [] then []
    else QueuedEntries(queue[..|queue| - 1]) + if queue[|queue| - 1].Entry? then [queue[|queue| - 1].e] else []
  }

  /** Everything handed over and not yet inserted or counted, oldest first. */
  function Held(c: Core): seq<nat> {
    c.refused + c.batch + c.stranded + QueuedEntries(c.queue)
  }

  function Elements(list: seq<nat>): set<nat> { set x | x in list }

  ghost function SenderStep(s: State, step: Step): Option<State> {
    match step
    case WriteArrives(e) =>
      if e in s.senders then None
      else Some(s.(senders := s.senders[e := if LockWanted(s) || s.core.closed then Refused else Parked]))
    case WriteQueues(e) =>
      if e !in s.senders || s.senders[e] != Parked || |s.core.queue| >= QUEUE_SIZE then None
      else Some(s.(core := s.core.(queue := s.core.queue + [Entry(e)]), senders := s.senders[e := Returned]))
    case WriteGivesUp(e) =>
      if e !in s.senders || s.senders[e] != Parked then None else Some(s.(senders := s.senders[e := Refused]))
    case WriteCounts(e) =>
      if e !in s.senders || s.senders[e] != Refused then None
      else Some(s.(senders := s.senders[e := Returned], core := Counted(s.core, [e])))
    case _ => None
  }

  ghost function BarrierStep(s: State, step: Step): Option<State> {
    match step
    case BarrierArrives(b) =>
      if b in s.waiters then None
      else Some(s.(waiters := s.waiters[b := if LockWanted(s) || s.core.closed then Failed else Sending]))
    case BarrierQueues(b) =>
      if b !in s.waiters || s.waiters[b] != Sending || |s.core.queue| >= QUEUE_SIZE then None
      else Some(s.(core := s.core.(queue := s.core.queue + [Barrier(b)]), waiters := s.waiters[b := Waiting],
                   ahead := s.ahead[b := s.core.inserted + s.core.dropped + Elements(Held(s.core))]))
    case BarrierGivesUp(b) =>
      if b !in s.waiters || s.waiters[b] != Sending then None else Some(s.(waiters := s.waiters[b := Failed]))
    case BarrierReturns(b) =>
      if b !in s.waiters || s.waiters[b] != Waiting || b !in s.core.answered then None
      else Some(s.(waiters := s.waiters[b := Flushed]))
    case BarrierTimesOut(b) =>
      if b !in s.waiters || s.waiters[b] != Waiting then None else Some(s.(waiters := s.waiters[b := Failed]))
    case Purges(b, ok) =>
      // DELETE FROM app_logs, once the barrier has returned nil.
      if b !in s.waiters || s.waiters[b] != Flushed then None
      else if !ok then Some(s.(waiters := s.waiters[b := Failed]))
      else Some(s.(waiters := s.waiters[b := Purged], core := s.core.(rows := {})))
    case _ => None
  }

  function Landed(c: Core): Core {
    c.(rows := c.rows + Elements(c.batch), inserted := c.inserted + Elements(c.batch), batch := [])
  }

  function Counted(c: Core, list: seq<nat>): Core {
    c.(dropped := c.dropped + Elements(list), counted := c.counted + |list|)
  }

  function RunStep(c: Core, step: Step): Option<Core> {
    match step
    case Receives =>
      if c.run != Selecting || c.queue == [] then None
      else
        var rest := c.(queue := c.queue[1..]);
        (match c.queue[0]
         case Barrier(b) => Some(rest.(run := if c.batch == [] then Answering(b) else Flushing(Some(b))))
         case Entry(e) =>
           Some(rest.(batch := c.batch + [e], run := if |c.batch| + 1 >= BATCH_SIZE then Flushing(None) else Selecting)))
    case Ticks => if c.run != Selecting then None else Some(if c.batch == [] then c else c.(run := Flushing(None)))
    case Flushes(ok) =>
      if !c.run.Flushing? then None
      else
        var after := if c.run.barrier.Some? then Answering(c.run.barrier.value) else Selecting;
        Some((if ok then Landed(c) else Counted(c, c.batch).(batch := [])).(run := after))
    case Answers => if !c.run.Answering? then None else Some(c.(answered := c.answered + {c.run.b}, run := Selecting))
    case SeesStopping => if c.run != Selecting || !c.closed then None else Some(c.(run := Draining))
    case _ => None
  }

  function DrainStep(c: Core, step: Step): Option<Core> {
    match step
    case DrainTakes =>
      if c.run != Draining || c.lifeOver || c.queue == [] then None
      else
        var rest := c.(queue := c.queue[1..]);
        (match c.queue[0]
         case Barrier(_) => Some(rest)
         case Entry(e) =>
           Some(rest.(batch := c.batch + [e], run := if |c.batch| + 1 >= BATCH_SIZE then WritingOut(false) else Draining)))
    case DrainEnds => if c.run != Draining || !(c.lifeOver || c.queue == []) then None else Some(c.(run := WritingOut(true)))
    case WritesOut(ok) =>
      if !c.run.WritingOut? then None
      else
        var after := if c.run.last then Stranding else Draining;
        Some((if c.lifeOver || c.batch == [] then c
              else if ok then Landed(c)
              else c.(refused := c.refused + c.batch, batch := [])).(run := after))
    case StrandTakes =>
      if c.run != Stranding || c.queue == [] then None
      else
        var rest := c.(queue := c.queue[1..]);
        Some(if c.queue[0].Entry? then rest.(stranded := c.stranded + [c.queue[0].e]) else rest)
    case StrandEnds =>
      // One notice for the whole tail.
      if c.run != Stranding || c.queue != [] then None
      else Some(Counted(c, c.refused + c.batch + c.stranded).(refused := [], batch := [], stranded := [], run := Finished))
    case _ => None
  }

  ghost function StopStep(s: State, step: Step): Option<State> {
    match step
    case StopArrives(p) => if p in s.stoppers then None else Some(s.(stoppers := s.stoppers[p := Locking]))
    case StopLocks(p) =>
      if p !in s.stoppers || s.stoppers[p] != Locking || LockRead(s) then None
      else Some(s.(stoppers := s.stoppers[p := Joining], core := s.core.(closed := true)))
    case StopReturns(p) =>
      if p !in s.stoppers || s.stoppers[p] != Joining || s.core.run != Finished then None
      else Some(s.(stoppers := s.stoppers[p := Stopped], core := s.core.(lifeOver := true)))
    case DeadlineFires => if s.stoppers == map[] then None else Some(s.(core := s.core.(lifeOver := true)))
    case _ => None
  }

  predicate ByWriter(step: Step) { step.WriteArrives? || step.WriteQueues? || step.WriteGivesUp? || step.WriteCounts? }

  predicate ByRun(step: Step) { step.Receives? || step.Ticks? || step.Flushes? || step.Answers? || step.SeesStopping? }

  predicate ByDrain(step: Step) {
    step.DrainTakes? || step.DrainEnds? || step.WritesOut? || step.StrandTakes? || step.StrandEnds?
  }

  predicate ByStop(step: Step) { step.StopArrives? || step.StopLocks? || step.StopReturns? || step.DeadlineFires? }

  ghost function Next(s: State, step: Step): Option<State> {
    if ByWriter(step) then SenderStep(s, step)
    else if ByRun(step) then (match RunStep(s.core, step) case None => None case Some(c) => Some(s.(core := c)))
    else if ByDrain(step) then (match DrainStep(s.core, step) case None => None case Some(c) => Some(s.(core := c)))
    else if ByStop(step) then StopStep(s, step)
    else BarrierStep(s, step)
  }

  ghost function After(steps: seq<Step>): Option<State> {
    if steps == [] then Some(INITIAL)
    else
      match After(steps[..|steps| - 1])
      case None => None
      case Some(s) => Next(s, steps[|steps| - 1])
  }

  // --- Conservation inside the writer ---

  predicate Distinct(list: seq<nat>) {
    forall i, j :: 0 <= i < j < |list| ==> list[i] != list[j]
  }

  /** An entry is in one place only: inserted, counted dropped, or once in what is held. */
  ghost predicate Conserved(c: Core) {
    && Distinct(Held(c))
    && (forall e :: e in c.inserted ==> e !in c.dropped && e !in Held(c))
    && (forall e :: e in c.dropped ==> e !in Held(c))
    && c.counted == |c.dropped|
    && c.rows <= c.inserted
  }

  ghost predicate Somewhere(c: Core, e: nat) { e in c.inserted || e in c.dropped || e in Held(c) }

  /** Nothing appears and nothing vanishes. */
  ghost predicate SameEntries(c: Core, d: Core) { forall e :: Somewhere(c, e) <==> Somewhere(d, e) }

  predicate InDrain(run: Run) { run.Draining? || run.WritingOut? || run.Stranding? }

  /** While the writer runs, the drain's lists are empty; once it has finished, every list is. */
  predicate TotalsBelong(c: Core) {
    && (!InDrain(c.run) ==> c.refused == [])
    && (!c.run.Stranding? ==> c.stranded == [])
    && (c.run.Finished? ==> c.batch == [] && c.queue == [])
    && (InDrain(c.run) || c.run.Finished? ==> c.closed)
    && (c.run.Answering? ==> c.batch == [])
  }

  lemma {:induction false} QueuedAppend(a: seq<Msg>, b: seq<Msg>)
    ensures QueuedEntries(a + b) == QueuedEntries(a) + QueuedEntries(b)
  {
    if b == [] {
      assert a + b == a;
    } else {
      assert (a + b)[..|a + b| - 1] == a + b[..|b| - 1];
      QueuedAppend(a, b[..|b| - 1]);
    }
  }

  lemma QueuedBack(queue: seq<Msg>, m: Msg)
    ensures QueuedEntries(queue + [m]) == QueuedEntries(queue) + (if m.Entry? then [m.e] else [])
  {
    assert (queue + [m])[..|queue|] == queue;
  }

  lemma QueuedFront(queue: seq<Msg>)
    requires queue != []
    ensures QueuedEntries(queue) == (if queue[0].Entry? then [queue[0].e] else []) + QueuedEntries(queue[1..])
  {
    QueuedAppend([queue[0]], queue[1..]);
    assert queue == [queue[0]] + queue[1..];
    assert [queue[0]][..0] == [];
  }

  lemma {:induction false} DistinctCount(list: seq<nat>)
    requires Distinct(list)
    ensures |Elements(list)| == |list|
  {
    if list != [] {
      var n := |list| - 1;
      DistinctCount(list[..n]);
      assert Elements(list) == Elements(list[..n]) + {list[n]};
    }
  }

  /** Moving entries between the lists, in order, changes nothing held. */
  lemma SameHeld(c: Core, d: Core)
    requires Conserved(c) && Held(d) == Held(c)
    requires d.inserted == c.inserted && d.dropped == c.dropped && d.counted == c.counted && d.rows <= c.rows
    ensures Conserved(d) && SameEntries(c, d)
  {
  }

  /** A stretch of what is held leaves, to the table or to the count. */
  lemma Leaves(c: Core, d: Core, before: seq<nat>, gone: seq<nat>, after: seq<nat>, landed: bool)
    requires Conserved(c) && Held(c) == before + gone + after && Held(d) == before + after
    requires d.inserted == (if landed then c.inserted + Elements(gone) else c.inserted)
    requires d.dropped == (if landed then c.dropped else c.dropped + Elements(gone))
    requires d.counted == (if landed then c.counted else c.counted + |gone|)
    requires d.rows == (if landed then c.rows + Elements(gone) else c.rows)
    ensures Conserved(d) && SameEntries(c, d)
  {
    DistinctPart(before, gone, after);
    DistinctCount(gone);
    assert forall e :: e in Held(c) <==> e in Held(d) || e in gone;
    if !landed {
      assert c.dropped !! Elements(gone);
    }
  }

  lemma DistinctPart(before: seq<nat>, gone: seq<nat>, after: seq<nat>)
    requires Distinct(before + gone + after)
    ensures Distinct(before + after) && Distinct(gone)
    ensures forall e :: e in gone ==> e !in before + after
  {
    var all := before + gone + after;
    forall i | 0 <= i < |gone| ensures gone[i] == all[|before| + i] {}
    forall i | 0 <= i < |before + after|
      ensures (before + after)[i] == all[if i < |before| then i else i + |gone|] {}
  }

  lemma HeldRunning(c: Core)
    requires c.refused == [] && c.stranded == []
    ensures Held(c) == c.batch + QueuedEntries(c.queue)
  {
  }

  lemma HeldDraining(c: Core)
    requires c.stranded == []
    ensures Held(c) == c.refused + c.batch + QueuedEntries(c.queue)
  {
  }

  /** Taking the queue's front into the list just before the queue. */
  lemma TakeConserves(c: Core, d: Core, list: seq<nat>)
    requires Conserved(c) && c.queue != [] && d.queue == c.queue[1..]
    requires Held(c) == list + QueuedEntries(c.queue)
    requires Held(d) == list + (if c.queue[0].Entry? then [c.queue[0].e] else []) + QueuedEntries(d.queue)
    requires d.inserted == c.inserted && d.dropped == c.dropped && d.counted == c.counted && d.rows == c.rows
    ensures Conserved(d) && SameEntries(c, d)
  {
    QueuedFront(c.queue);
    assert Held(d) == Held(c);
    SameHeld(c, d);
  }

  /** The whole batch leaves what is held. */
  lemma BatchLeaves(c: Core, d: Core, landed: bool)
    requires Conserved(c) && c.refused == [] && c.stranded == []
    requires d.refused == [] && d.stranded == [] && d.batch == [] && d.queue == c.queue
    requires d.inserted == (if landed then c.inserted + Elements(c.batch) else c.inserted)
    requires d.dropped == (if landed then c.dropped else c.dropped + Elements(c.batch))
    requires d.counted == (if landed then c.counted else c.counted + |c.batch|)
    requires d.rows == (if landed then c.rows + Elements(c.batch) else c.rows)
    ensures Conserved(d) && SameEntries(c, d)
  {
    var queued := QueuedEntries(c.queue);
    HeldRunning(c);
    HeldRunning(d);
    assert c.batch + queued == [] + c.batch + queued && [] + queued == queued;
    Leaves(c, d, [], c.batch, queued, landed);
  }

  lemma FlushConserves(c: Core, ok: bool)
    requires Conserved(c) && TotalsBelong(c) && c.run.Flushing?
    ensures var d := RunStep(c, Flushes(ok)).value; Conserved(d) && SameEntries(c, d)
  {
    BatchLeaves(c, RunStep(c, Flushes(ok)).value, ok);
  }

  lemma ReceiveConserves(c: Core)
    requires Conserved(c) && TotalsBelong(c) && RunStep(c, Receives).Some?
    ensures var d := RunStep(c, Receives).value; Conserved(d) && SameEntries(c, d)
  {
    var d := RunStep(c, Receives).value;
    HeldRunning(c);
    HeldRunning(d);
    assert c.batch + [] == c.batch;
    TakeConserves(c, d, c.batch);
  }

  lemma RunConserves(c: Core, step: Step)
    requires Conserved(c) && TotalsBelong(c) && RunStep(c, step).Some?
    ensures var d := RunStep(c, step).value; Conserved(d) && SameEntries(c, d)
  {
    if step.Receives? { ReceiveConserves(c); }
    else if step.Flushes? { FlushConserves(c, step.ok); }
    else { SameHeld(c, RunStep(c, step).value); }
  }

  lemma WriteOutConserves(c: Core, ok: bool)
    requires Conserved(c) && TotalsBelong(c) && c.run.WritingOut?
    ensures var d := DrainStep(c, WritesOut(ok)).value; Conserved(d) && SameEntries(c, d)
  {
    var d := DrainStep(c, WritesOut(ok)).value;
    var queued := QueuedEntries(c.queue);
    HeldDraining(c);
    HeldDraining(d);
    if !c.lifeOver && c.batch != [] && ok {
      assert c.refused + [] + queued == c.refused + queued;
      Leaves(c, d, c.refused, c.batch, queued, true);
    } else {
      assert c.refused + c.batch + [] + queued == c.refused + c.batch + queued;
      SameHeld(c, d);
    }
  }

  lemma DrainTakeConserves(c: Core)
    requires Conserved(c) && TotalsBelong(c) && DrainStep(c, DrainTakes).Some?
    ensures var d := DrainStep(c, DrainTakes).value; Conserved(d) && SameEntries(c, d)
  {
    var d := DrainStep(c, DrainTakes).value;
    var list := c.refused + c.batch;
    HeldDraining(c);
    HeldDraining(d);
    assert list + [] == list;
    if c.queue[0].Entry? {
      assert c.refused + (c.batch + [c.queue[0].e]) == list + [c.queue[0].e];
    }
    TakeConserves(c, d, list);
  }

  lemma StrandTakeConserves(c: Core)
    requires Conserved(c) && DrainStep(c, StrandTakes).Some?
    ensures var d := DrainStep(c, StrandTakes).value; Conserved(d) && SameEntries(c, d)
  {
    var d := DrainStep(c, StrandTakes).value;
    var list := c.refused + c.batch + c.stranded;
    assert list + [] == list;
    if c.queue[0].Entry? {
      assert c.refused + c.batch + (c.stranded + [c.queue[0].e]) == list + [c.queue[0].e];
    }
    TakeConserves(c, d, list);
  }

  lemma StrandConserves(c: Core)
    requires Conserved(c) && c.run == Stranding && c.queue == []
    ensures var d := DrainStep(c, StrandEnds).value; Conserved(d) && SameEntries(c, d)
  {
    var d := DrainStep(c, StrandEnds).value;
    var all := c.refused + c.batch + c.stranded;
    assert Held(c) == [] + all + [] && Held(d) == [] + [];
    Leaves(c, d, [], all, [], false);
  }

  lemma DrainConserves(c: Core, step: Step)
    requires Conserved(c) && TotalsBelong(c) && DrainStep(c, step).Some?
    ensures var d := DrainStep(c, step).value; Conserved(d) && SameEntries(c, d)
  {
    if step.DrainTakes? { DrainTakeConserves(c); }
    else if step.WritesOut? { WriteOutConserves(c, step.ok); }
    else if step.StrandTakes? { StrandTakeConserves(c); }
    else if step.StrandEnds? { StrandConserves(c); }
    else { SameHeld(c, DrainStep(c, step).value); }
  }

  lemma RunTotals(c: Core, step: Step)
    requires TotalsBelong(c) && RunStep(c, step).Some?
    ensures TotalsBelong(RunStep(c, step).value) && !c.run.Finished? && RunStep(c, step).value.closed == c.closed
  {
  }

  lemma DrainTotals(c: Core, step: Step)
    requires TotalsBelong(c) && DrainStep(c, step).Some?
    ensures TotalsBelong(DrainStep(c, step).value) && !c.run.Finished? && DrainStep(c, step).value.closed == c.closed
  {
  }

  // --- The callers ---

  ghost predicate HasReturned(s: State, e: nat) { e in s.senders && s.senders[e] == Returned }

  ghost predicate Accounted(s: State) { forall e :: HasReturned(s, e) <==> Somewhere(s.core, e) }

  /** Closed under the write lock, the queue takes nothing more. */
  ghost predicate NobodySends(s: State) {
    && (s.core.closed ==> !LockRead(s))
    && (forall p :: p in s.stoppers && s.stoppers[p] == Stopped ==> s.core.run.Finished?)
  }

  ghost predicate Kept(s: State) {
    Conserved(s.core) && TotalsBelong(s.core) && Accounted(s) && NobodySends(s)
  }

  lemma QueueKeeps(s: State, e: nat)
    requires Kept(s) && SenderStep(s, WriteQueues(e)).Some?
    ensures Kept(SenderStep(s, WriteQueues(e)).value)
  {
    var t := SenderStep(s, WriteQueues(e)).value;
    assert LockRead(s);
    QueuedBack(s.core.queue, Entry(e));
    assert Held(t.core) == Held(s.core) + [e];
    assert !HasReturned(s, e);
    forall x ensures HasReturned(t, x) <==> Somewhere(t.core, x) {
      assert HasReturned(t, x) <==> HasReturned(s, x) || x == e;
    }
  }

  lemma CountKeeps(s: State, e: nat)
    requires Kept(s) && SenderStep(s, WriteCounts(e)).Some?
    ensures Kept(SenderStep(s, WriteCounts(e)).value)
  {
    var t := SenderStep(s, WriteCounts(e)).value;
    assert Held(t.core) == Held(s.core) && Elements([e]) == {e};
    assert !HasReturned(s, e);
    forall x ensures HasReturned(t, x) <==> Somewhere(t.core, x) {
      assert HasReturned(t, x) <==> HasReturned(s, x) || x == e;
    }
    assert LockRead(t) ==> LockRead(s);
  }

  lemma SenderKeeps(s: State, step: Step)
    requires Kept(s) && SenderStep(s, step).Some?
    ensures Kept(SenderStep(s, step).value)
  {
    if step.WriteQueues? { QueueKeeps(s, step.e); }
    else if step.WriteCounts? { CountKeeps(s, step.e); }
    else {
      var t := SenderStep(s, step).value;
      assert forall x :: HasReturned(t, x) <==> HasReturned(s, x);
      assert t.core.closed && LockRead(t) ==> LockRead(s);
    }
  }

  lemma BarrierQueueKeeps(s: State, b: nat)
    requires Kept(s) && BarrierStep(s, BarrierQueues(b)).Some?
    ensures Kept(BarrierStep(s, BarrierQueues(b)).value)
  {
    var t := BarrierStep(s, BarrierQueues(b)).value;
    assert LockRead(s);
    QueuedBack(s.core.queue, Barrier(b));
    assert QueuedEntries(s.core.queue) + [] == QueuedEntries(s.core.queue);
    SameHeld(s.core, t.core);
    assert forall x :: HasReturned(t, x) <==> HasReturned(s, x);
  }

  /** A caller's own progress, and a purge, which only empties the table. */
  lemma WaiterKeeps(s: State, t: State)
    requires Kept(s) && t.senders == s.senders && t.stoppers == s.stoppers && t.core == s.core.(rows := t.core.rows)
    requires t.core.rows <= s.core.rows
    requires t.core.closed && LockRead(t) ==> LockRead(s)
    ensures Kept(t)
  {
    SameHeld(s.core, t.core);
    assert forall x :: HasReturned(t, x) <==> HasReturned(s, x);
  }

  lemma WaiterLocks(s: State, step: Step)
    requires BarrierStep(s, step).Some?
    ensures var t := BarrierStep(s, step).value; t.core.closed && LockRead(t) ==> LockRead(s)
  {
    var t := BarrierStep(s, step).value;
    forall b | t.core.closed && b in t.waiters && t.waiters[b] == Sending ensures b in s.waiters && s.waiters[b] == Sending {}
  }

  lemma StopKeeps(s: State, step: Step)
    requires Kept(s) && StopStep(s, step).Some?
    ensures Kept(StopStep(s, step).value)
  {
    var t := StopStep(s, step).value;
    SameHeld(s.core, t.core);
    assert forall x :: HasReturned(t, x) <==> HasReturned(s, x);
    assert LockRead(t) <==> LockRead(s);
  }

  lemma CoreKeeps(s: State, d: Core)
    requires Kept(s) && Conserved(d) && TotalsBelong(d) && SameEntries(s.core, d)
    requires d.closed == s.core.closed && !s.core.run.Finished?
    ensures Kept(s.(core := d))
  {
    var t := s.(core := d);
    assert forall x :: HasReturned(t, x) <==> HasReturned(s, x);
    assert LockRead(t) <==> LockRead(s);
  }

  lemma StepKeeps(s: State, step: Step)
    requires Kept(s) && Next(s, step).Some?
    ensures Kept(Next(s, step).value)
  {
    if ByWriter(step) { SenderKeeps(s, step); }
    else if ByRun(step) {
      RunConserves(s.core, step);
      RunTotals(s.core, step);
      CoreKeeps(s, RunStep(s.core, step).value);
    } else if ByDrain(step) {
      DrainConserves(s.core, step);
      DrainTotals(s.core, step);
      CoreKeeps(s, DrainStep(s.core, step).value);
    } else if ByStop(step) { StopKeeps(s, step); }
    else if step.BarrierQueues? { BarrierQueueKeeps(s, step.b); }
    else {
      WaiterLocks(s, step);
      WaiterKeeps(s, BarrierStep(s, step).value);
    }
  }

  lemma {:induction false} RunKeeps(steps: seq<Step>)
    requires After(steps).Some?
    ensures Kept(After(steps).value)
  {
    if steps != [] {
      var n := |steps| - 1;
      RunKeeps(steps[..n]);
      StepKeeps(After(steps[..n]).value, steps[n]);
    }
  }

  /** What is held is what waits in the batch and the queue exactly when the drain has set nothing
      aside: no batch refused, no entry stranded. */
  lemma HeldIsWaiting(c: Core)
    ensures Held(c) == c.batch + QueuedEntries(c.queue) <==> c.refused == [] && c.stranded == []
  {
    if c.refused == [] && c.stranded == [] {
      HeldRunning(c);
    } else {
      assert |Held(c)| == |c.refused| + |c.stranded| + |c.batch + QueuedEntries(c.queue)|;
    }
  }

  /** In every run, each entry whose write has returned is inserted, counted dropped, or held, and
      in one place only. What is held is the batch then the queue, in order, exactly when the drain
      has refused no batch and stranded no entry; it does either only between the stop and its one
      notice. */
  lemma EntriesConserved(steps: seq<Step>)
    requires After(steps).Some?
    ensures var s := After(steps).value;
            && (forall e :: HasReturned(s, e) <==> e in s.core.inserted || e in s.core.dropped || e in Held(s.core))
            && s.core.inserted !! s.core.dropped && s.core.inserted !! Elements(Held(s.core)) && s.core.dropped !! Elements(Held(s.core))
            && Distinct(Held(s.core)) && s.core.counted == |s.core.dropped|
            && (Held(s.core) == s.core.batch + QueuedEntries(s.core.queue) <==> s.core.refused == [] && s.core.stranded == [])
            && (s.core.refused != [] ==> InDrain(s.core.run)) && (s.core.stranded != [] ==> s.core.run.Stranding?)
  {
    RunKeeps(steps);
    HeldIsWaiting(After(steps).value.core);
  }

  ghost predicate Leads(s: seq<State>, steps: seq<Step>, k: nat)
    requires k < |steps| && |s| == |steps| + 1
  {
    Next(s[k], steps[k]) == Some(s[k + 1])
  }

  /** Steps between known states make a run. */
  lemma {:induction false} RunsThrough(s: seq<State>, steps: seq<Step>)
    requires |s| == |steps| + 1 && s[0] == INITIAL && forall k :: 0 <= k < |steps| ==> Leads(s, steps, k)
    ensures After(steps) == Some(s[|steps|])
  {
    if steps != [] {
      var n := |steps| - 1;
      var states, taken := s[..n + 1], steps[..n];
      forall k | 0 <= k < |taken| ensures Leads(states, taken, k) {
        assert Leads(s, steps, k);
      }
      RunsThrough(states, taken);
      assert Leads(s, steps, n);
    }
  }

  /** One line, a stop, and a drain whose INSERT is refused. */
  const REFUSAL: seq<Step> :=
    [WriteArrives(0), WriteQueues(0), StopArrives(0), StopLocks(0), SeesStopping, DrainTakes, DrainEnds, WritesOut(false)]

  lemma WriteReturns(queued: State)
    requires queued == INITIAL.(senders := map[0 := Returned], core := INITIAL.core.(queue := [Entry(0)]))
    ensures Next(INITIAL, WriteArrives(0)) == Some(INITIAL.(senders := map[0 := Parked]))
    ensures Next(INITIAL.(senders := map[0 := Parked]), WriteQueues(0)) == Some(queued)
  {
    assert map[0 := Parked][0 := Returned] == map[0 := Returned];
    assert [] + [Entry(0)] == [Entry(0)];
  }

  lemma StopCloses(s: State)
    requires s.senders == map[0 := Returned] && s.waiters == map[] && s.stoppers == map[]
    ensures Next(s, StopArrives(0)) == Some(s.(stoppers := map[0 := Locking]))
    ensures Next(s.(stoppers := map[0 := Locking]), StopLocks(0))
            == Some(s.(stoppers := map[0 := Joining], core := s.core.(closed := true)))
  {
    assert map[0 := Locking][0 := Joining] == map[0 := Joining];
  }

  lemma DrainRefuses(s: State)
    requires s.core.run == Selecting && s.core.closed && !s.core.lifeOver
    requires s.core.queue == [Entry(0)] && s.core.batch == [] && s.core.refused == []
    ensures var c := s.core;
            && Next(s, SeesStopping) == Some(s.(core := c.(run := Draining)))
            && Next(s.(core := c.(run := Draining)), DrainTakes) == Some(s.(core := c.(run := Draining, queue := [], batch := [0])))
            && Next(s.(core := c.(run := Draining, queue := [], batch := [0])), DrainEnds)
               == Some(s.(core := c.(run := WritingOut(true), queue := [], batch := [0])))
            && Next(s.(core := c.(run := WritingOut(true), queue := [], batch := [0])), WritesOut(false))
               == Some(s.(core := c.(run := Stranding, queue := [], refused := [0])))
  {
    assert [Entry(0)][1..] == [] && [] + [0] == [0];
  }

  /** The refused batch: its write has returned, and until the notice it is in no row, no count,
      no batch and no queue. */
  lemma RefusedIsNowhere()
    ensures After(REFUSAL).Some?
    ensures var s := After(REFUSAL).value;
            && HasReturned(s, 0) && 0 !in s.core.inserted && 0 !in s.core.dropped && 0 !in s.core.batch
            && Entry(0) !in s.core.queue && s.core.refused == [0]
  {
    var queued := INITIAL.(senders := map[0 := Returned], core := INITIAL.core.(queue := [Entry(0)]));
    var closed := queued.(stoppers := map[0 := Joining], core := queued.core.(closed := true));
    var c := closed.core;
    WriteReturns(queued);
    StopCloses(queued);
    DrainRefuses(closed);
    RunsThrough([INITIAL, INITIAL.(senders := map[0 := Parked]), queued, queued.(stoppers := map[0 := Locking]), closed,
                 closed.(core := c.(run := Draining)), closed.(core := c.(run := Draining, queue := [], batch := [0])),
                 closed.(core := c.(run := WritingOut(true), queue := [], batch := [0])),
                 closed.(core := c.(run := Stranding, queue := [], refused := [0]))], REFUSAL);
  }

  function Written(s: State): set<nat> { set e | e in s.senders && s.senders[e] == Returned }

  /** Once any stop has returned, nothing is queued or batched, every entry written is a row that
      went in or a counted drop, and the numbers add up; they still do for lines written later. */
  lemma StopLeavesNothing(steps: seq<Step>, p: nat)
    requires After(steps).Some? && p in After(steps).value.stoppers && After(steps).value.stoppers[p] == Stopped
    ensures var s := After(steps).value;
            && s.core.queue == [] && s.core.batch == []
            && Written(s) == s.core.inserted + s.core.dropped
            && |Written(s)| == |s.core.inserted| + s.core.counted
  {
    RunKeeps(steps);
    var s := After(steps).value;
    HeldRunning(s.core);
    assert Held(s.core) == [];
    forall e ensures e in Written(s) <==> e in s.core.inserted + s.core.dropped {
      assert HasReturned(s, e) <==> Somewhere(s.core, e);
    }
    assert s.core.inserted !! s.core.dropped;
  }

  // --- Barriers ---

  ghost predicate Settled(c: Core, entries: set<nat>) { entries <= c.inserted + c.dropped }

  ghost predicate NotQueued(queue: seq<Msg>, entries: set<nat>) {
    forall e :: e in entries ==> Entry(e) !in queue
  }

  /** What was handed over before a barrier never stands behind it. */
  ghost predicate QueueOrdered(queue: seq<Msg>, ahead: map<nat, set<nat>>) {
    forall k :: 0 <= k < |queue| && queue[k].Barrier? ==>
      queue[k].b in ahead && NotQueued(queue[k + 1..], ahead[queue[k].b])
  }

  ghost predicate RunOrdered(c: Core, ahead: map<nat, set<nat>>) {
    && (c.run.Flushing? && c.run.barrier.Some? ==> c.run.barrier.value in ahead && NotQueued(c.queue, ahead[c.run.barrier.value]))
    && (c.run.Answering? ==> c.run.b in ahead && Settled(c, ahead[c.run.b]))
    && (forall b :: b in c.answered ==> b in ahead && Settled(c, ahead[b]))
  }

  ghost predicate Placed(c: Core, ahead: map<nat, set<nat>>) {
    forall b :: b in ahead ==> forall e :: e in ahead[b] ==> Somewhere(c, e)
  }

  ghost predicate CallersOrdered(s: State) {
    && (forall b :: b in s.ahead ==> b in s.waiters && s.waiters[b] != Sending)
    && (forall b :: b in s.waiters && s.waiters[b] in {Flushed, Purged} ==> b in s.core.answered)
    && (forall b :: b in s.waiters && s.waiters[b] == Purged && b in s.ahead ==> s.core.rows !! s.ahead[b])
  }

  ghost predicate Ordered(s: State) {
    QueueOrdered(s.core.queue, s.ahead) && RunOrdered(s.core, s.ahead) && Placed(s.core, s.ahead) && CallersOrdered(s)
  }

  lemma {:induction false} QueuedIn(queue: seq<Msg>, e: nat)
    ensures e in QueuedEntries(queue) <==> Entry(e) in queue
  {
    if queue != [] {
      var n := |queue| - 1;
      QueuedIn(queue[..n], e);
      assert queue == queue[..n] + [queue[n]];
    }
  }

  /** With the lists before the queue empty, what is placed and not queued has been dealt with. */
  lemma AllDealtWith(c: Core, entries: set<nat>)
    requires c.batch == [] && c.refused == [] && c.stranded == []
    requires (forall e :: e in entries ==> Somewhere(c, e)) && NotQueued(c.queue, entries)
    ensures Settled(c, entries)
  {
    forall e | e in entries ensures e in c.inserted + c.dropped {
      QueuedIn(c.queue, e);
      HeldRunning(c);
    }
  }

  lemma PopOrdered(queue: seq<Msg>, ahead: map<nat, set<nat>>)
    requires QueueOrdered(queue, ahead) && queue != []
    ensures QueueOrdered(queue[1..], ahead)
  {
    var rest := queue[1..];
    forall k | 0 <= k < |rest| && rest[k].Barrier? ensures rest[k].b in ahead && NotQueued(rest[k + 1..], ahead[rest[k].b]) {
      assert queue[k + 1] == rest[k] && queue[k + 2..] == rest[k + 1..];
    }
  }

  lemma PushOrdered(queue: seq<Msg>, m: Msg, ahead: map<nat, set<nat>>)
    requires QueueOrdered(queue, ahead)
    requires m.Barrier? ==> m.b in ahead
    requires m.Entry? ==> forall b :: b in ahead ==> m.e !in ahead[b]
    ensures QueueOrdered(queue + [m], ahead)
  {
    var after := queue + [m];
    forall k | 0 <= k < |after| && after[k].Barrier? ensures after[k].b in ahead && NotQueued(after[k + 1..], ahead[after[k].b]) {
      if k < |queue| {
        assert after[k] == queue[k] && after[k + 1..] == queue[k + 1..] + [m];
      }
    }
  }

  lemma SettledStays(c: Core, d: Core, ahead: map<nat, set<nat>>)
    requires RunOrdered(c, ahead) && d.answered == c.answered && c.inserted <= d.inserted && c.dropped <= d.dropped
    ensures forall b :: b in d.answered ==> b in ahead && Settled(d, ahead[b])
  {
  }

  lemma ReceiveOrdered(c: Core, ahead: map<nat, set<nat>>)
    requires TotalsBelong(c) && QueueOrdered(c.queue, ahead) && RunOrdered(c, ahead) && Placed(c, ahead)
    requires RunStep(c, Receives).Some?
    ensures var d := RunStep(c, Receives).value; QueueOrdered(d.queue, ahead) && RunOrdered(d, ahead)
  {
    var d := RunStep(c, Receives).value;
    PopOrdered(c.queue, ahead);
    SettledStays(c, d, ahead);
    if c.queue[0].Barrier? {
      var b := c.queue[0].b;
      assert c.queue[0 + 1..] == d.queue;
      if c.batch == [] {
        forall e | e in ahead[b] ensures Somewhere(d, e) {
          QueuedFront(c.queue);
          assert [] + QueuedEntries(d.queue) == QueuedEntries(d.queue);
        }
        AllDealtWith(d, ahead[b]);
      }
    }
  }

  lemma FlushOrdered(c: Core, ahead: map<nat, set<nat>>, ok: bool)
    requires Conserved(c) && TotalsBelong(c) && QueueOrdered(c.queue, ahead) && RunOrdered(c, ahead) && Placed(c, ahead)
    requires c.run.Flushing?
    ensures var d := RunStep(c, Flushes(ok)).value; QueueOrdered(d.queue, ahead) && RunOrdered(d, ahead)
  {
    var d := RunStep(c, Flushes(ok)).value;
    FlushConserves(c, ok);
    SettledStays(c, d, ahead);
    if c.run.barrier.Some? {
      AllDealtWith(d, ahead[c.run.barrier.value]);
    }
  }

  lemma RunStepOrdered(c: Core, ahead: map<nat, set<nat>>, step: Step)
    requires Conserved(c) && TotalsBelong(c) && QueueOrdered(c.queue, ahead) && RunOrdered(c, ahead) && Placed(c, ahead)
    requires RunStep(c, step).Some?
    ensures var d := RunStep(c, step).value; QueueOrdered(d.queue, ahead) && RunOrdered(d, ahead) && c.answered <= d.answered
  {
    if step.Receives? { ReceiveOrdered(c, ahead); }
    else if step.Flushes? { FlushOrdered(c, ahead, step.ok); }
  }

  lemma DrainStepOrdered(c: Core, ahead: map<nat, set<nat>>, step: Step)
    requires QueueOrdered(c.queue, ahead) && RunOrdered(c, ahead) && DrainStep(c, step).Some?
    ensures var d := DrainStep(c, step).value; QueueOrdered(d.queue, ahead) && RunOrdered(d, ahead) && c.answered <= d.answered
  {
    var d := DrainStep(c, step).value;
    if step.DrainTakes? || step.StrandTakes? { PopOrdered(c.queue, ahead); }
    SettledStays(c, d, ahead);
  }

  /** A row that goes in was held, so no barrier answered before was owed it. */
  lemma NewRowsAreLate(c: Core, d: Core, entries: set<nat>)
    requires Conserved(c) && Settled(c, entries) && c.rows !! entries
    requires d.rows <= c.rows + Elements(Held(c))
    ensures d.rows !! entries
  {
  }

  lemma RunRows(c: Core, step: Step)
    requires TotalsBelong(c) && RunStep(c, step).Some?
    ensures RunStep(c, step).value.rows <= c.rows + Elements(Held(c))
  {
    HeldHasBatch(c);
  }

  lemma DrainRows(c: Core, step: Step)
    requires DrainStep(c, step).Some?
    ensures DrainStep(c, step).value.rows <= c.rows + Elements(Held(c))
  {
    HeldHasBatch(c);
  }

  lemma HeldHasBatch(c: Core)
    ensures Elements(c.batch) <= Elements(Held(c))
  {
  }

  lemma CoreOrders(s: State, d: Core)
    requires Kept(s) && Ordered(s) && QueueOrdered(d.queue, s.ahead) && RunOrdered(d, s.ahead)
    requires SameEntries(s.core, d) && s.core.answered <= d.answered && d.rows <= s.core.rows + Elements(Held(s.core))
    ensures Ordered(s.(core := d))
  {
    forall b | b in s.waiters && s.waiters[b] == Purged && b in s.ahead ensures d.rows !! s.ahead[b] {
      NewRowsAreLate(s.core, d, s.ahead[b]);
    }
  }

  lemma SenderOrders(s: State, step: Step)
    requires Kept(s) && Ordered(s) && SenderStep(s, step).Some?
    ensures Ordered(SenderStep(s, step).value)
  {
    var t := SenderStep(s, step).value;
    if step.WriteQueues? {
      assert !HasReturned(s, step.e) && !Somewhere(s.core, step.e);
      PushOrdered(s.core.queue, Entry(step.e), s.ahead);
      QueuedBack(s.core.queue, Entry(step.e));
      assert Held(t.core) == Held(s.core) + [step.e];
    } else if step.WriteCounts? {
      assert Held(t.core) == Held(s.core);
      SettledStays(s.core, t.core, s.ahead);
    }
  }

  lemma AheadGrows(c: Core, ahead: map<nat, set<nat>>, b: nat, entries: set<nat>)
    requires QueueOrdered(c.queue, ahead) && RunOrdered(c, ahead) && Placed(c, ahead) && b !in ahead
    requires forall e :: e in entries ==> Somewhere(c, e)
    ensures QueueOrdered(c.queue, ahead[b := entries]) && RunOrdered(c, ahead[b := entries]) && Placed(c, ahead[b := entries])
  {
    var grown := ahead[b := entries];
    forall k | 0 <= k < |c.queue| && c.queue[k].Barrier?
      ensures c.queue[k].b in grown && NotQueued(c.queue[k + 1..], grown[c.queue[k].b])
    {
      assert c.queue[k].b != b;
    }
  }

  lemma BarrierQueueOrders(s: State, b: nat)
    requires Kept(s) && Ordered(s) && BarrierStep(s, BarrierQueues(b)).Some?
    ensures Ordered(BarrierStep(s, BarrierQueues(b)).value)
  {
    var t := BarrierStep(s, BarrierQueues(b)).value;
    assert b !in s.ahead;
    AheadGrows(s.core, s.ahead, b, t.ahead[b]);
    PushOrdered(s.core.queue, Barrier(b), t.ahead);
    BarrierHeld(s, b);
    BarrierRunOrdered(s.core, t.core, t.ahead, b);
    assert CallersOrdered(t);
  }

  lemma BarrierHeld(s: State, b: nat)
    requires BarrierStep(s, BarrierQueues(b)).Some?
    ensures Held(BarrierStep(s, BarrierQueues(b)).value.core) == Held(s.core)
  {
    QueuedBack(s.core.queue, Barrier(b));
    assert QueuedEntries(s.core.queue) + [] == QueuedEntries(s.core.queue);
  }

  lemma BarrierRunOrdered(c: Core, d: Core, ahead: map<nat, set<nat>>, b: nat)
    requires RunOrdered(c, ahead) && Placed(c, ahead)
    requires d == c.(queue := c.queue + [Barrier(b)]) && Held(d) == Held(c)
    ensures RunOrdered(d, ahead) && Placed(d, ahead)
  {
    assert forall e :: Somewhere(d, e) <==> Somewhere(c, e);
  }

  /** Other steps of a barrier's caller leave the writer alone, or empty the table. */
  lemma WaiterOrders(s: State, t: State)
    requires Ordered(s) && t.ahead == s.ahead && t.core == s.core.(rows := t.core.rows) && CallersOrdered(t)
    ensures Ordered(t)
  {
    assert Held(t.core) == Held(s.core);
    assert forall e :: Somewhere(t.core, e) <==> Somewhere(s.core, e);
  }

  lemma WaiterCalls(s: State, step: Step)
    requires CallersOrdered(s) && BarrierStep(s, step).Some? && !step.BarrierQueues?
    ensures CallersOrdered(BarrierStep(s, step).value)
  {
  }

  lemma BarrierOrders(s: State, step: Step)
    requires Kept(s) && Ordered(s) && BarrierStep(s, step).Some?
    ensures Ordered(BarrierStep(s, step).value)
  {
    if step.BarrierQueues? { BarrierQueueOrders(s, step.b); }
    else {
      WaiterCalls(s, step);
      WaiterOrders(s, BarrierStep(s, step).value);
    }
  }

  lemma StepOrders(s: State, step: Step)
    requires Kept(s) && Ordered(s) && Next(s, step).Some?
    ensures Ordered(Next(s, step).value)
  {
    if ByWriter(step) { SenderOrders(s, step); }
    else if ByRun(step) {
      RunConserves(s.core, step);
      RunStepOrdered(s.core, s.ahead, step);
      RunRows(s.core, step);
      CoreOrders(s, RunStep(s.core, step).value);
    } else if ByDrain(step) {
      DrainConserves(s.core, step);
      DrainStepOrdered(s.core, s.ahead, step);
      DrainRows(s.core, step);
      CoreOrders(s, DrainStep(s.core, step).value);
    } else if ByStop(step) {
      assert Held(Next(s, step).value.core) == Held(s.core);
    } else { BarrierOrders(s, step); }
  }

  lemma {:induction false} RunOrders(steps: seq<Step>)
    requires After(steps).Some?
    ensures Ordered(After(steps).value)
  {
    if steps != [] {
      var n := |steps| - 1;
      RunOrders(steps[..n]);
      RunKeeps(steps[..n]);
      StepOrders(After(steps[..n]).value, steps[n]);
    }
  }

  /** If flushBarrier returned nil, everything handed over before it was queued has been inserted
      or counted dropped, whatever senders, ticks and a concurrent stop did. */
  lemma BarrierSafe(steps: seq<Step>, b: nat)
    requires After(steps).Some? && b in After(steps).value.waiters && After(steps).value.waiters[b] in {Flushed, Purged}
    ensures var s := After(steps).value;
            b in s.ahead && s.ahead[b] <= s.core.inserted + s.core.dropped
  {
    RunOrders(steps);
    assert b in After(steps).value.core.answered;
  }

  /** After a successful purge of everything, then or at any later time, every row in the table
      was handed over after the purge's barrier was queued. */
  lemma PurgedRowsStayGone(steps: seq<Step>, b: nat)
    requires After(steps).Some? && b in After(steps).value.waiters && After(steps).value.waiters[b] == Purged
    ensures var s := After(steps).value;
            b in s.ahead && forall e :: e in s.core.rows ==> e !in s.ahead[b]
  {
    RunOrders(steps);
    BarrierSafe(steps, b);
  }
}
