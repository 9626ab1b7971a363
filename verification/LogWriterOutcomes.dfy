/** Where an entry may end, and why, in every run of the log writer
    (internal/api/applogs_buffer.go): what is inserted, what a counted drop takes, and that nothing
    waits for ever in a batch. */
module LogWriterOutcomes {
  import opened Wrappers
  import opened LogWriter

  // --- Reading a run ---

  ghost predicate Has(steps: seq<Step>, step: Step) { step in steps }

  lemma {:induction false} AheadOf(steps: seq<Step>, k: nat)
    requires k <= |steps| && After(steps).Some?
    ensures After(steps[..k]).Some?
  {
    if k < |steps| {
      var n := |steps| - 1;
      AheadOf(steps[..n], k);
      assert steps[..n][..k] == steps[..k];
    } else {
      assert steps[..k] == steps;
    }
  }

  /** The writer ahead of step k. */
  ghost function CoreAt(steps: seq<Step>, k: nat): Core
    requires k <= |steps| && After(steps).Some?
  {
    AheadOf(steps, k);
    After(steps[..k]).value.core
  }

  lemma CoreAtShorter(steps: seq<Step>, k: nat)
    requires steps != [] && k < |steps| && After(steps).Some?
    ensures After(steps[..|steps| - 1]).Some? && CoreAt(steps[..|steps| - 1], k) == CoreAt(steps, k)
  {
    assert steps[..|steps| - 1][..k] == steps[..k];
  }

  // --- Why an entry was dropped ---

  /** What step k drops: a refused write its own entry, a refused INSERT the batch it was to write, and
      the drain's notice whatever the drain could not write. */
  ghost predicate Drops(c: Core, step: Step, e: nat) {
    || step == WriteCounts(e)
    || (step == Flushes(false) && e in c.batch)
    || (step.StrandEnds? && e in c.refused + c.batch + c.stranded)
  }

  /** What a step inserts: the batch of an INSERT the database took. */
  ghost predicate Inserts(c: Core, step: Step, e: nat) {
    step in {Flushes(true), WritesOut(true)} && e in c.batch
  }

  lemma StepDrops(s: State, step: Step)
    requires Next(s, step).Some?
    ensures var t := Next(s, step).value;
            forall e :: e in t.core.dropped ==> e in s.core.dropped || Drops(s.core, step, e)
  {
  }

  lemma StepInserts(s: State, step: Step)
    requires Next(s, step).Some?
    ensures var t := Next(s, step).value;
            && (forall e :: e in t.core.inserted ==> e in s.core.inserted || Inserts(s.core, step, e))
            && (forall e :: e in t.core.rows ==> e in s.core.rows || Inserts(s.core, step, e))
  {
  }

  ghost predicate DroppedAt(steps: seq<Step>, e: nat, k: int)
    requires After(steps).Some?
  {
    0 <= k < |steps| && Drops(CoreAt(steps, k), steps[k], e)
  }

  ghost predicate InsertedAt(steps: seq<Step>, e: nat, k: int)
    requires After(steps).Some?
  {
    0 <= k < |steps| && Inserts(CoreAt(steps, k), steps[k], e)
  }

  /** A drop has a reason in the run, and an insert its INSERT. */
  lemma {:induction false} Reasons(steps: seq<Step>, e: nat)
    requires After(steps).Some?
    ensures e in After(steps).value.core.dropped ==> exists k :: DroppedAt(steps, e, k)
    ensures e in After(steps).value.core.inserted ==> exists k :: InsertedAt(steps, e, k)
  {
    if steps != [] {
      var n := |steps| - 1;
      var s := After(steps[..n]).value;
      assert steps[..n][..n] == steps[..n] && CoreAt(steps, n) == s.core;
      Reasons(steps[..n], e);
      StepDrops(s, steps[n]);
      StepInserts(s, steps[n]);
      if k :| DroppedAt(steps[..n], e, k) {
        CoreAtShorter(steps, k);
        assert DroppedAt(steps, e, k);
      } else if Drops(s.core, steps[n], e) {
        assert DroppedAt(steps, e, n);
      }
      if k :| InsertedAt(steps[..n], e, k) {
        CoreAtShorter(steps, k);
        assert InsertedAt(steps, e, k);
      } else if Inserts(s.core, steps[n], e) {
        assert InsertedAt(steps, e, n);
      }
    }
  }

  // --- Why a write was refused ---

  /** A write gives up its place, or arrives while the writer is stopping or stopped. */
  ghost predicate RefusedAt(steps: seq<Step>, e: nat, k: int)
    requires After(steps).Some?
  {
    && 0 <= k < |steps|
    && (steps[k] == WriteGivesUp(e)
        || (steps[k] == WriteArrives(e) && exists p :: Has(steps[..k], StopArrives(p))))
  }

  ghost predicate RefusedFor(steps: seq<Step>, e: nat)
    requires After(steps).Some?
  {
    exists k :: RefusedAt(steps, e, k)
  }

  /** Nothing stops, and nothing closes the writer, but a stop that has arrived. */
  lemma {:induction false} StopsArrived(steps: seq<Step>)
    requires After(steps).Some?
    ensures var s := After(steps).value;
            s.core.closed || s.stoppers != map[] ==> exists p :: Has(steps, StopArrives(p))
  {
    if steps != [] {
      var n := |steps| - 1;
      var s, t := After(steps[..n]).value, After(steps).value;
      StopsArrived(steps[..n]);
      StopStepArrives(s, steps[n]);
      if s.core.closed || s.stoppers != map[] {
        var p :| Has(steps[..n], StopArrives(p));
        assert Has(steps, StopArrives(p));
      } else if steps[n].StopArrives? {
        assert Has(steps, StopArrives(steps[n].p));
      }
    }
  }

  lemma StopStepArrives(s: State, step: Step)
    requires Next(s, step).Some?
    ensures var t := Next(s, step).value;
            t.core.closed || t.stoppers != map[] ==> s.core.closed || s.stoppers != map[] || step.StopArrives?
  {
  }

  lemma StepRefuses(s: State, step: Step, e: nat)
    requires Next(s, step).Some?
    ensures var t := Next(s, step).value;
            && (e in t.senders && t.senders[e] == Refused && !(e in s.senders && s.senders[e] == Refused) ==>
                  step == WriteGivesUp(e) || (step == WriteArrives(e) && (s.core.closed || s.stoppers != map[])))
            && (step == WriteCounts(e) ==> e in s.senders && s.senders[e] == Refused)
  {
    if step == WriteArrives(e) && LockWanted(s) {
      var p :| p in s.stoppers && s.stoppers[p] == Locking;
    }
  }

  lemma {:induction false} RefusedHasReason(steps: seq<Step>, e: nat)
    requires After(steps).Some?
    requires (e in After(steps).value.senders && After(steps).value.senders[e] == Refused) || Has(steps, WriteCounts(e))
    ensures RefusedFor(steps, e)
  {
    if steps != [] {
      var n := |steps| - 1;
      var s := After(steps[..n]).value;
      StepRefuses(s, steps[n], e);
      if (e in s.senders && s.senders[e] == Refused) || Has(steps[..n], WriteCounts(e)) {
        RefusedHasReason(steps[..n], e);
        var k :| RefusedAt(steps[..n], e, k);
        assert steps[..n][..k] == steps[..k];
        assert RefusedAt(steps, e, k);
      } else {
        assert steps == steps[..n] + [steps[n]];
        StopsArrived(steps[..n]);
        assert RefusedAt(steps, e, n);
      }
    }
  }

  /** Every drop has a reason, in any run: its write was refused, by a queue that stayed full or a stop;
      the database refused the INSERT of its batch; or a stop's drain could not write it. */
  lemma DropsHaveReasons(steps: seq<Step>, e: nat)
    requires After(steps).Some? && e in After(steps).value.core.dropped
    ensures || RefusedFor(steps, e)
            || (exists k :: 0 <= k < |steps| && steps[k] == Flushes(false) && e in CoreAt(steps, k).batch)
            || (exists k :: 0 <= k < |steps| && steps[k].StrandEnds?
                            && e in CoreAt(steps, k).refused + CoreAt(steps, k).batch + CoreAt(steps, k).stranded)
  {
    Reasons(steps, e);
    var k :| DroppedAt(steps, e, k);
    if steps[k] == WriteCounts(e) {
      assert Has(steps, WriteCounts(e));
      RefusedHasReason(steps, e);
    }
  }

  // --- A stop that meets no failure ---

  /** The database refuses nothing, and the stop's deadline does not expire. */
  predicate Healthy(step: Step) { step !in {Flushes(false), WritesOut(false), DeadlineFires} }

  ghost predicate Unhurt(c: Core) {
    && (c.lifeOver ==> c.run.Finished?) && c.refused == [] && c.stranded == []
    && (c.run == WritingOut(true) ==> c.queue == [])
    && (c.run.Stranding? ==> c.queue == [] && c.batch == [])
  }

  lemma UnhurtStep(s: State, step: Step)
    requires Kept(s) && Unhurt(s.core) && Healthy(step) && Next(s, step).Some?
    ensures Unhurt(Next(s, step).value.core)
    ensures step.StrandEnds? ==> s.core.refused + s.core.batch + s.core.stranded == []
  {
    if step.WriteQueues? {
      assert s.core.closed ==> !LockRead(s);
    } else if step.BarrierQueues? {
      assert s.core.closed ==> !LockRead(s);
    }
  }

  lemma {:induction false} StaysUnhurt(steps: seq<Step>)
    requires After(steps).Some? && forall k :: 0 <= k < |steps| ==> Healthy(steps[k])
    ensures Unhurt(After(steps).value.core)
  {
    if steps != [] {
      var n := |steps| - 1;
      StaysUnhurt(steps[..n]);
      RunKeeps(steps[..n]);
      UnhurtStep(After(steps[..n]).value, steps[n]);
    }
  }

  lemma {:induction false} OnlyRefusedDropped(steps: seq<Step>, e: nat)
    requires After(steps).Some? && forall k :: 0 <= k < |steps| ==> Healthy(steps[k])
    requires e in After(steps).value.core.dropped
    ensures Has(steps, WriteCounts(e))
  {
    var n := |steps| - 1;
    var s := After(steps[..n]).value;
    StaysUnhurt(steps[..n]);
    RunKeeps(steps[..n]);
    UnhurtStep(s, steps[n]);
    StepDrops(s, steps[n]);
    if e in s.core.dropped {
      OnlyRefusedDropped(steps[..n], e);
    }
  }

  /** When the database takes every INSERT and the deadline does not expire, every entry whose write
      returned is inserted once a stop has, unless the write itself was refused. */
  lemma HealthyStopInserts(steps: seq<Step>, p: nat, e: nat)
    requires After(steps).Some? && forall k :: 0 <= k < |steps| ==> Healthy(steps[k])
    requires p in After(steps).value.stoppers && After(steps).value.stoppers[p] == Stopped
    requires HasReturned(After(steps).value, e)
    ensures e in After(steps).value.core.inserted || RefusedFor(steps, e)
  {
    StopLeavesNothing(steps, p);
    assert e in Written(After(steps).value);
    if e in After(steps).value.core.dropped {
      OnlyRefusedDropped(steps, e);
      RefusedHasReason(steps, e);
    }
  }

  // --- The table ---

  /** Until a purge succeeds, everything inserted is a row. */
  lemma {:induction false} RowsUntilPurged(steps: seq<Step>)
    requires After(steps).Some? && forall k :: 0 <= k < |steps| ==> !(steps[k].Purges? && steps[k].ok)
    ensures After(steps).value.core.rows == After(steps).value.core.inserted
  {
    if steps != [] {
      var n := |steps| - 1;
      RowsUntilPurged(steps[..n]);
      RowsStep(After(steps[..n]).value, steps[n]);
    }
  }

  lemma RowsStep(s: State, step: Step)
    requires s.core.rows == s.core.inserted && Next(s, step).Some? && !(step.Purges? && step.ok)
    ensures Next(s, step).value.core.rows == Next(s, step).value.core.inserted
  {
  }

  // --- Bounds ---

  /** The queue holds at most its capacity, a batch at most fifty, and one that is full is on its way out. */
  ghost predicate Bounded(c: Core) {
    && |c.queue| <= 5000 && |c.batch| <= 50
    && (c.run.Selecting? || c.run.Draining? ==> |c.batch| < 50)
    && (c.run.Answering? ==> c.batch == [])
  }

  lemma BoundedStep(s: State, step: Step)
    requires Bounded(s.core) && Next(s, step).Some?
    ensures Bounded(Next(s, step).value.core) || s.core.lifeOver
  {
  }

  lemma {:induction false} QueueAndBatchBounded(steps: seq<Step>)
    requires After(steps).Some? && !After(steps).value.core.lifeOver
    ensures Bounded(After(steps).value.core)
  {
    if steps != [] {
      var n := |steps| - 1;
      LifeStaysOver(After(steps[..n]).value, steps[n]);
      QueueAndBatchBounded(steps[..n]);
      BoundedStep(After(steps[..n]).value, steps[n]);
    }
  }

  lemma LifeStaysOver(s: State, step: Step)
    requires Next(s, step).Some?
    ensures s.core.lifeOver ==> Next(s, step).value.core.lifeOver
  {
  }

  // --- Nothing waits for ever ---

  /** What one INSERT makes of a batch, and the batch it leaves. */
  ghost predicate Settles(c: Core, d: Core, batch: seq<nat>, ok: bool) {
    && d.batch == [] && d.queue == c.queue && d.closed == c.closed
    && (if ok then
          && (forall e :: e in batch ==> e in d.inserted && e in d.rows)
          && d.dropped == c.dropped && d.counted == c.counted
        else
          && (forall e :: e in batch ==> e in d.dropped)
          && d.counted == c.counted + |batch| && d.inserted == c.inserted && d.rows == c.rows)
  }

  /** A tick writes out whatever the batch holds, and leaves an empty one alone. */
  lemma TickSettles(s: State, ok: bool)
    requires s.core.run == Selecting
    ensures var ticked := Next(s, Ticks);
            && ticked.Some?
            && (s.core.batch == [] ==> ticked == Some(s))
            && (s.core.batch != [] ==>
                  var done := Next(ticked.value, Flushes(ok));
                  done.Some? && done.value.core.run == Selecting && Settles(s.core, done.value.core, s.core.batch, ok))
  {
  }

  /** The message that fills the batch sends it on its way. */
  lemma FullBatchSettles(s: State, e: nat, ok: bool)
    requires s.core.run == Selecting && s.core.queue != [] && s.core.queue[0] == Entry(e) && |s.core.batch| == 49
    ensures var taken := Next(s, Receives);
            && taken.Some? && taken.value.core.batch == s.core.batch + [e]
            && var done := Next(taken.value, Flushes(ok));
            done.Some? && done.value.core.run == Selecting && Settles(taken.value.core, done.value.core, s.core.batch + [e], ok)
  {
  }

  /** A barrier at the front is answered, the batch ahead of it written out first. */
  lemma FrontBarrierAnswered(s: State, b: nat, ok: bool) returns (taken: State, written: State, answered: State)
    requires s.core.run == Selecting && s.core.queue != [] && s.core.queue[0] == Barrier(b)
    ensures Next(s, Receives) == Some(taken) && taken.core.queue == s.core.queue[1..]
    ensures if s.core.batch == [] then written == taken else Next(taken, Flushes(ok)) == Some(written)
    ensures Settles(taken.core, written.core, s.core.batch, ok)
    ensures Next(written, Answers) == Some(answered) && b in answered.core.answered && answered.core.run == Selecting
  {
    taken := Next(s, Receives).value;
    written := BarrierFlushed(taken, b, ok);
    answered := Next(written, Answers).value;
  }

  lemma BarrierFlushed(s: State, b: nat, ok: bool) returns (t: State)
    requires s.core.run == if s.core.batch == [] then Answering(b) else Flushing(Some(b))
    ensures if s.core.batch == [] then t == s else Next(s, Flushes(ok)) == Some(t)
    ensures t.core.run == Answering(b) && Settles(s.core, t.core, s.core.batch, ok)
  {
    t := if s.core.batch == [] then s else Next(s, Flushes(ok)).value;
  }
}
