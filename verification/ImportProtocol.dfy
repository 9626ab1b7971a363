/** Any number of imports running at once (internal/api/configsync_apply.go 89-230 and
    614-647, configsync_apply_models.go 224-298). Each commits its core tables in one
    fenced transaction, then discovers models, then runs three detached sections, each
    in its own transaction under the same lock. A state machine over those steps: a
    transaction is one step, and a lock timeout or a database failure is a section
    that does not write. */
module ImportProtocol {
  import opened Wrappers
  import opened MemberTables
  import opened ImportFence
  import opened CoreImport
  import MI = ModelIntent
  import FG = FailoverGroups

  datatype Phase = Waiting | Discovering | DisablesDue | PinsDue | GroupsDue | Finished | Refused

  datatype Import = Import(env: Envelope, gen: Option<int>, phase: Phase, seqNo: int, discovered: bool)

  datatype Section = Disables | Pins | Groups

  datatype Event =
    | Committed(imp: nat, seqNo: int, gen: Option<int>)
    | Wrote(imp: nat, seqNo: int, section: Section)

  /** The log is history kept for the statements below; no step reads it. */
  datatype State = State(db: Member, imports: map<nat, Import>, log: seq<Event>)

  datatype Step =
    | Arrive(imp: nat, env: Envelope, header: StoredNumber)
    | Commit(imp: nat)
    | Refuse(imp: nat)
    | Discover(imp: nat, ok: bool)
    | RunSection(imp: nat, now: int)
    | SectionFails(imp: nat)
    | Environment   // this member's own discovery and its dashboard: model and group rows, the echo
    | Edit          // its dashboard on the core tables, with all that deleting a row there takes along

  function SectionOf(phase: Phase): Option<Section> {
    match phase
    case DisablesDue => Some(Disables)
    case PinsDue => Some(Pins)
    case GroupsDue => Some(Groups)
    case _ => None
  }

  function NextPhase(phase: Phase): Phase {
    match phase
    case DisablesDue => PinsDue
    case PinsDue => GroupsDue
    case GroupsDue => Finished
    case _ => phase
  }

  /** An absent list leaves the section without anything to write. */
  predicate Carries(env: Envelope, section: Section) {
    match section
    case Disables => env.disabledModels.Some?
    case Pins => env.enabledModels.Some?
    case Groups => env.failoverGroups.Some?
  }

  ghost function SectionEffect(db: Member, imp: Import, section: Section, now: int): Member
    requires Carries(imp.env, section)
  {
    match section
    case Disables => MI.DisableSection(db, imp.env.disabledModels.value)
    case Pins => MI.PinSection(db, imp.env.enabledModels.value, now)
    case Groups => FG.GroupSection(db, imp.env.failoverGroups.value, imp.discovered)
  }

  /** The fence lock is held: the section writes iff no later import has committed. */
  predicate Writes(db: Member, imp: Import, section: Section) {
    Carries(imp.env, section) && ReadSeq(db.importSeq) == imp.seqNo
  }

  /** Only an import's transaction writes these. */
  predicate SameMarkers(a: Member, b: Member) {
    a.importSeq == b.importSeq && a.sourceGen == b.sourceGen
  }

  /** What an import's transaction replaces, and no section touches. */
  predicate SameCore(a: Member, b: Member) {
    a.providers == b.providers && a.users == b.users && a.keys == b.keys && a.settings == b.settings && SameMarkers(a, b)
  }

  ghost predicate Steps(policy: Policy, s: State, step: Step, t: State) {
    match step
    case Arrive(i, env, header) =>
      && i !in s.imports
      && t == s.(imports := s.imports[i := Import(env, ParseSourceGen(header), Waiting, 0, false)])
    case Commit(i) =>
      && i in s.imports && s.imports[i].phase == Waiting
      && CoreStep(policy, s.db, s.imports[i].env, s.imports[i].gen, t.db)
      && var n := NextSeq(s.db.importSeq);
      && t.imports == s.imports[i := s.imports[i].(phase := Discovering, seqNo := n)]
      && t.log == s.log + [Committed(i, n, s.imports[i].gen)]
    case Refuse(i) =>
      && i in s.imports && s.imports[i].phase == Waiting
      && t == s.(imports := s.imports[i := s.imports[i].(phase := Refused)])
    case Discover(i, ok) =>
      && i in s.imports && s.imports[i].phase == Discovering
      && t == s.(imports := s.imports[i := s.imports[i].(phase := DisablesDue, discovered := ok)])
    case RunSection(i, now) =>
      && i in s.imports && SectionOf(s.imports[i].phase).Some?
      && var imp := s.imports[i];
      && var section := SectionOf(imp.phase).value;
      && t.imports == s.imports[i := imp.(phase := NextPhase(imp.phase))]
      && (if Writes(s.db, imp, section) then
            t.db == SectionEffect(s.db, imp, section, now) && t.log == s.log + [Wrote(i, imp.seqNo, section)]
          else
            t.db == s.db && t.log == s.log)
    case SectionFails(i) =>
      && i in s.imports && SectionOf(s.imports[i].phase).Some?
      && t == s.(imports := s.imports[i := s.imports[i].(phase := NextPhase(s.imports[i].phase))])
    case Environment =>
      && t.db == s.db.(models := t.db.models, groups := t.db.groups, autoEcho := t.db.autoEcho)
      && t.imports == s.imports && t.log == s.log
    case Edit =>
      && t.db == s.db.(providers := t.db.providers, users := t.db.users, keys := t.db.keys, settings := t.db.settings,
                       models := t.db.models, groups := t.db.groups, autoEcho := t.db.autoEcho)
      && t.imports == s.imports && t.log == s.log
  }

  ghost predicate Init(s: State) {
    s.imports == map[] && s.log == []
  }

  /** A stretch of a run: states with the steps between them. */
  ghost predicate Path(policy: Policy, states: seq<State>, steps: seq<Step>) {
    && |states| == |steps| + 1
    && forall k :: 0 <= k < |steps| ==> Steps(policy, states[k], steps[k], states[k + 1])
  }

  /** A run starts on any database, with no import under way. */
  ghost predicate Run(policy: Policy, states: seq<State>, steps: seq<Step>) {
    Path(policy, states, steps) && Init(states[0])
  }

  // --- History ---

  /** The import that committed last. */
  function LastCommit(log: seq<Event>): Option<Event> {
    if log == [] then None
    else if log[|log| - 1].Committed? then Some(log[|log| - 1])
    else LastCommit(log[..|log| - 1])
  }

  /** Sequence numbers rise from commit to commit, and every write is the last committed import's. */
  ghost predicate Sound(log: seq<Event>) {
    log == [] ||
    (var before := log[..|log| - 1];
     && Sound(before)
     && match log[|log| - 1]
        case Committed(_, n, _) => forall e :: e in before && e.Committed? ==> e.seqNo < n
        case Wrote(i, n, _) => LastCommit(before).Some? && LastCommit(before).value.imp == i && LastCommit(before).value.seqNo == n)
  }

  lemma {:induction false} LastCommitIsHighest(log: seq<Event>)
    requires Sound(log)
    ensures LastCommit(log).Some? ==> LastCommit(log).value.Committed? && LastCommit(log).value in log
    ensures forall e :: e in log && e.Committed? ==> LastCommit(log).Some? && e.seqNo <= LastCommit(log).value.seqNo
    ensures forall e :: e in log && e.Committed? && e.seqNo == LastCommit(log).value.seqNo ==> e == LastCommit(log).value
  {
    if log != [] {
      var before := log[..|log| - 1];
      LastCommitIsHighest(before);
      assert forall e :: e in log <==> e in before || e == log[|log| - 1];
    }
  }

  /** The stored sequence has not outgrown the 18-digit pattern that advances it. */
  predicate SeqInPattern(s: State) {
    LastCommit(s.log).Some? ==> 0 <= ReadSeq(s.db.importSeq) < SEQ_LIMIT
  }

  predicate Past(phase: Phase) {
    phase !in {Waiting, Refused}
  }

  ghost predicate Inv(s: State) {
    && Sound(s.log)
    && (LastCommit(s.log).Some? ==> s.db.importSeq == Number(LastCommit(s.log).value.seqNo))
    && (forall i :: i in s.imports && Past(s.imports[i].phase) ==>
          Committed(i, s.imports[i].seqNo, s.imports[i].gen) in s.log)
    && (forall e :: e in s.log && e.Committed? ==>
          && e.imp in s.imports && Past(s.imports[e.imp].phase)
          && s.imports[e.imp].seqNo == e.seqNo && s.imports[e.imp].gen == e.gen)
  }

  /** A commit as the log and the two markers see it. */
  ghost predicate Numbers(s: State, i: nat, t: State) {
    && i in s.imports && s.imports[i].phase == Waiting
    && Admits(s.db.sourceGen, s.imports[i].gen)
    && t.db.sourceGen == Advanced(s.db.sourceGen, s.imports[i].gen)
    && t.db.importSeq == Number(NextSeq(s.db.importSeq))
    && t.imports == s.imports[i := s.imports[i].(phase := Discovering, seqNo := NextSeq(s.db.importSeq))]
    && t.log == s.log + [Committed(i, NextSeq(s.db.importSeq), s.imports[i].gen)]
  }

  lemma InvCommit(s: State, i: nat, t: State)
    requires Inv(s) && SeqInPattern(s) && Numbers(s, i, t)
    ensures Inv(t)
  {
    LastCommitIsHighest(s.log);
    assert t.log[..|t.log| - 1] == s.log;
  }

  /** Every other step, as the log and the two markers see it. */
  ghost predicate Marks(s: State, step: Step, t: State) {
    && SameMarkers(s.db, t.db) && (step.Edit? || SameCore(s.db, t.db))
    && (forall i :: i in s.imports ==>
          && i in t.imports && t.imports[i].gen == s.imports[i].gen
          && (Past(s.imports[i].phase) ==> Past(t.imports[i].phase) && t.imports[i].seqNo == s.imports[i].seqNo))
    && (forall i :: i in t.imports && Past(t.imports[i].phase) ==> i in s.imports && Past(s.imports[i].phase))
    && (forall i :: i in t.imports && i !in s.imports && t.imports[i].gen.Some? ==> GenInRange(t.imports[i].gen.value))
    && (t.log == s.log
        || (step.RunSection? && step.imp in s.imports && SectionOf(s.imports[step.imp].phase).Some?
            && ReadSeq(s.db.importSeq) == s.imports[step.imp].seqNo
            && t.log == s.log + [Wrote(step.imp, s.imports[step.imp].seqNo, SectionOf(s.imports[step.imp].phase).value)]))
  }

  lemma SectionMarks(policy: Policy, s: State, step: Step, t: State)
    requires Steps(policy, s, step, t) && step.RunSection?
    ensures Marks(s, step, t)
  {
    var section := SectionOf(s.imports[step.imp].phase).value;
    if Writes(s.db, s.imports[step.imp], section) {
      SectionKeepsCore(s.db, s.imports[step.imp], section, step.now);
    }
  }

  lemma StepMarks(policy: Policy, s: State, step: Step, t: State)
    requires Steps(policy, s, step, t) && !step.Commit?
    ensures Marks(s, step, t)
  {
    if step.RunSection? {
      SectionMarks(policy, s, step, t);
    }
  }

  lemma SectionKeepsCore(db: Member, imp: Import, section: Section, now: int)
    requires Carries(imp.env, section)
    ensures SameCore(db, SectionEffect(db, imp, section, now))
  {
  }

  lemma InvOther(s: State, step: Step, t: State)
    requires Inv(s) && Marks(s, step, t)
    ensures Inv(t)
  {
    LastCommitIsHighest(s.log);
    if t.log != s.log {
      assert t.log[..|t.log| - 1] == s.log;
      assert Committed(step.imp, s.imports[step.imp].seqNo, s.imports[step.imp].gen) in s.log;
    }
  }

  ghost predicate Moves(s: State, step: Step, t: State) {
    if step.Commit? then Numbers(s, step.imp, t) else Marks(s, step, t)
  }

  lemma StepMoves(policy: Policy, s: State, step: Step, t: State)
    requires Steps(policy, s, step, t)
    ensures Moves(s, step, t)
  {
    if !step.Commit? {
      StepMarks(policy, s, step, t);
    }
  }

  lemma InvStep(s: State, step: Step, t: State)
    requires Inv(s) && Moves(s, step, t) && SeqInPattern(s)
    ensures Inv(t)
  {
    if step.Commit? {
      InvCommit(s, step.imp, t);
    } else {
      InvOther(s, step, t);
    }
  }

  lemma {:induction false} RunInv(policy: Policy, states: seq<State>, steps: seq<Step>, k: nat)
    requires Run(policy, states, steps) && k < |states|
    requires forall j :: 0 <= j < k ==> SeqInPattern(states[j])
    ensures Inv(states[k])
  {
    if k > 0 {
      RunInv(policy, states, steps, k - 1);
      StepMoves(policy, states[k - 1], steps[k - 1], states[k]);
      InvStep(states[k - 1], steps[k - 1], states[k]);
    }
  }

  // --- Writes belong to the newest import ---

  /** The write at position k of the log is by the import that holds the highest
      sequence number committed before it, and by no other. */
  ghost predicate WriteIsNewest(log: seq<Event>, k: nat)
    requires k < |log| && log[k].Wrote?
  {
    && (exists j :: 0 <= j < k && log[j].Committed? && log[j].imp == log[k].imp && log[j].seqNo == log[k].seqNo)
    && (forall j :: 0 <= j < k && log[j].Committed? ==>
          log[j].seqNo <= log[k].seqNo && (log[j].seqNo == log[k].seqNo ==> log[j].imp == log[k].imp))
  }

  lemma {:induction false} SoundWrites(log: seq<Event>, k: nat)
    requires Sound(log) && k < |log| && log[k].Wrote?
    ensures WriteIsNewest(log, k)
  {
    var n := |log| - 1;
    var before := log[..n];
    if k < n {
      SoundWrites(before, k);
      assert forall j :: 0 <= j <= k ==> before[j] == log[j];
      var j :| 0 <= j < k && before[j].Committed? && before[j].imp == before[k].imp && before[j].seqNo == before[k].seqNo;
      assert log[j].Committed?;
    } else {
      LastCommitIsHighest(before);
      var e := LastCommit(before).value;
      var j :| 0 <= j < n && before[j] == e;
      assert log[j] == e;
      forall j | 0 <= j < k && log[j].Committed? ensures log[j].seqNo <= log[k].seqNo && (log[j].seqNo == log[k].seqNo ==> log[j].imp == log[k].imp) {
        assert log[j] in before by { assert before[j] == log[j]; }
      }
    }
  }

  /** In every interleaving of any number of imports, every write by a post-commit
      section belongs to the import with the highest sequence number committed so far. */
  lemma EveryWriteIsNewest(policy: Policy, states: seq<State>, steps: seq<Step>, k: nat)
    requires Run(policy, states, steps)
    requires forall j :: 0 <= j < |states| ==> SeqInPattern(states[j])
    requires var log := states[|states| - 1].log; k < |log| && log[k].Wrote?
    ensures WriteIsNewest(states[|states| - 1].log, k)
  {
    RunInv(policy, states, steps, |states| - 1);
    SoundWrites(states[|states| - 1].log, k);
  }

  // --- The newest import decides ---

  /** The member's own changes to its rows. */
  predicate Outside(step: Step) {
    step.Environment? || step.Edit?
  }

  /** Nothing commits and the member itself changes no row: sections of any imports
      run or fail, and imports arrive, are refused or discover. */
  predicate Quiet(step: Step) {
    !step.Commit? && !Outside(step)
  }

  ghost predicate Newest(s: State, i: nat) {
    Inv(s) && LastCommit(s.log).Some? && LastCommit(s.log).value.imp == i
  }

  lemma NewestHoldsTheSeq(s: State, i: nat)
    requires Newest(s, i)
    ensures i in s.imports && Past(s.imports[i].phase)
    ensures forall j :: j in s.imports && Past(s.imports[j].phase) ==>
              (s.imports[j].seqNo == ReadSeq(s.db.importSeq) <==> j == i)
  {
    LastCommitIsHighest(s.log);
    forall j | j in s.imports && Past(s.imports[j].phase)
      ensures s.imports[j].seqNo == ReadSeq(s.db.importSeq) <==> j == i
    {
      assert Committed(j, s.imports[j].seqNo, s.imports[j].gen) in s.log;
    }
  }

  ghost function AfterSection(db: Member, imp: Import, section: Section, now: int): Member {
    if Carries(imp.env, section) then SectionEffect(db, imp, section, now) else db
  }

  predicate Runs(step: Step, i: nat) {
    step.RunSection? && step.imp == i
  }

  lemma NewestStays(policy: Policy, s: State, step: Step, t: State, i: nat)
    requires Newest(s, i) && Steps(policy, s, step, t) && !step.Commit?
    ensures Newest(t, i)
  {
    NewestHoldsTheSeq(s, i);
    StepMarks(policy, s, step, t);
    InvOther(s, step, t);
    if t.log != s.log {
      assert t.log[..|t.log| - 1] == s.log;
    }
  }

  /** Of any import's section, the effect is the newest one's or none. */
  lemma NewestRuns(policy: Policy, s: State, step: Step, t: State, i: nat)
    requires Newest(s, i) && Steps(policy, s, step, t) && step.RunSection?
    ensures i in s.imports && Past(s.imports[i].phase)
    ensures t.db == if step.imp == i then AfterSection(s.db, s.imports[i], SectionOf(s.imports[i].phase).value, step.now) else s.db
    ensures step.imp != i ==> t.log == s.log
  {
    NewestHoldsTheSeq(s, i);
    assert Past(s.imports[step.imp].phase);
  }

  /** Until the next commit, the newest import stays the newest, only its own sections
      write, and each of them writes. */
  lemma NewestStep(policy: Policy, s: State, step: Step, t: State, i: nat)
    requires Newest(s, i) && Steps(policy, s, step, t) && !step.Commit?
    ensures Newest(t, i) && i in s.imports && i in t.imports
    ensures Past(s.imports[i].phase) && t.imports[i].env == s.imports[i].env
    ensures Runs(step, i) ==>
              SectionOf(s.imports[i].phase).Some?
              && t.imports[i] == s.imports[i].(phase := NextPhase(s.imports[i].phase))
              && t.db == AfterSection(s.db, s.imports[i], SectionOf(s.imports[i].phase).value, step.now)
    ensures !Runs(step, i) ==> t.log == s.log && (!Outside(step) ==> t.db == s.db)
    ensures !Runs(step, i) && step != SectionFails(i) && !(step.Discover? && step.imp == i) ==> t.imports[i] == s.imports[i]
    ensures s.imports[i].phase == Finished ==> t.imports[i] == s.imports[i] && t.log == s.log
  {
    NewestStays(policy, s, step, t, i);
    NewestHoldsTheSeq(s, i);
    if step.RunSection? {
      NewestRuns(policy, s, step, t, i);
    }
  }

  /** What the newest import has made of the database its sections found, by the phase it
      has reached. `now` is the time its pin section ran at. */
  ghost function Settled(start: Member, imp: Import, now: int, phase: Phase): Member {
    var disabled := AfterSection(start, imp, Disables, now);
    var pinned := AfterSection(disabled, imp, Pins, now);
    match phase
    case PinsDue => disabled
    case GroupsDue => pinned
    case Finished => AfterSection(pinned, imp, Groups, now)
    case _ => start
  }

  /** The database is a function of the newest import and of the rows it found. */
  ghost predicate Decides(start: Member, imp: Import, now: int, s: State, i: nat) {
    i in s.imports && s.imports[i] == imp.(phase := s.imports[i].phase)
    && (s.imports[i].phase == Finished || SectionOf(s.imports[i].phase).Some?)
    && s.db == Settled(start, imp, now, s.imports[i].phase)
  }

  lemma SettledStep(start: Member, imp: Import, now: int, phase: Phase, at: int)
    requires SectionOf(phase).Some?
    ensures exists later :: Settled(start, imp, later, NextPhase(phase))
                            == AfterSection(Settled(start, imp, now, phase), imp, SectionOf(phase).value, at)
  {
    assert NextPhase(DisablesDue) == PinsDue && NextPhase(PinsDue) == GroupsDue && NextPhase(GroupsDue) == Finished;
    match phase
    case PinsDue =>
      assert AfterSection(start, imp, Disables, now) == AfterSection(start, imp, Disables, at);
      assert Settled(start, imp, at, GroupsDue) == AfterSection(Settled(start, imp, now, phase), imp, Pins, at);
    case DisablesDue =>
      assert Settled(start, imp, now, NextPhase(phase)) == AfterSection(Settled(start, imp, now, phase), imp, Disables, at);
    case GroupsDue =>
      assert Settled(start, imp, now, Finished) == AfterSection(Settled(start, imp, now, phase), imp, Groups, at);
  }

  /** From the newest import's first section on, while nothing commits, the member's own rows
      stand still and none of its sections fails, whatever older imports' sections, arrivals and
      refusals interleave: the database is exactly what its sections make of the rows found. */
  lemma {:induction false} NewestDecides(policy: Policy, states: seq<State>, steps: seq<Step>, i: nat)
    requires Path(policy, states, steps)
    requires Newest(states[0], i) && i in states[0].imports && states[0].imports[i].phase == DisablesDue
    requires forall k :: 0 <= k < |steps| ==> Quiet(steps[k]) && steps[k] != SectionFails(i)
    ensures var last := states[|steps|];
            Newest(last, i) && exists now :: Decides(states[0].db, states[0].imports[i], now, last, i)
  {
    var start, imp := states[0].db, states[0].imports[i];
    if steps == [] {
      assert Decides(start, imp, 0, states[0], i);
    } else {
      var n := |steps| - 1;
      NewestDecides(policy, states[..n + 1], steps[..n], i);
      var now :| Decides(start, imp, now, states[n], i);
      NewestStep(policy, states[n], steps[n], states[n + 1], i);
      if Runs(steps[n], i) {
        var phase := states[n].imports[i].phase;
        SettledStep(start, imp, now, phase, steps[n].now);
        var later :| Settled(start, imp, later, NextPhase(phase))
                     == AfterSection(Settled(start, imp, now, phase), imp, SectionOf(phase).value, steps[n].now);
        SectionReads(states[n].db, imp, states[n].imports[i], SectionOf(phase).value, steps[n].now);
        assert Decides(start, imp, later, states[n + 1], i);
      } else {
        assert Decides(start, imp, now, states[n + 1], i);
      }
    }
  }

  lemma SectionReads(db: Member, a: Import, b: Import, section: Section, now: int)
    requires b == a.(phase := b.phase)
    ensures AfterSection(db, a, section, now) == AfterSection(db, b, section, now)
  {
  }

  /** Once the newest import has finished, no section writes again before the next commit,
      whatever the member's own discovery and dashboard do to its rows meanwhile. */
  lemma {:induction false} FinishedSilences(policy: Policy, states: seq<State>, steps: seq<Step>, i: nat)
    requires Path(policy, states, steps)
    requires Newest(states[0], i) && i in states[0].imports && states[0].imports[i].phase == Finished
    requires forall k :: 0 <= k < |steps| ==> !steps[k].Commit?
    ensures var last := states[|steps|];
            && Newest(last, i) && i in last.imports && last.imports[i] == states[0].imports[i]
            && last.log == states[0].log
            && ((forall k :: 0 <= k < |steps| ==> !Outside(steps[k])) ==> last.db == states[0].db)
  {
    if steps != [] {
      var n := |steps| - 1;
      FinishedSilences(policy, states[..n + 1], steps[..n], i);
      NewestStep(policy, states[n], steps[n], states[n + 1], i);
    }
  }

  // --- ... as if it were alone ---

  /** The steps of the newest import after its commit, and the member's own. */
  predicate Kept(step: Step, i: nat) {
    Outside(step) || ((step.Discover? || step.RunSection? || step.SectionFails?) && step.imp == i)
  }

  function KeptSteps(steps: seq<Step>, i: nat): seq<Step> {
    if steps == [] then []
    else KeptSteps(steps[..|steps| - 1], i) + if Kept(steps[|steps| - 1], i) then [steps[|steps| - 1]] else []
  }

  /** The state, had there never been another import. */
  ghost function Alone(s: State, i: nat): State
    requires i in s.imports
  {
    s.(imports := map[i := s.imports[i]])
  }

  /** A step of the newest import or of the member is the same step without the other imports. */
  lemma KeptStep(policy: Policy, s: State, step: Step, t: State, i: nat)
    requires i in s.imports && Steps(policy, s, step, t) && Kept(step, i)
    ensures i in t.imports && Steps(policy, Alone(s, i), step, Alone(t, i))
  {
    if !Outside(step) {
      assert Alone(t, i).imports == Alone(s, i).imports[i := t.imports[i]];
    }
  }

  /** Any other step is none. */
  lemma DroppedStep(policy: Policy, s: State, step: Step, t: State, i: nat)
    requires Newest(s, i) && Steps(policy, s, step, t) && !step.Commit? && !Kept(step, i)
    ensures i in s.imports && i in t.imports && Alone(t, i) == Alone(s, i)
  {
    NewestStep(policy, s, step, t, i);
  }

  lemma PathGrows(policy: Policy, states: seq<State>, steps: seq<Step>, step: Step, t: State)
    requires Path(policy, states, steps) && Steps(policy, states[|steps|], step, t)
    ensures Path(policy, states + [t], steps + [step])
  {
  }

  lemma {:induction false} NewestRunsAlone(policy: Policy, states: seq<State>, steps: seq<Step>, i: nat)
    returns (lone: seq<State>)
    requires Path(policy, states, steps) && Newest(states[0], i)
    requires forall k :: 0 <= k < |steps| ==> !steps[k].Commit?
    ensures i in states[0].imports && Newest(states[|steps|], i) && i in states[|steps|].imports
    ensures Path(policy, lone, KeptSteps(steps, i))
    ensures lone[0] == Alone(states[0], i) && lone[|lone| - 1] == Alone(states[|steps|], i)
  {
    NewestHoldsTheSeq(states[0], i);
    if steps == [] {
      lone := [Alone(states[0], i)];
    } else {
      var n := |steps| - 1;
      var s, step, t := states[n], steps[n], states[n + 1];
      lone := NewestRunsAlone(policy, states[..n + 1], steps[..n], i);
      assert Steps(policy, s, step, t);
      NewestStays(policy, s, step, t, i);
      if Kept(step, i) {
        KeptStep(policy, s, step, t, i);
        PathGrows(policy, lone, KeptSteps(steps[..n], i), step, Alone(t, i));
        lone := lone + [Alone(t, i)];
      } else {
        DroppedStep(policy, s, step, t, i);
      }
    }
  }

  lemma Rest(policy: Policy, states: seq<State>, steps: seq<Step>, a: nat)
    requires Path(policy, states, steps) && a <= |steps|
    ensures Path(policy, states[a..], steps[a..])
  {
    forall k | 0 <= k < |steps[a..]| ensures Steps(policy, states[a..][k], steps[a..][k], states[a..][k + 1]) {
      assert Steps(policy, states[a + k], steps[a + k], states[a + k + 1]);
    }
  }

  /** From the last commit of a run on, older imports, arrivals and refusals change nothing at all:
      the same discovery, sections, failures, edits and environment steps without them are a run
      of that import alone, from the same database to the same database. */
  lemma NewestImportDecides(policy: Policy, states: seq<State>, steps: seq<Step>, a: nat, i: nat)
    requires Run(policy, states, steps) && a <= |steps|
    requires forall k :: 0 <= k < |states| ==> SeqInPattern(states[k])
    requires LastCommit(states[a].log).Some? && LastCommit(states[a].log).value.imp == i
    requires forall k :: a <= k < |steps| ==> !steps[k].Commit?
    ensures i in states[a].imports && i in states[|steps|].imports
    ensures exists lone ::
              && Path(policy, lone, KeptSteps(steps[a..], i))
              && lone[0] == Alone(states[a], i) && lone[|lone| - 1] == Alone(states[|steps|], i)
  {
    RunInv(policy, states, steps, a);
    Rest(policy, states, steps, a);
    var lone := NewestRunsAlone(policy, states[a..], steps[a..], i);
  }

  /** With the member's own rows left alone, they and the import decide the database. */
  lemma FoundRowsDecide(policy: Policy, states: seq<State>, steps: seq<Step>, a: nat, i: nat)
    requires Run(policy, states, steps) && a <= |steps|
    requires forall k :: 0 <= k < |states| ==> SeqInPattern(states[k])
    requires LastCommit(states[a].log).Some? && LastCommit(states[a].log).value.imp == i
    requires i in states[a].imports && states[a].imports[i].phase == DisablesDue
    requires forall k :: a <= k < |steps| ==> Quiet(steps[k]) && steps[k] != SectionFails(i)
    ensures exists now :: Decides(states[a].db, states[a].imports[i], now, states[|steps|], i)
  {
    RunInv(policy, states, steps, a);
    Rest(policy, states, steps, a);
    NewestDecides(policy, states[a..], steps[a..], i);
  }

  /** What the finished newest import leaves behind, in the operator's terms. */
  lemma FinishedConverges(start: Member, imp: Import, now: int, s: State, i: nat)
    requires Decides(start, imp, now, s, i) && s.imports[i].phase == Finished
    requires imp.env.disabledModels.Some? && imp.env.enabledModels.Some? && imp.env.failoverGroups.Some?
    ensures (forall r :: MI.ReportsDisabled(s.db, r) <==> r in imp.env.disabledModels.value)
            <==> MI.NoneInBoth(start, imp.env.disabledModels.value, imp.env.enabledModels.value)
    ensures forall r :: MI.ReportsPinned(s.db, r) <==> r in imp.env.enabledModels.value
    ensures s.db == FG.GroupSection(MI.BothSections(start, imp.env.disabledModels.value, imp.env.enabledModels.value, now),
                                    imp.env.failoverGroups.value, imp.discovered)
  {
    var disables, pins := imp.env.disabledModels.value, imp.env.enabledModels.value;
    var both := MI.BothSections(start, disables, pins, now);
    MI.DisablesConverge(start, disables, pins, now);
    MI.PinsConverge(start, disables, pins, now);
    forall r ensures (MI.ReportsDisabled(s.db, r) <==> MI.ReportsDisabled(both, r)) && (MI.ReportsPinned(s.db, r) <==> MI.ReportsPinned(both, r)) {
      GroupsKeepReports(both, imp.env.failoverGroups.value, imp.discovered, r);
    }
  }

  lemma GroupsKeepReports(db: Member, groups: seq<ExportGroup>, storeEcho: bool, r: ModelRef)
    ensures var after := FG.GroupSection(db, groups, storeEcho);
            && (MI.ReportsDisabled(after, r) <==> MI.ReportsDisabled(db, r))
            && (MI.ReportsPinned(after, r) <==> MI.ReportsPinned(db, r))
  {
    var after := FG.GroupSection(db, groups, storeEcho);
    assert after.models == db.models && after.providers == db.providers;
    assert forall id :: after.RefOf(id) == db.RefOf(id);
  }

  // --- The commit fence over whole runs ---

  /** The applied generation never decreases, and once there is one it stays. */
  lemma {:induction false} GenerationMonotone(policy: Policy, states: seq<State>, steps: seq<Step>)
    requires Path(policy, states, steps)
    requires forall i :: i in states[0].imports && states[0].imports[i].gen.Some? ==> GenInRange(states[0].imports[i].gen.value)
    ensures var from, to := AppliedGen(states[0].db.sourceGen), AppliedGen(states[|steps|].db.sourceGen);
            from.Some? ==> to.Some? && from.value <= to.value
    ensures forall i :: i in states[|steps|].imports && states[|steps|].imports[i].gen.Some? ==>
              GenInRange(states[|steps|].imports[i].gen.value)
  {
    if steps != [] {
      var n := |steps| - 1;
      GenerationMonotone(policy, states[..n + 1], steps[..n]);
      var step := steps[n];
      assert Steps(policy, states[n], step, states[n + 1]);
      if step.Commit? {
        StepMoves(policy, states[n], step, states[n + 1]);
        FenceMonotone(states[n].db.sourceGen, states[n].imports[step.imp].gen);
      } else {
        StepMarks(policy, states[n], step, states[n + 1]);
      }
    }
  }

  /** Generations along the commits of a log: after the first fenced commit every one is
      fenced, and none is older than any before it. */
  ghost predicate GensRise(log: seq<Event>) {
    forall a, b :: 0 <= a < b < |log| && log[a].Committed? && log[b].Committed? && log[a].gen.Some? ==>
      log[b].gen.Some? && log[a].gen.value <= log[b].gen.value
  }

  ghost predicate Fenced(s: State) {
    && GensRise(s.log)
    && (forall i :: i in s.imports && s.imports[i].gen.Some? ==> GenInRange(s.imports[i].gen.value))
    && (forall a :: 0 <= a < |s.log| && s.log[a].Committed? && s.log[a].gen.Some? ==>
          AppliedGen(s.db.sourceGen).Some? && s.log[a].gen.value <= AppliedGen(s.db.sourceGen).value)
    && (LastCommit(s.log).Some? ==>
          && LastCommit(s.log).value.Committed?
          && (LastCommit(s.log).value.gen.Some? ==> s.db.sourceGen == Number(LastCommit(s.log).value.gen.value)))
  }

  lemma FencedCommit(s: State, i: nat, t: State)
    requires Fenced(s) && Numbers(s, i, t)
    ensures Fenced(t)
  {
    FenceMonotone(s.db.sourceGen, s.imports[i].gen);
    assert t.log[..|t.log| - 1] == s.log;
  }

  lemma FencedOther(s: State, step: Step, t: State)
    requires Fenced(s) && Marks(s, step, t)
    ensures Fenced(t)
  {
    if t.log != s.log {
      assert t.log[..|t.log| - 1] == s.log;
    }
  }

  lemma FencedStep(s: State, step: Step, t: State)
    requires Fenced(s) && Moves(s, step, t)
    ensures Fenced(t)
  {
    if step.Commit? {
      FencedCommit(s, step.imp, t);
    } else {
      FencedOther(s, step, t);
    }
  }

  lemma {:induction false} RunFenced(policy: Policy, states: seq<State>, steps: seq<Step>)
    requires Run(policy, states, steps)
    ensures Fenced(states[|steps|])
  {
    if steps != [] {
      var n := |steps| - 1;
      RunFenced(policy, states[..n + 1], steps[..n]);
      StepMoves(policy, states[n], steps[n], states[n + 1]);
      FencedStep(states[n], steps[n], states[n + 1]);
    }
  }

  lemma {:induction false} LastCommitIsLast(log: seq<Event>, a: nat)
    requires a < |log| && log[a].Committed?
    ensures LastCommit(log).Some?
    ensures exists b :: a <= b < |log| && log[b] == LastCommit(log).value && log[b].Committed?
  {
    var n := |log| - 1;
    if !log[n].Committed? {
      LastCommitIsLast(log[..n], a);
    }
  }

  /** Over every run: after the first fenced commit no headerless import commits, no commit is
      older than one before it, and the last committed generation is the highest ever. */
  lemma CommitsAreFenced(policy: Policy, states: seq<State>, steps: seq<Step>)
    requires Run(policy, states, steps)
    ensures GensRise(states[|steps|].log)
    ensures forall a :: 0 <= a < |states[|steps|].log| && states[|steps|].log[a].Committed? && states[|steps|].log[a].gen.Some? ==>
              var newest := LastCommit(states[|steps|].log);
              newest.Some? && newest.value.Committed? && newest.value.gen.Some? && states[|steps|].log[a].gen.value <= newest.value.gen.value
              && states[|steps|].db.sourceGen == Number(newest.value.gen.value)
  {
    RunFenced(policy, states, steps);
    var log := states[|steps|].log;
    forall a | 0 <= a < |log| && log[a].Committed? && log[a].gen.Some?
      ensures LastCommit(log).Some? && LastCommit(log).value.Committed? && LastCommit(log).value.gen.Some? && log[a].gen.value <= LastCommit(log).value.gen.value
    {
      LastCommitIsLast(log, a);
    }
  }

  lemma SameCoreStep(policy: Policy, s: State, step: Step, t: State)
    requires Steps(policy, s, step, t) && !step.Commit?
    ensures SameMarkers(s.db, t.db) && (step.Edit? || SameCore(s.db, t.db)) && LastCommit(t.log) == LastCommit(s.log)
  {
    StepMarks(policy, s, step, t);
    if t.log != s.log {
      assert t.log[..|t.log| - 1] == s.log;
    }
  }

  predicate NoneCommits(steps: seq<Step>, from: nat) { forall k :: from <= k < |steps| ==> !steps[k].Commit? }

  predicate NoneEdits(steps: seq<Step>, from: nat) { forall k :: from <= k < |steps| ==> !steps[k].Edit? }

  /** Without a commit the markers stand still; without an edit either, the core tables. */
  lemma {:induction false} CoreStays(policy: Policy, states: seq<State>, steps: seq<Step>, from: nat)
    requires Path(policy, states, steps) && from <= |steps| && NoneCommits(steps, from)
    ensures LastCommit(states[|steps|].log) == LastCommit(states[from].log)
    ensures SameMarkers(states[from].db, states[|steps|].db)
    ensures NoneEdits(steps, from) ==> SameCore(states[from].db, states[|steps|].db)
  {
    if from < |steps| {
      var n := |steps| - 1;
      CoreStays(policy, states[..n + 1], steps[..n], from);
      SameCoreStep(policy, states[n], steps[n], states[n + 1]);
    }
  }

  /** Behind a commit, and before the next, the markers are the ones it wrote, the log's last
      commit is it, and the core tables are what it wrote or the member's own last edit since left. */
  lemma CoreIsLastCommits(policy: Policy, states: seq<State>, steps: seq<Step>, j: nat)
    requires Path(policy, states, steps) && j < |steps| && steps[j].Commit? && NoneCommits(steps, j + 1)
    ensures var i, last := steps[j].imp, states[|steps|];
            && i in states[j].imports
            && CoreStep(policy, states[j].db, states[j].imports[i].env, states[j].imports[i].gen, states[j + 1].db)
            && LastCommit(last.log) == Some(Committed(i, ReadSeq(last.db.importSeq), states[j].imports[i].gen))
            && SameMarkers(states[j + 1].db, last.db)
            && forall k :: j < k <= |steps| && NoneEdits(steps, k) ==> SameCore(states[k].db, last.db)
  {
    assert Steps(policy, states[j], steps[j], states[j + 1]);
    CoreStays(policy, states, steps, j + 1);
    forall k | j < k <= |steps| && NoneEdits(steps, k) ensures SameCore(states[k].db, states[|steps|].db) {
      CoreStays(policy, states, steps, k);
    }
  }
}
