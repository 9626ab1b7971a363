/** TOTP enrolment racing raw-token exchange (internal/adminauth/totp.go, exchange.go, and the
    cached gate in internal/api/admin.go) as a state machine: any number of exchanges and of
    status reads, and the enrolment operations that hold one lock. A store call is one step
    that may fail; the enrolment lock decides which operation may step. */
module SecondFactor {
  import opened Wrappers

  // --- State ---

  /** The one TOTP row: none, a staged secret, or enabled with its confirmation time. */
  datatype Row = NoRow | Provisional | Confirmed(at: nat)

  /** Who a session was minted for. Only the raw-token exchange mints on one factor. */
  datatype Origin = Exchanged(x: nat) | Enroller | AdminLogin | UserLogin

  /** A raw-token exchange: gate checked, session minted, gate seen closed, cookie handed out,
      refused, or ended with a session it could not take back. */
  datatype Exchange = Arrived | Checked | Minted(tok: nat) | Caught(tok: nat) | Delivered(tok: nat) | Refused | Lost(tok: nat)

  /** How far the operation holding the enrolment lock has come. */
  datatype Op =
    | Free
    | StartLocked | StartAllowed
    | VerifyLocked | VerifyAllowed | SweptBefore | RowOn | GateOn | SweptAfter | Invalidated
    | RollingBack | RolledBack
    | DisableLocked | RowOff | DisableRefreshed

  /** A status read that missed the cache: its generation, then the time it read. */
  datatype Reader = Asked(gen: nat) | Fetched(gen: nat, at: nat)

  /** `issued` holds every session token ever minted; `secured` is history: EnrollVerify has
      returned success and 2FA has not been disabled since. */
  datatype State = State(
    row: Row, gate: bool, op: Op, cache: Option<nat>, gen: nat, readers: map<nat, Reader>,
    sessions: map<nat, Origin>, issued: set<nat>, exchanges: map<nat, Exchange>, secured: bool)

  const INITIAL := State(NoRow, false, Free, None, 0, map[], map[], {}, map[], false)

  datatype Step =
    | ExchangeArrives(x: nat)
    | ExchangeChecks(x: nat, tokenValid: bool)
    | ExchangeMints(x: nat, tok: nat, ok: bool)
    | ExchangeRechecks(x: nat)
    | ExchangeRevokes(x: nat, ok: bool)
    | LockStart | StartReads | StartEnrolls(ok: bool)
    | LockVerify | VerifyReads(accepted: bool) | SweepsBefore(ok: bool) | Enables(ok: bool, at: nat) | Refreshes(ok: bool)
    | SweepsAfter(ok: bool) | Invalidates | MintsEnroller(tok: nat, ok: bool)
    | RollsBack(ok: bool) | RefreshesBack(ok: bool)
    | LockDisable | Deletes(authorized: bool) | RefreshesOff(ok: bool) | InvalidatesOff
    | Asks(r: nat) | Fetches(r: nat, ok: bool) | Publishes(r: nat)
    | LoginMints(tok: nat, origin: Origin)
    | SessionEnds(tok: nat)
    | Restarts(ok: bool)

  // --- What a step does; None where it cannot happen ---

  /** RefreshTotpEnabled: the row's state, or closed when it cannot be read. */
  function Refreshed(s: State, ok: bool): State { s.(gate := !ok || s.row.Confirmed?) }

  /** RevokeOtherSessions for the admin: every admin session goes. */
  function Swept(s: State): State {
    s.(sessions := map tok | tok in s.sessions && s.sessions[tok].UserLogin? :: s.sessions[tok])
  }

  /** invalidateEnabledAt. */
  function Dropped(s: State): State { s.(cache := None, gen := s.gen + 1) }

  function Now(s: State, x: nat, e: Exchange): State { s.(exchanges := s.exchanges[x := e]) }

  function ExchangeStep(s: State, step: Step): Option<State> {
    match step
    case ExchangeArrives(x) => if x in s.exchanges then None else Some(Now(s, x, Arrived))
    case ExchangeChecks(x, valid) =>
      if x !in s.exchanges || s.exchanges[x] != Arrived then None
      else Some(Now(s, x, if s.gate || !valid then Refused else Checked))
    case ExchangeMints(x, tok, ok) =>
      if x !in s.exchanges || s.exchanges[x] != Checked || tok in s.issued then None
      else if !ok then Some(Now(s, x, Refused))
      else Some(Now(s, x, Minted(tok)).(sessions := s.sessions[tok := Exchanged(x)], issued := s.issued + {tok}))
    case ExchangeRechecks(x) =>
      if x !in s.exchanges || !s.exchanges[x].Minted? then None
      else Some(Now(s, x, if s.gate then Caught(s.exchanges[x].tok) else Delivered(s.exchanges[x].tok)))
    case ExchangeRevokes(x, ok) =>
      if x !in s.exchanges || !s.exchanges[x].Caught? then None
      else if ok then Some(Now(s, x, Refused).(sessions := s.sessions - {s.exchanges[x].tok}))
      else Some(Now(s, x, Lost(s.exchanges[x].tok)))
    case _ => None
  }

  function EnrollStep(s: State, step: Step): Option<State> {
    match step
    case LockStart => if s.op == Free then Some(s.(op := StartLocked)) else None
    case StartReads => if s.op == StartLocked then Some(s.(op := if s.gate then Free else StartAllowed)) else None
    case StartEnrolls(ok) =>
      if s.op != StartAllowed then None else Some(s.(op := Free, row := if ok then Provisional else s.row))
    case LockVerify => if s.op == Free then Some(s.(op := VerifyLocked)) else None
    case VerifyReads(accepted) =>
      // The gate, then the code and the recovery codes.
      if s.op != VerifyLocked then None
      else Some(s.(op := if s.gate || !accepted || s.row == NoRow then Free else VerifyAllowed))
    case SweepsBefore(ok) =>
      if s.op != VerifyAllowed then None else Some(if ok then Swept(s).(op := SweptBefore) else s.(op := Free))
    case Enables(ok, at) =>
      if s.op != SweptBefore then None else Some(if ok then s.(op := RowOn, row := Confirmed(at)) else s.(op := Free))
    case Refreshes(ok) => if s.op != RowOn then None else Some(Refreshed(s, ok).(op := GateOn))
    case SweepsAfter(ok) =>
      if s.op != GateOn then None else Some(if ok then Swept(s).(op := SweptAfter) else s.(op := RollingBack))
    case Invalidates => if s.op != SweptAfter then None else Some(Dropped(s).(op := Invalidated))
    case MintsEnroller(tok, ok) =>
      if s.op != Invalidated || tok in s.issued then None
      else
        var done := s.(op := Free, secured := true);
        Some(if ok then done.(sessions := s.sessions[tok := Enroller], issued := s.issued + {tok}) else done)
    case RollsBack(ok) =>
      if s.op != RollingBack then None else Some(s.(op := RolledBack, row := if ok then NoRow else s.row))
    case RefreshesBack(ok) => if s.op != RolledBack then None else Some(Refreshed(s, ok).(op := Free))
    case _ => None
  }

  function DisableStep(s: State, step: Step): Option<State> {
    match step
    case LockDisable => if s.op == Free then Some(s.(op := DisableLocked)) else None
    case Deletes(authorized) =>
      if s.op != DisableLocked then None
      else Some(if authorized && s.row != NoRow then s.(op := RowOff, row := NoRow, secured := false) else s.(op := Free))
    case RefreshesOff(ok) => if s.op != RowOff then None else Some(Refreshed(s, ok).(op := DisableRefreshed))
    case InvalidatesOff => if s.op != DisableRefreshed then None else Some(Dropped(s).(op := Free))
    case _ => None
  }

  function StatusStep(s: State, step: Step): Option<State> {
    match step
    case Asks(r) => if r in s.readers then None else Some(s.(readers := s.readers[r := Asked(s.gen)]))
    case Fetches(r, ok) =>
      if r !in s.readers || !s.readers[r].Asked? then None
      else if ok && s.row.Confirmed? then Some(s.(readers := s.readers[r := Fetched(s.readers[r].gen, s.row.at)]))
      else Some(s.(readers := s.readers - {r}))
    case Publishes(r) =>
      if r !in s.readers || !s.readers[r].Fetched? then None
      else
        var done := s.(readers := s.readers - {r});
        Some(if s.readers[r].gen == s.gen then done.(cache := Some(s.readers[r].at)) else done)
    case _ => None
  }

  /** What a restart makes of an exchange: one under way answers nobody. */
  function AfterRestart(e: Exchange): Exchange {
    match e
    case Minted(tok) => Lost(tok)
    case Caught(tok) => Lost(tok)
    case Delivered(_) => e
    case Lost(_) => e
    case _ => Refused
  }

  function OtherStep(s: State, step: Step): Option<State> {
    match step
    case LoginMints(tok, origin) =>
      if tok in s.issued || origin.Exchanged? then None
      else Some(s.(sessions := s.sessions[tok := origin], issued := s.issued + {tok}))
    case SessionEnds(tok) => Some(s.(sessions := s.sessions - {tok}))
    case Restarts(ok) =>
      Some(Refreshed(s, ok).(op := Free, cache := None, gen := 0, readers := map[],
                             exchanges := map x | x in s.exchanges :: AfterRestart(s.exchanges[x])))
    case _ => None
  }

  function Next(s: State, step: Step): Option<State> {
    if step.ExchangeArrives? || step.ExchangeChecks? || step.ExchangeMints? || step.ExchangeRechecks? || step.ExchangeRevokes? then
      ExchangeStep(s, step)
    else if step.LockDisable? || step.Deletes? || step.RefreshesOff? || step.InvalidatesOff? then DisableStep(s, step)
    else if step.Asks? || step.Fetches? || step.Publishes? then StatusStep(s, step)
    else if step.LoginMints? || step.SessionEnds? || step.Restarts? then OtherStep(s, step)
    else EnrollStep(s, step)
  }

  /** Every interleaving: the state a list of steps leads to, if each could happen in turn. */
  function After(steps: seq<Step>): Option<State> {
    if steps == [] then Some(INITIAL)
    else
      match After(steps[..|steps| - 1])
      case None => None
      case Some(s) => Next(s, steps[|steps| - 1])
  }

  // --- No one-factor session outlives enrolment ---

  /** No session a client was handed on the token alone is live. */
  ghost predicate NoneDelivered(s: State) {
    forall x :: x in s.exchanges && s.exchanges[x].Delivered? ==> s.exchanges[x].tok !in s.sessions
  }

  predicate HasToken(e: Exchange) { e.Minted? || e.Caught? || e.Delivered? || e.Lost? }

  /** An exchange and its session, while it lives, know each other. */
  ghost predicate Owned(s: State) {
    && (forall tok :: tok in s.sessions ==> tok in s.issued)
    && (forall x :: x in s.exchanges && HasToken(s.exchanges[x]) ==>
          s.exchanges[x].tok in s.issued
          && (s.exchanges[x].tok in s.sessions ==> s.sessions[s.exchanges[x].tok] == Exchanged(x)))
    && (forall tok :: tok in s.sessions && s.sessions[tok].Exchanged? ==>
          var x := s.sessions[tok].x;
          x in s.exchanges && HasToken(s.exchanges[x]) && s.exchanges[x].tok == tok)
  }

  /** Nothing done yet under the lock, or nothing held. */
  predicate Untouched(op: Op) { op in {Free, StartLocked, VerifyLocked, DisableLocked} }

  ghost predicate Locked(s: State) {
    && (s.secured ==> Untouched(s.op) && s.gate && s.row.Confirmed? && NoneDelivered(s))
    && (s.op in {SweptAfter, Invalidated} ==> s.gate && s.row.Confirmed? && NoneDelivered(s))
    && (s.op == GateOn ==> s.gate && s.row.Confirmed?)
    && (s.op == RowOn ==> s.row.Confirmed?)
    && (s.op in {StartAllowed, VerifyAllowed, SweptBefore} ==> !s.gate && !s.row.Confirmed?)
    && (s.op in {RowOff, DisableRefreshed} ==> s.row == NoRow)
    && (Untouched(s.op) && !s.gate ==> !s.row.Confirmed?)
  }

  lemma MintKeeps(s: State, x: nat, tok: nat, ok: bool)
    requires Owned(s) && Locked(s) && ExchangeStep(s, ExchangeMints(x, tok, ok)).Some?
    ensures var t := ExchangeStep(s, ExchangeMints(x, tok, ok)).value; Owned(t) && Locked(t)
  {
  }

  /** The recheck delivers a session only while the gate is open. */
  lemma RecheckKeeps(s: State, x: nat)
    requires Owned(s) && Locked(s) && ExchangeStep(s, ExchangeRechecks(x)).Some?
    ensures var t := ExchangeStep(s, ExchangeRechecks(x)).value; Owned(t) && Locked(t)
  {
    var t := ExchangeStep(s, ExchangeRechecks(x)).value;
    if s.gate { assert NoneDelivered(s) ==> NoneDelivered(t); }
  }

  lemma RevokeKeeps(s: State, x: nat, ok: bool)
    requires Owned(s) && Locked(s) && ExchangeStep(s, ExchangeRevokes(x, ok)).Some?
    ensures var t := ExchangeStep(s, ExchangeRevokes(x, ok)).value; Owned(t) && Locked(t)
  {
  }

  lemma ExchangeKeeps(s: State, step: Step)
    requires Owned(s) && Locked(s) && ExchangeStep(s, step).Some?
    ensures Owned(ExchangeStep(s, step).value) && Locked(ExchangeStep(s, step).value)
  {
    match step
    case ExchangeMints(x, tok, ok) => MintKeeps(s, x, tok, ok);
    case ExchangeRechecks(x) => RecheckKeeps(s, x);
    case ExchangeRevokes(x, ok) => RevokeKeeps(s, x, ok);
    case _ =>
  }

  lemma SweepKeeps(s: State, op: Op)
    requires Owned(s) && Locked(s) && s.op in {VerifyAllowed, GateOn}
    requires op == if s.op == GateOn then SweptAfter else SweptBefore
    ensures Owned(Swept(s)) && Locked(Swept(s).(op := op)) && NoneDelivered(Swept(s))
  {
  }

  lemma SuccessKeeps(s: State, tok: nat, ok: bool)
    requires Owned(s) && Locked(s) && EnrollStep(s, MintsEnroller(tok, ok)).Some?
    ensures var t := EnrollStep(s, MintsEnroller(tok, ok)).value; Owned(t) && Locked(t)
  {
  }

  lemma EnrollKeeps(s: State, step: Step)
    requires Owned(s) && Locked(s) && EnrollStep(s, step).Some?
    ensures Owned(EnrollStep(s, step).value) && Locked(EnrollStep(s, step).value)
  {
    var t := EnrollStep(s, step).value;
    match step
    case SweepsBefore(ok) => if ok { SweepKeeps(s, SweptBefore); }
    case SweepsAfter(ok) => if ok { SweepKeeps(s, SweptAfter); }
    case MintsEnroller(tok, ok) => SuccessKeeps(s, tok, ok);
    case _ => RowStepKeeps(s, t);
  }

  /** A step that touches no session and no exchange. */
  lemma RowStepKeeps(s: State, t: State)
    requires Owned(s) && t.sessions == s.sessions && t.issued == s.issued && t.exchanges == s.exchanges
    ensures Owned(t) && (NoneDelivered(s) <==> NoneDelivered(t))
  {
  }

  lemma DisableKeeps(s: State, step: Step)
    requires Owned(s) && Locked(s) && DisableStep(s, step).Some?
    ensures Owned(DisableStep(s, step).value) && Locked(DisableStep(s, step).value)
  {
  }

  lemma OtherKeeps(s: State, step: Step)
    requires Owned(s) && Locked(s) && OtherStep(s, step).Some?
    ensures Owned(OtherStep(s, step).value) && Locked(OtherStep(s, step).value)
  {
  }

  lemma StepKeeps(s: State, step: Step)
    requires Owned(s) && Locked(s) && Next(s, step).Some?
    ensures Owned(Next(s, step).value) && Locked(Next(s, step).value)
  {
    if Next(s, step) == ExchangeStep(s, step) { ExchangeKeeps(s, step); }
    else if Next(s, step) == DisableStep(s, step) { DisableKeeps(s, step); }
    else if Next(s, step) == OtherStep(s, step) { OtherKeeps(s, step); }
    else if Next(s, step) == EnrollStep(s, step) { EnrollKeeps(s, step); }
  }

  lemma {:induction false} RunKeeps(steps: seq<Step>)
    requires After(steps).Some?
    ensures Owned(After(steps).value) && Locked(After(steps).value)
  {
    if steps != [] {
      var n := |steps| - 1;
      RunKeeps(steps[..n]);
      StepKeeps(After(steps[..n]).value, steps[n]);
    }
  }

  /** Over every interleaving of exchanges, enrolments, disables, logins and restarts: from the
      moment EnrollVerify has returned success until 2FA is disabled, the gate is closed and no
      session handed out on the token alone is live. A session still in an exchange's hands has
      yet to meet the closed gate. */
  lemma NoOneFactorSessionSurvives(steps: seq<Step>)
    requires After(steps).Some? && After(steps).value.secured
    ensures var s := After(steps).value;
            && s.gate && NoneDelivered(s)
            && forall tok :: tok in s.sessions && s.sessions[tok].Exchanged? ==>
                 var x := s.sessions[tok].x;
                 x in s.exchanges && var e := s.exchanges[x];
                 e == Minted(tok) || e == Caught(tok) || e == Lost(tok)
  {
    RunKeeps(steps);
  }

  /** A revocation that fails, or a restart between mint and answer. */
  predicate Loses(step: Step) {
    step.Restarts? || (step.ExchangeRevokes? && !step.ok)
  }

  lemma {:induction false} NothingLost(steps: seq<Step>)
    requires After(steps).Some? && forall k :: 0 <= k < |steps| ==> !Loses(steps[k])
    ensures forall x :: x in After(steps).value.exchanges ==> !After(steps).value.exchanges[x].Lost?
  {
    if steps != [] {
      NothingLost(steps[..|steps| - 1]);
    }
  }

  /** When revocations succeed, a one-factor session live under 2FA belongs to an exchange that
      is about to end it, and none is left once every exchange has finished. */
  lemma OneFactorSessionsDie(steps: seq<Step>)
    requires After(steps).Some? && After(steps).value.secured
    requires forall k :: 0 <= k < |steps| ==> !Loses(steps[k])
    requires forall x :: x in After(steps).value.exchanges ==>
               !After(steps).value.exchanges[x].Minted? && !After(steps).value.exchanges[x].Caught?
    ensures forall tok :: tok in After(steps).value.sessions ==> !After(steps).value.sessions[tok].Exchanged?
  {
    NoOneFactorSessionSurvives(steps);
    NothingLost(steps);
  }

  // --- The confirmed-at cache ---

  /** With the lock free and the gate on, the cached stamp is absent or the row's own. */
  predicate Coherent(s: State) {
    s.op == Free && s.gate && s.cache.Some? ==> s.row == Confirmed(s.cache.value)
  }

  /** A stamp the cache holds, or that a read in flight can still publish. */
  ghost predicate Loose(s: State, at: nat) {
    s.cache == Some(at) || exists r :: r in s.readers && s.readers[r] == Fetched(s.gen, at)
  }

  ghost predicate StampsRight(s: State) {
    forall at :: Loose(s, at) ==> s.row == Confirmed(at)
  }

  ghost predicate Settled(s: State) {
    && (forall r :: r in s.readers ==> s.readers[r].gen <= s.gen)
    && (Untouched(s.op) && s.gate ==> StampsRight(s))
    && (s.op == Invalidated ==> StampsRight(s))
  }

  /** A rollback whose row delete and whose refresh both succeed. */
  predicate Clean(step: Step) {
    (step.RollsBack? ==> step.ok) && (step.RefreshesBack? ==> step.ok)
  }

  lemma SameStamps(s: State, t: State)
    requires t.cache == s.cache && t.gen == s.gen && t.readers == s.readers && t.row == s.row
    ensures StampsRight(t) <==> StampsRight(s)
  {
    assert forall at :: Loose(t, at) <==> Loose(s, at);
  }

  lemma DroppedStamps(s: State)
    requires forall r :: r in s.readers ==> s.readers[r].gen <= s.gen
    ensures StampsRight(Dropped(s))
  {
    assert forall at :: !Loose(Dropped(s), at);
  }

  /** Publishing, or giving up, makes no stamp loose that was not. */
  lemma ReadKeepsStamps(s: State, step: Step)
    requires Settled(s) && StatusStep(s, step).Some?
    ensures Settled(StatusStep(s, step).value)
  {
    var t := StatusStep(s, step).value;
    if StampsRight(s) {
      forall at | Loose(t, at) ensures t.row == Confirmed(at) {
        if !Loose(s, at) {
          assert step.Fetches? && at == s.row.at;
        }
      }
    }
  }

  /** A step that leaves the row, the cache and the reads alone, and is not a refresh. */
  lemma QuietSettles(s: State, t: State)
    requires Settled(s) && t.cache == s.cache && t.gen == s.gen && t.readers == s.readers && t.row == s.row
    requires t.op != Invalidated || s.op == Invalidated
    requires Untouched(t.op) && t.gate ==> (Untouched(s.op) && s.gate) || s.op == Invalidated
    ensures Settled(t)
  {
    SameStamps(s, t);
  }

  /** Elsewhere the stamps are not claimed to be right. */
  lemma BusySettles(s: State, t: State)
    requires Settled(s) && t.gen == s.gen && t.readers == s.readers
    requires t.op != Invalidated && !(Untouched(t.op) && t.gate)
    ensures Settled(t)
  {
  }

  lemma EnrollSettles(s: State, step: Step)
    requires Settled(s) && Locked(s) && EnrollStep(s, step).Some? && Clean(step)
    requires s.op == RolledBack ==> s.row == NoRow
    ensures Settled(EnrollStep(s, step).value)
    ensures EnrollStep(s, step).value.op == RolledBack ==> EnrollStep(s, step).value.row == NoRow
  {
    var t := EnrollStep(s, step).value;
    if step.Invalidates? {
      DroppedStamps(s);
      SameStamps(Dropped(s), t);
    } else if Untouched(t.op) && t.gate {
      QuietSettles(s, t);
    } else {
      BusySettles(s, t);
    }
  }

  lemma DisableSettles(s: State, step: Step)
    requires Settled(s) && Locked(s) && DisableStep(s, step).Some?
    ensures Settled(DisableStep(s, step).value)
  {
    var t := DisableStep(s, step).value;
    if step.InvalidatesOff? {
      DroppedStamps(s);
      SameStamps(Dropped(s), t);
    } else if Untouched(t.op) {
      QuietSettles(s, t);
    } else {
      BusySettles(s, t);
    }
  }

  lemma OtherSettles(s: State, step: Step)
    requires Settled(s) && OtherStep(s, step).Some?
    ensures Settled(OtherStep(s, step).value)
  {
    var t := OtherStep(s, step).value;
    if step.Restarts? {
      assert forall at :: !Loose(t, at);
    } else {
      QuietSettles(s, t);
    }
  }

  lemma ExchangeSettles(s: State, step: Step)
    requires Settled(s) && ExchangeStep(s, step).Some?
    ensures Settled(ExchangeStep(s, step).value)
  {
    QuietSettles(s, ExchangeStep(s, step).value);
  }

  lemma StepSettles(s: State, step: Step)
    requires Settled(s) && Locked(s) && Next(s, step).Some? && Clean(step)
    requires s.op == RolledBack ==> s.row == NoRow
    ensures Settled(Next(s, step).value)
    ensures Next(s, step).value.op == RolledBack ==> Next(s, step).value.row == NoRow
  {
    if Next(s, step) == ExchangeStep(s, step) { ExchangeSettles(s, step); }
    else if Next(s, step) == DisableStep(s, step) { DisableSettles(s, step); }
    else if Next(s, step) == StatusStep(s, step) { ReadKeepsStamps(s, step); }
    else if Next(s, step) == OtherStep(s, step) { OtherSettles(s, step); }
    else { EnrollSettles(s, step); }
  }

  lemma {:induction false} RunSettles(steps: seq<Step>)
    requires After(steps).Some? && forall k :: 0 <= k < |steps| ==> Clean(steps[k])
    ensures var s := After(steps).value;
            Settled(s) && (s.op == RolledBack ==> s.row == NoRow)
  {
    if steps == [] {
      assert forall at :: !Loose(INITIAL, at);
    } else {
      var n := |steps| - 1;
      RunSettles(steps[..n]);
      RunKeeps(steps[..n]);
      StepSettles(After(steps[..n]).value, steps[n]);
    }
  }

  /** With any number of status reads in flight: whenever the lock is free and the gate is on,
      the cached stamp is absent or the row's, provided every rollback so far was clean. */
  lemma CacheCoherent(steps: seq<Step>)
    requires After(steps).Some? && forall k :: 0 <= k < |steps| ==> Clean(steps[k])
    ensures Coherent(After(steps).value)
  {
    RunSettles(steps);
    var s := After(steps).value;
    if s.op == Free && s.gate && s.cache.Some? {
      assert Loose(s, s.cache.value);
    }
  }

  // --- Neither half of a clean rollback can be dropped ---

  function Runs(s: State, steps: seq<Step>): Option<State>
    decreases |steps|
  {
    if steps == [] then Some(s)
    else match Next(s, steps[0]) case None => None case Some(t) => Runs(t, steps[1..])
  }

  predicate IsRead(step: Step) { step.Asks? || step.Fetches? || step.Publishes? }

  predicate AllReads(steps: seq<Step>) {
    forall k :: 0 <= k < |steps| ==> IsRead(steps[k])
  }

  lemma ReadStays(s: State, step: Step)
    requires IsRead(step) && Next(s, step).Some?
    ensures var t := Next(s, step).value;
            t.gate == s.gate && t.op == s.op && t.row == s.row && (StampsRight(s) ==> StampsRight(t))
  {
    var t := Next(s, step).value;
    if StampsRight(s) {
      forall at | Loose(t, at) ensures t.row == Confirmed(at) {
        if !Loose(s, at) {
          assert step.Fetches? && at == s.row.at;
        }
      }
    }
  }

  lemma {:induction false} ReadsStayCoherent(s: State, later: seq<Step>)
    requires AllReads(later) && Runs(s, later).Some? && (s.gate ==> StampsRight(s))
    ensures Coherent(Runs(s, later).value)
    decreases |later|
  {
    if later == [] {
      if s.gate && s.cache.Some? {
        assert Loose(s, s.cache.value);
      }
    } else {
      assert IsRead(later[0]);
      ReadStays(s, later[0]);
      assert AllReads(later[1..]) by {
        forall k | 0 <= k < |later| - 1 ensures IsRead(later[1..][k]) {
          assert later[1..][k] == later[k + 1];
        }
      }
      ReadsStayCoherent(Next(s, later[0]).value, later[1..]);
    }
  }

  /** A wrong stamp is served as it stands, or once the read that holds it publishes it. */
  lemma LooseIsServed(s: State, at: nat) returns (later: seq<Step>)
    requires s.op == Free && s.gate && Loose(s, at) && s.row != Confirmed(at)
    ensures AllReads(later) && Runs(s, later).Some? && !Coherent(Runs(s, later).value)
  {
    if s.cache == Some(at) {
      later := [];
    } else {
      var r :| r in s.readers && s.readers[r] == Fetched(s.gen, at);
      later := [Publishes(r)];
      assert later[1..] == [];
      assert Runs(s, later) == Some(s.(readers := s.readers - {r}, cache := Some(at)));
    }
  }

  /** Whatever the history, once a rollback has ended, the status reads that follow stay coherent,
      however many there are, exactly when the rollback turned the gate off (its delete and its
      refresh both worked) or every stamp the cache or a read still holds is that of the row a
      failed delete left. Nothing invalidates the cache on this path. */
  lemma RollbackCoherentIff(s: State, ok: bool)
    requires s.op == RolledBack
    ensures var t := Next(s, RefreshesBack(ok)).value;
            (forall later :: AllReads(later) && Runs(t, later).Some? ==> Coherent(Runs(t, later).value))
            <==> (ok && !s.row.Confirmed?) || StampsRight(s)
  {
    var t := Next(s, RefreshesBack(ok)).value;
    SameStamps(s, t);
    if (ok && !s.row.Confirmed?) || StampsRight(s) {
      forall later | AllReads(later) && Runs(t, later).Some? ensures Coherent(Runs(t, later).value) {
        ReadsStayCoherent(t, later);
      }
    } else {
      var at :| Loose(s, at) && s.row != Confirmed(at);
      assert Loose(t, at);
      var later := LooseIsServed(t, at);
    }
  }

  lemma {:induction false} AfterRuns(before: seq<Step>, steps: seq<Step>)
    requires After(before).Some?
    ensures After(before + steps) == Runs(After(before).value, steps)
    decreases |steps|
  {
    if steps == [] {
      assert before + steps == before;
    } else {
      assert (before + [steps[0]])[..|before|] == before;
      assert before + steps == before + [steps[0]] + steps[1..];
      if Next(After(before).value, steps[0]).Some? {
        AfterRuns(before + [steps[0]], steps[1..]);
      } else {
        NoneStays(before + [steps[0]], steps[1..]);
      }
    }
  }

  lemma {:induction false} NoneStays(before: seq<Step>, steps: seq<Step>)
    requires After(before).None?
    ensures After(before + steps).None?
  {
    if steps == [] {
      assert before + steps == before;
    } else {
      assert (before + steps)[..|before + steps| - 1] == before + steps[..|steps| - 1];
      NoneStays(before, steps[..|steps| - 1]);
    }
  }

  predicate Leads(s: seq<State>, steps: seq<Step>, k: nat)
    requires k < |steps| && |s| == |steps| + 1
  {
    Next(s[k], steps[k]) == Some(s[k + 1])
  }

  /** Steps between known states make a run. */
  lemma {:induction false} RunsThrough(s: seq<State>, steps: seq<Step>)
    requires |s| == |steps| + 1 && forall k :: 0 <= k < |steps| ==> Leads(s, steps, k)
    ensures Runs(s[0], steps) == Some(s[|steps|])
    decreases |steps|
  {
    if steps != [] {
      assert Leads(s, steps, 0);
      forall k | 0 <= k < |steps| - 1 ensures Leads(s[1..], steps[1..], k) {
        assert Leads(s, steps, k + 1);
      }
      RunsThrough(s[1..], steps[1..]);
    }
  }

  /** Enrolling, up to the closed gate. */
  const ENROLL: seq<Step> := [LockStart, StartReads, StartEnrolls(true)]

  function Verify(at: nat): seq<Step> { [LockVerify, VerifyReads(true), SweepsBefore(true), Enables(true, at), Refreshes(true)] }

  const STATUS: seq<Step> := [Asks(0), Fetches(0, true), Publishes(0)]

  function Rollback(deleted: bool, refreshed: bool): seq<Step> { [SweepsAfter(false), RollsBack(deleted), RefreshesBack(refreshed)] }

  lemma Enrolls(s: State)
    requires s.op == Free && !s.gate
    ensures Runs(s, ENROLL) == Some(s.(row := Provisional))
  {
    RunsThrough([s, s.(op := StartLocked), s.(op := StartAllowed), s.(row := Provisional)], ENROLL);
  }

  lemma VerifySteps(s: State, at: nat)
    requires s.op == Free && !s.gate && s.row == Provisional && s.sessions == map[]
    ensures Next(s, LockVerify) == Some(s.(op := VerifyLocked))
    ensures Next(s.(op := VerifyLocked), VerifyReads(true)) == Some(s.(op := VerifyAllowed))
    ensures Next(s.(op := VerifyAllowed), SweepsBefore(true)) == Some(s.(op := SweptBefore))
    ensures Next(s.(op := SweptBefore), Enables(true, at)) == Some(s.(op := RowOn, row := Confirmed(at)))
    ensures Next(s.(op := RowOn, row := Confirmed(at)), Refreshes(true))
            == Some(s.(row := Confirmed(at), gate := true, op := GateOn))
  {
    assert Swept(s.(op := VerifyAllowed)).sessions == map[];
  }

  lemma Verifies(s: State, at: nat)
    requires s.op == Free && !s.gate && s.row == Provisional && s.sessions == map[]
    ensures Runs(s, Verify(at)) == Some(s.(row := Confirmed(at), gate := true, op := GateOn))
  {
    VerifySteps(s, at);
    RunsThrough([s, s.(op := VerifyLocked), s.(op := VerifyAllowed), s.(op := SweptBefore), s.(op := RowOn, row := Confirmed(at)),
                 s.(row := Confirmed(at), gate := true, op := GateOn)], Verify(at));
  }

  lemma Shows(s: State, at: nat)
    requires s.row == Confirmed(at) && s.readers == map[]
    ensures Runs(s, STATUS) == Some(s.(cache := Some(at)))
  {
    var asked := s.(readers := s.readers[0 := Asked(s.gen)]);
    var fetched := s.(readers := asked.readers[0 := Fetched(s.gen, at)]);
    assert fetched.readers - {0} == map[];
    RunsThrough([s, asked, fetched, s.(cache := Some(at))], STATUS);
  }

  lemma RollbackSteps(s: State, deleted: bool, refreshed: bool)
    requires s.op == GateOn && s.row.Confirmed?
    ensures Next(s, SweepsAfter(false)) == Some(s.(op := RollingBack))
    ensures var row := if deleted then NoRow else s.row;
            && Next(s.(op := RollingBack), RollsBack(deleted)) == Some(s.(op := RolledBack, row := row))
            && Next(s.(op := RolledBack, row := row), RefreshesBack(refreshed))
               == Some(s.(op := Free, row := row, gate := !refreshed || !deleted))
  {
  }

  lemma RollsBackTo(s: State, deleted: bool, refreshed: bool)
    requires s.op == GateOn && s.row.Confirmed?
    ensures Runs(s, Rollback(deleted, refreshed))
            == Some(s.(op := Free, row := if deleted then NoRow else s.row, gate := !refreshed || !deleted))
  {
    RollbackSteps(s, deleted, refreshed);
    var row := if deleted then NoRow else s.row;
    RunsThrough([s, s.(op := RollingBack), s.(op := RolledBack, row := row), s.(op := Free, row := row, gate := !refreshed || !deleted)],
                Rollback(deleted, refreshed));
  }

  /** A status read during the enrolment, then a rollback whose refresh fails: the gate stays on
      with the row gone, and the stamp of the undone enrolment is served. */
  lemma FailedRefreshIsIncoherent()
    ensures var run := ENROLL + Verify(5) + STATUS + Rollback(true, false);
            After(run).Some? && !Coherent(After(run).value)
  {
    Staged();
    AfterRuns(ENROLL + Verify(5) + STATUS, Rollback(true, false));
    RollsBackTo(After(ENROLL + Verify(5) + STATUS).value, true, false);
  }

  /** The enrolment at time 5, closed, its stamp in the cache. */
  lemma Staged()
    ensures After(ENROLL + Verify(5) + STATUS)
            == Some(INITIAL.(row := Confirmed(5), gate := true, op := GateOn, cache := Some(5)))
  {
    assert [] + ENROLL == ENROLL;
    AfterRuns([], ENROLL);
    Enrolls(INITIAL);
    AfterRuns(ENROLL, Verify(5));
    Verifies(INITIAL.(row := Provisional), 5);
    AfterRuns(ENROLL + Verify(5), STATUS);
    Shows(INITIAL.(row := Confirmed(5), gate := true, op := GateOn), 5);
  }

  /** A clean rollback leaves its stamp behind; a later one whose delete fails puts the gate and
      another row over it. */
  lemma FailedDeleteIsIncoherent()
    ensures var run := ENROLL + Verify(5) + STATUS + Rollback(true, true) + ENROLL + Verify(9) + Rollback(false, true);
            After(run).Some? && !Coherent(After(run).value)
  {
    Staged();
    var a := ENROLL + Verify(5) + STATUS;
    AfterRuns(a, Rollback(true, true));
    RollsBackTo(After(a).value, true, true);
    var left := INITIAL.(cache := Some(5));
    assert After(a + Rollback(true, true)) == Some(left);
    AfterRuns(a + Rollback(true, true), ENROLL);
    Enrolls(left);
    AfterRuns(a + Rollback(true, true) + ENROLL, Verify(9));
    Verifies(left.(row := Provisional), 9);
    AfterRuns(a + Rollback(true, true) + ENROLL + Verify(9), Rollback(false, true));
    RollsBackTo(left.(row := Confirmed(9), gate := true, op := GateOn), false, true);
  }
}
