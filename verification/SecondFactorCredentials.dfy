/** What every credential of the second factor's protocol is worth, over every interleaving
    (internal/adminauth/exchange.go and totp.go): a session answers to a checked token, an enabled
    factor to an accepted code, and what was granted goes only the ways it may. */
module SecondFactorCredentials {
  import opened Wrappers
  import opened SecondFactor

  // --- Reading a run ---

  ghost predicate Has(steps: seq<Step>, step: Step) { step in steps }

  /** The state a run was in ahead of step k. */
  ghost function At(steps: seq<Step>, k: nat): State
    requires k <= |steps| && After(steps).Some?
  {
    AheadOf(steps, k);
    After(steps[..k]).value
  }

  lemma {:induction false} AheadOf(steps: seq<Step>, k: nat)
    requires k <= |steps| && After(steps).Some?
    ensures After(steps[..k]).Some?
  {
    if k < |steps| {
      var n := |steps| - 1;
      AheadOf(steps[..n], k);
      assert steps[..n][..k] == steps[..k];
    } else {
      assert steps[..k] == steps;
    }
  }

  lemma AtShorter(steps: seq<Step>, k: nat)
    requires steps != [] && k < |steps| && After(steps).Some?
    ensures After(steps[..|steps| - 1]).Some? && At(steps[..|steps| - 1], k) == At(steps, k)
  {
    assert steps[..|steps| - 1][..k] == steps[..k];
  }

  // --- The raw token ---

  /** At step k the exchange's token was found valid, the gate open. */
  ghost predicate PassedAt(steps: seq<Step>, x: nat, k: int)
    requires After(steps).Some?
  {
    0 <= k < |steps| && steps[k] == ExchangeChecks(x, true) && !At(steps, k).gate
  }

  ghost predicate Passed(steps: seq<Step>, x: nat)
    requires After(steps).Some?
  {
    exists k :: PassedAt(steps, x, k)
  }

  /** The exchange minted the token, and rechecked the gate open behind that. */
  ghost predicate AnsweredAt(steps: seq<Step>, x: nat, tok: nat, k: int)
    requires After(steps).Some?
  {
    0 <= k < |steps| && steps[k] == ExchangeRechecks(x) && !At(steps, k).gate && Has(steps[..k], ExchangeMints(x, tok, true))
  }

  ghost predicate Answered(steps: seq<Step>, x: nat, tok: nat)
    requires After(steps).Some?
  {
    exists k :: AnsweredAt(steps, x, tok, k)
  }

  /** What an exchange has come to, and what that took. */
  ghost predicate Earned(steps: seq<Step>, x: nat, e: Exchange)
    requires After(steps).Some?
  {
    && (e == Checked || HasToken(e) ==> Passed(steps, x))
    && (HasToken(e) ==> Has(steps, ExchangeMints(x, e.tok, true)))
    && (e.Delivered? ==> Answered(steps, x, e.tok))
  }

  lemma EarnedStays(steps: seq<Step>, x: nat, e: Exchange)
    requires steps != [] && After(steps).Some? && After(steps[..|steps| - 1]).Some? && Earned(steps[..|steps| - 1], x, e)
    ensures Earned(steps, x, e)
  {
    var before := steps[..|steps| - 1];
    if Passed(before, x) {
      var k :| PassedAt(before, x, k);
      AtShorter(steps, k);
      assert PassedAt(steps, x, k);
    }
    if HasToken(e) && Answered(before, x, e.tok) {
      var k :| AnsweredAt(before, x, e.tok, k);
      AtShorter(steps, k);
      assert before[..k] == steps[..k];
      assert AnsweredAt(steps, x, e.tok, k);
    }
  }

  /** How one step can change an exchange. */
  ghost predicate Moved(s: State, step: Step, x: nat, e: Exchange) {
    || (x in s.exchanges && e == s.exchanges[x])
    || e in {Arrived, Refused}
    || (e == Checked && step == ExchangeChecks(x, true) && !s.gate)
    || (e.Minted? && step == ExchangeMints(x, e.tok, true) && x in s.exchanges && s.exchanges[x] == Checked)
    || (e.Delivered? && step == ExchangeRechecks(x) && !s.gate && x in s.exchanges && s.exchanges[x] == Minted(e.tok))
    || ((e.Caught? || e.Lost?) && x in s.exchanges && HasToken(s.exchanges[x]) && s.exchanges[x].tok == e.tok)
  }

  lemma ExchangeStepMoves(s: State, step: Step, x: nat)
    requires ExchangeStep(s, step).Some? && x in ExchangeStep(s, step).value.exchanges
    ensures Moved(s, step, x, ExchangeStep(s, step).value.exchanges[x])
  {
  }

  lemma EnrollMovesNone(s: State, step: Step)
    requires EnrollStep(s, step).Some?
    ensures EnrollStep(s, step).value.exchanges == s.exchanges
  {
  }

  lemma OtherStepsMove(s: State, step: Step, t: State, x: nat)
    requires DisableStep(s, step) == Some(t) || StatusStep(s, step) == Some(t)
    ensures t.exchanges == s.exchanges
  {
  }

  lemma ExchangeMoves(s: State, step: Step, t: State, x: nat)
    requires Next(s, step) == Some(t) && x in t.exchanges
    ensures Moved(s, step, x, t.exchanges[x])
  {
    if ExchangeStep(s, step) == Some(t) {
      ExchangeStepMoves(s, step, x);
    } else if EnrollStep(s, step) == Some(t) {
      EnrollMovesNone(s, step);
    } else if OtherStep(s, step) != Some(t) {
      OtherStepsMove(s, step, t, x);
    }
  }

  lemma {:induction false} AllEarned(steps: seq<Step>, x: nat)
    requires After(steps).Some? && x in After(steps).value.exchanges
    ensures Earned(steps, x, After(steps).value.exchanges[x])
  {
    if steps != [] {
      var n := |steps| - 1;
      var s, step, t := After(steps[..n]).value, steps[n], After(steps).value;
      assert steps[..n][..n] == steps[..n] && At(steps, n) == s;
      ExchangeMoves(s, step, t, x);
      if x in s.exchanges {
        AllEarned(steps[..n], x);
        EarnedStays(steps, x, s.exchanges[x]);
        if t.exchanges[x] != s.exchanges[x] {
          NewlyEarned(steps, x);
        }
      }
    }
  }

  lemma NewlyEarned(steps: seq<Step>, x: nat)
    requires steps != [] && After(steps).Some? && After(steps[..|steps| - 1]).Some?
    requires var s := After(steps[..|steps| - 1]).value;
             && x in s.exchanges && Earned(steps, x, s.exchanges[x]) && Earned(steps[..|steps| - 1], x, s.exchanges[x])
             && At(steps, |steps| - 1) == s
    requires x in After(steps).value.exchanges && After(steps).value.exchanges[x] != After(steps[..|steps| - 1]).value.exchanges[x]
    ensures Earned(steps, x, After(steps).value.exchanges[x])
  {
    var n := |steps| - 1;
    var s, step, t := After(steps[..n]).value, steps[n], After(steps).value;
    ExchangeMoves(s, step, t, x);
    var e := t.exchanges[x];
    if e == Checked {
      assert PassedAt(steps, x, n);
    } else if e.Delivered? {
      assert AnsweredAt(steps, x, e.tok, n);
    }
  }

  /** No session without a valid token and an open gate: whenever an exchange holds one, or one minted
      for it is live, its token was checked and found valid; whenever a client was handed one, the gate
      was found open again behind the mint. */
  lemma SessionsAnswerToTokens(steps: seq<Step>, x: nat)
    requires After(steps).Some?
    ensures var s := After(steps).value;
            && (x in s.exchanges && HasToken(s.exchanges[x]) ==> Passed(steps, x))
            && (x in s.exchanges && s.exchanges[x].Delivered? ==> Answered(steps, x, s.exchanges[x].tok))
            && (forall tok :: tok in s.sessions && s.sessions[tok] == Exchanged(x) ==>
                  Passed(steps, x) && Has(steps, ExchangeMints(x, tok, true)))
  {
    RunKeeps(steps);
    if x in After(steps).value.exchanges {
      AllEarned(steps, x);
    }
  }

  lemma RunsOn(s: State, step: Step, t: State, rest: seq<Step>)
    requires Next(s, step) == Some(t)
    ensures Runs(s, [step] + rest) == Runs(t, rest)
  {
    assert ([step] + rest)[1..] == rest;
  }

  lemma RunsThree(s: State, a: Step, t: State, b: Step, u: State, c: Step, v: State)
    requires Next(s, a) == Some(t) && Next(t, b) == Some(u) && Next(u, c) == Some(v)
    ensures Runs(s, [a, b, c]) == Some(v)
  {
    RunsOn(u, c, v, []);
    RunsOn(t, b, u, [c]);
    RunsOn(s, a, t, [b, c]);
    assert [c] + [] == [c] && [b] + [c] == [b, c] && [a] + [b, c] == [a, b, c];
  }

  lemma RunsFour(s: State, a: Step, t: State, b: Step, u: State, c: Step, v: State, d: Step, w: State)
    requires Next(s, a) == Some(t) && Next(t, b) == Some(u) && Next(u, c) == Some(v) && Next(v, d) == Some(w)
    ensures Runs(s, [a, b, c, d]) == Some(w)
  {
    RunsThree(t, b, u, c, v, d, w);
    RunsOn(s, a, t, [b, c, d]);
    assert [a] + [b, c, d] == [a, b, c, d];
  }

  /** With the gate open a valid token is answered with a live session. */
  lemma ValidTokenDelivers(s: State, x: nat, tok: nat)
    requires !s.gate && x !in s.exchanges && tok !in s.issued
    ensures var r := Runs(s, [ExchangeArrives(x), ExchangeChecks(x, true), ExchangeMints(x, tok, true), ExchangeRechecks(x)]);
            && r.Some? && x in r.value.exchanges && r.value.exchanges[x] == Delivered(tok)
            && tok in r.value.sessions && r.value.sessions[tok] == Exchanged(x)
  {
    var t := Now(s, x, Arrived);
    var u := Now(t, x, Checked);
    var v := Now(u, x, Minted(tok)).(sessions := s.sessions[tok := Exchanged(x)], issued := s.issued + {tok});
    RunsFour(s, ExchangeArrives(x), t, ExchangeChecks(x, true), u, ExchangeMints(x, tok, true), v,
             ExchangeRechecks(x), Now(v, x, Delivered(tok)));
  }

  // --- The code ---

  /** A code was accepted since the enrolment lock was last taken to verify one. */
  ghost predicate AcceptedAt(steps: seq<Step>, k: int) {
    0 <= k < |steps| && steps[k] == VerifyReads(true) && forall j :: k < j < |steps| ==> !steps[j].LockVerify?
  }

  ghost predicate Accepted(steps: seq<Step>) { exists k :: AcceptedAt(steps, k) }

  lemma AcceptedStays(steps: seq<Step>, step: Step)
    requires Accepted(steps) && !step.LockVerify?
    ensures Accepted(steps + [step])
  {
    var k :| AcceptedAt(steps, k);
    assert AcceptedAt(steps + [step], k);
  }

  /** The factor was enabled at step k, on an accepted code. */
  ghost predicate EnabledAt(steps: seq<Step>, at: nat, k: int) {
    0 <= k < |steps| && steps[k] == Enables(true, at) && Accepted(steps[..k])
  }

  ghost predicate Enabled(steps: seq<Step>, at: nat) { exists k :: EnabledAt(steps, at, k) }

  lemma EnabledStays(steps: seq<Step>, step: Step, at: nat)
    requires Enabled(steps, at)
    ensures Enabled(steps + [step], at)
  {
    var k :| EnabledAt(steps, at, k);
    assert (steps + [step])[..k] == steps[..k];
    assert EnabledAt(steps + [step], at, k);
  }

  /** An operation that has got past the code, and an enabled row, each had one accepted. */
  ghost predicate Proven(steps: seq<Step>, s: State) {
    && (PastCode(s.op) ==> Accepted(steps))
    && (s.row.Confirmed? ==> Enabled(steps, s.row.at))
  }

  /** Past the code. */
  predicate PastCode(op: Op) {
    op in {VerifyAllowed, SweptBefore, RowOn, GateOn, SweptAfter, Invalidated, RollingBack, RolledBack}
  }

  /** How one step can change the row and the operation. */
  ghost predicate RowMoved(s: State, step: Step, t: State) {
    && (t.row.Confirmed? && t.row != s.row ==> step == Enables(true, t.row.at) && s.op == SweptBefore)
    && (PastCode(t.op) && !PastCode(s.op) ==> step == VerifyReads(true))
    && (step.LockVerify? ==> s.op == Free)
  }

  lemma EnrollMoves(s: State, step: Step)
    requires EnrollStep(s, step).Some?
    ensures RowMoved(s, step, EnrollStep(s, step).value)
  {
  }

  lemma RowMoves(s: State, step: Step, t: State)
    requires Next(s, step) == Some(t)
    ensures RowMoved(s, step, t)
  {
    if EnrollStep(s, step) == Some(t) {
      EnrollMoves(s, step);
    }
  }

  lemma ProvenStep(steps: seq<Step>, s: State, step: Step, t: State)
    requires Proven(steps, s) && Next(s, step) == Some(t)
    ensures Proven(steps + [step], t)
  {
    var longer := steps + [step];
    RowMoves(s, step, t);
    if step == VerifyReads(true) {
      assert AcceptedAt(longer, |steps|);
    } else if Accepted(steps) && !step.LockVerify? {
      AcceptedStays(steps, step);
    }
    if t.row.Confirmed? {
      if t.row == s.row {
        EnabledStays(steps, step, t.row.at);
      } else {
        assert longer[..|steps|] == steps;
        assert EnabledAt(longer, t.row.at, |steps|);
      }
    }
  }

  lemma {:induction false} RunProven(steps: seq<Step>)
    requires After(steps).Some?
    ensures Proven(steps, After(steps).value)
  {
    if steps != [] {
      var n := |steps| - 1;
      RunProven(steps[..n]);
      ProvenStep(steps[..n], After(steps[..n]).value, steps[n], After(steps).value);
      assert steps == steps[..n] + [steps[n]];
    }
  }

  /** The factor is enabled only by an enable behind an accepted code, both under one hold of the lock. */
  lemma EnabledOnAcceptedCode(steps: seq<Step>)
    requires After(steps).Some? && After(steps).value.row.Confirmed?
    ensures Enabled(steps, After(steps).value.row.at)
  {
    RunProven(steps);
  }

  // --- What takes a grant back ---

  /** An enabled factor goes only with an authorized disable or an enrolment's own rollback. */
  lemma DisabledOnlyBy(steps: seq<Step>, step: Step)
    requires After(steps).Some? && After(steps).value.row.Confirmed? && Next(After(steps).value, step).Some?
    ensures var s, t := After(steps).value, Next(After(steps).value, step).value;
            t.row != s.row ==> t.row == NoRow && step in {Deletes(true), RollsBack(true)}
  {
    RunKeeps(steps);
  }

  /** A session goes only as its owner ends it, as the exchange that minted it takes it back, or as a
      sweep takes every admin's; a user's is never swept. */
  lemma SessionsEndOnlyBy(s: State, step: Step, tok: nat)
    requires Next(s, step).Some? && tok in s.sessions && tok !in Next(s, step).value.sessions
    ensures || step == SessionEnds(tok)
            || (step.ExchangeRevokes? && step.ok && step.x in s.exchanges && s.exchanges[step.x] == Caught(tok))
            || (step in {SweepsBefore(true), SweepsAfter(true)} && !s.sessions[tok].UserLogin?)
  {
  }

  /** The gate that requests meet follows the row whenever it is read, and closes when it cannot be. */
  lemma GateFollowsRow(s: State, step: Step)
    requires Next(s, step).Some?
    ensures var t := Next(s, step).value;
            if step.Refreshes? || step.RefreshesOff? || step.RefreshesBack? || step.Restarts?
            then (t.gate <==> t.row.Confirmed? || !step.ok) && t.row == s.row
            else t.gate == s.gate
  {
  }

  /** An enrolment whose store calls succeed ends with the gate closed and its caller logged in. */
  lemma EnrolmentSucceeds(s: State, at: nat, tok: nat)
    requires s.op == Free && !s.gate && s.row != NoRow && tok !in s.issued
    ensures var r := Runs(s, Verify(at) + [SweepsAfter(true), Invalidates, MintsEnroller(tok, true)]);
            && r.Some? && r.value.row == Confirmed(at) && r.value.gate && r.value.secured && r.value.op == Free
            && tok in r.value.sessions && r.value.sessions[tok] == Enroller
  {
    var verified := VerifyRuns(s, at);
    var done := ClosingRuns(verified, tok);
    RunsAppend(s, Verify(at), [SweepsAfter(true), Invalidates, MintsEnroller(tok, true)]);
  }

  lemma ClosingRuns(s: State, tok: nat) returns (t: State)
    requires s.op == GateOn && tok !in s.issued
    ensures Runs(s, [SweepsAfter(true), Invalidates, MintsEnroller(tok, true)]) == Some(t)
    ensures t.row == s.row && t.gate == s.gate && t.secured && t.op == Free && tok in t.sessions && t.sessions[tok] == Enroller
  {
    var swept := Swept(s).(op := SweptAfter);
    var invalidated := Dropped(swept).(op := Invalidated);
    t := invalidated.(op := Free, secured := true, sessions := swept.sessions[tok := Enroller], issued := s.issued + {tok});
    RunsThree(s, SweepsAfter(true), swept, Invalidates, invalidated, MintsEnroller(tok, true), t);
  }

  lemma VerifyRuns(s: State, at: nat) returns (t: State)
    requires s.op == Free && !s.gate && s.row != NoRow
    ensures Runs(s, Verify(at)) == Some(t) && t == Swept(s).(op := GateOn, row := Confirmed(at), gate := true)
  {
    var locked := s.(op := VerifyLocked);
    var swept := Swept(s).(op := SweptBefore);
    t := Swept(s).(op := GateOn, row := Confirmed(at), gate := true);
    RunsFour(locked, VerifyReads(true), s.(op := VerifyAllowed), SweepsBefore(true), swept,
             Enables(true, at), swept.(op := RowOn, row := Confirmed(at)), Refreshes(true), t);
    RunsOn(s, LockVerify, locked, [VerifyReads(true), SweepsBefore(true), Enables(true, at), Refreshes(true)]);
    assert [LockVerify] + [VerifyReads(true), SweepsBefore(true), Enables(true, at), Refreshes(true)] == Verify(at);
  }

  lemma {:induction false} RunsAppend(s: State, a: seq<Step>, b: seq<Step>)
    requires Runs(s, a).Some?
    ensures Runs(s, a + b) == Runs(Runs(s, a).value, b)
    decreases |a|
  {
    if a == [] {
      assert a + b == b;
    } else {
      assert (a + b)[1..] == a[1..] + b;
      RunsAppend(Next(s, a[0]).value, a[1..], b);
    }
  }

  /** An authorized disable whose refresh succeeds opens the gate again. */
  lemma DisableOpens(s: State)
    requires s.op == Free && s.row != NoRow
    ensures var r := Runs(s, [LockDisable, Deletes(true), RefreshesOff(true), InvalidatesOff]);
            r.Some? && r.value.row == NoRow && !r.value.gate && r.value.op == Free && r.value.sessions == s.sessions
  {
    var off := s.(op := RowOff, row := NoRow, secured := false);
    var refreshed := off.(op := DisableRefreshed, gate := false);
    RunsFour(s, LockDisable, s.(op := DisableLocked), Deletes(true), off, RefreshesOff(true), refreshed,
             InvalidatesOff, Dropped(refreshed).(op := Free));
  }
}
