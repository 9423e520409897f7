/** What every interleaved run guarantees.  All statements are about an arbitrary
    schedule: any number of sessions, stepped, delayed or lost in any order. */
module RunTheorems {
  import opened Contracts
  import opened Database
  import opened Transactions
  import opened Ledger
  import opened Effects
  import opened LedgerTheorems
  import opened Interleaving
  import opened Refinement

  ghost function RunOf(env: Env, db0: Db, calls: seq<Call>, clock: Instant, acts: seq<Action>): (m: Machine)
    ensures |m.pcs| == |calls|
  {
    Exec(env, calls, Init(calls, db0, clock), acts)
  }

  // ---- atomicity -----------------------------------------------------------

  /** Session `t` appears at place `i` of the atomic history and got the answer it would
      have got there. */
  ghost predicate AnsweredAt(env: Env, db0: Db, calls: seq<Call>, m: Machine, t: Id, o: Outcome, i: nat)
    requires InRange(calls, m.hist)
  {
    i < |m.hist| && m.hist[i].t == t && OutcomeAt(env, db0, calls, m.hist, i) == o
  }

  /** Every interleaving is an atomic history: the committed tables are those of running
      the settled transactions one at a time in the logged order, each answered session
      got the answer of its place in that order, and each is there only once. */
  lemma EveryRunIsAtomic(env: Env, db0: Db, calls: seq<Call>, clock: Instant, acts: seq<Action>)
    requires IsFresh(db0)
    ensures var m := RunOf(env, db0, calls, clock, acts);
            && LegalHistory(env, db0, calls, m.hist)
            && m.db == Replay(env, db0, calls, m.hist)
            && (forall t | 0 <= t < |calls| && m.pcs[t].Done? ::
                  exists i :: AnsweredAt(env, db0, calls, m, t, m.pcs[t].outcome, i))
            && (forall i | 0 <= i < |m.hist| :: Settled(m.pcs[m.hist[i].t]))
  {
    InvHolds(env, db0, calls, clock, acts);
    var m := RunOf(env, db0, calls, clock, acts);
    forall i | 0 <= i < |m.hist|
      ensures Settled(m.pcs[m.hist[i].t])
    {
      assert AnswersAgree(env, db0, calls, m, i);
    }
    forall t | 0 <= t < |calls| && m.pcs[t].Done?
      ensures exists i :: AnsweredAt(env, db0, calls, m, t, m.pcs[t].outcome, i)
    {
      assert Logged(m, t);
      var i :| 0 <= i < |m.hist| && m.hist[i].t == t;
      assert AnswersAgree(env, db0, calls, m, i);
      assert AnsweredAt(env, db0, calls, m, t, m.pcs[t].outcome, i);
    }
  }

  /** An answered session got the answer of its place. */
  lemma AnswerOfPlace(env: Env, db0: Db, calls: seq<Call>, clock: Instant, acts: seq<Action>, i: nat)
    requires IsFresh(db0) && i < |RunOf(env, db0, calls, clock, acts).hist|
    ensures InRange(calls, RunOf(env, db0, calls, clock, acts).hist)
    ensures var m := RunOf(env, db0, calls, clock, acts);
            var pc := m.pcs[m.hist[i].t];
            pc.Done? ==> pc.outcome == OutcomeAt(env, db0, calls, m.hist, i)
  {
    InvHolds(env, db0, calls, clock, acts);
    assert AnswersAgree(env, db0, calls, RunOf(env, db0, calls, clock, acts), i);
  }

  lemma {:induction false} ExecConcat(env: Env, calls: seq<Call>, m: Machine, a: seq<Action>, b: seq<Action>)
    requires |m.pcs| == |calls|
    ensures Exec(env, calls, m, a + b) == Exec(env, calls, Exec(env, calls, m, a), b)
  {
    if b == [] {
      assert a + b == a;
    } else {
      var n := |b| - 1;
      assert (a + b)[..|a + b| - 1] == a + b[..n] && (a + b)[|a + b| - 1] == b[n];
      ExecConcat(env, calls, m, a, b[..n]);
    }
  }

  lemma AdvanceOnlyLogs(env: Env, calls: seq<Call>, m: Machine, t: Id, pick: Option<Snapshot>)
    requires t < |m.pcs| == |calls|
    ensures m.hist <= Advance(env, calls, m, t, pick).hist
  {
  }

  lemma {:induction false} HistoryOnlyGrows(env: Env, calls: seq<Call>, m: Machine, acts: seq<Action>)
    requires |m.pcs| == |calls|
    ensures m.hist <= Exec(env, calls, m, acts).hist
  {
    if acts != [] {
      var n := |acts| - 1;
      HistoryOnlyGrows(env, calls, m, acts[..n]);
      var r := Exec(env, calls, m, acts[..n]);
      if acts[n].Step? && acts[n].t < |calls| {
        AdvanceOnlyLogs(env, calls, r, acts[n].t, acts[n].pick);
      }
    }
  }

  /** The atomic order respects real time: a session answered before another one began
      comes before it. */
  lemma AnsweredFirstComesFirst(env: Env, db0: Db, calls: seq<Call>, clock: Instant,
                                before: seq<Action>, later: seq<Action>, t: Id, u: Id, i: nat, j: nat)
    requires IsFresh(db0) && t < |calls| && u < |calls|
    requires var m := RunOf(env, db0, calls, clock, before); Settled(m.pcs[t]) && m.pcs[u].Start?
    requires var h := RunOf(env, db0, calls, clock, before + later).hist;
             i < |h| && j < |h| && h[i].t == t && h[j].t == u
    ensures i < j
  {
    var m, r := RunOf(env, db0, calls, clock, before), RunOf(env, db0, calls, clock, before + later);
    ExecConcat(env, calls, Init(calls, db0, clock), before, later);
    HistoryOnlyGrows(env, calls, m, later);
    InvHolds(env, db0, calls, clock, before);
    InvHolds(env, db0, calls, clock, before + later);
    assert Logged(m, t) && Logged(m, u);
    var k :| 0 <= k < |m.hist| && m.hist[k].t == t;
    assert r.hist[k].t == t;
    assert k == i;
    forall x | 0 <= x < |m.hist|
      ensures m.hist[x].t != u
    {
      assert m.hist[x].t in Ids(m.hist);
    }
  }

  /** A commit never trips over the unique (account, key) index, and a found record always
      has its decision: no evaluation ever fails for either reason. */
  lemma EvaluationsNeverCollide(env: Env, db0: Db, calls: seq<Call>, clock: Instant, acts: seq<Action>, t: Id)
    requires IsFresh(db0) && t < |calls| && calls[t].Evaluate?
    ensures var pc := RunOf(env, db0, calls, clock, acts).pcs[t];
            && pc != Done(Failed(DuplicateRecord)) && pc != Refused(DuplicateRecord)
            && pc != Done(Failed(MissingDecision)) && pc != Refused(MissingDecision)
  {
    InvHolds(env, db0, calls, clock, acts);
    var m := RunOf(env, db0, calls, clock, acts);
    if Settled(m.pcs[t]) {
      assert Logged(m, t);
      var i :| 0 <= i < |m.hist| && m.hist[i].t == t;
      assert AnswersAgree(env, db0, calls, m, i);
      EvaluationNeverFailsInside(env, db0, calls, m.hist, i);
    }
  }

  lemma EvaluationNeverFailsInside(env: Env, db0: Db, calls: seq<Call>, hist: seq<Entry>, i: nat)
    requires IsFresh(db0) && LegalHistory(env, db0, calls, hist) && i < |hist| && calls[hist[i].t].Evaluate?
    ensures OutcomeAt(env, db0, calls, hist, i) != Failed(DuplicateRecord)
    ensures OutcomeAt(env, db0, calls, hist, i) != Failed(MissingDecision)
  {
    HistoryPrefix(env, db0, calls, hist, i);
    var c, db := calls[hist[i].t], StateAt(env, db0, calls, hist, i);
    if FindSignal(db.signals, c.accountId, c.requestKey).Some? {
      KeysHaveDecisions(env, db0, calls, hist[..i], c.accountId, c.requestKey);
    }
  }

  // ---- STOP ----------------------------------------------------------------

  /** STOP safety on every run. */
  lemma StopIsSafeOnEveryRun(env: Env, db0: Db, calls: seq<Call>, clock: Instant, acts: seq<Action>)
    requires IsFresh(db0)
    ensures StopIsSafe(RunOf(env, db0, calls, clock, acts).db)
  {
    EveryRunIsAtomic(env, db0, calls, clock, acts);
    StopSafety(env, db0, calls, RunOf(env, db0, calls, clock, acts).hist);
  }

  lemma RunsKeep(env: Env, db0: Db, calls: seq<Call>, clock: Instant, before: seq<Action>, later: seq<Action>)
    requires IsFresh(db0)
    ensures Keeps(RunOf(env, db0, calls, clock, before).db, RunOf(env, db0, calls, clock, before + later).db)
  {
    var m, r := RunOf(env, db0, calls, clock, before), RunOf(env, db0, calls, clock, before + later);
    ExecConcat(env, calls, Init(calls, db0, clock), before, later);
    HistoryOnlyGrows(env, calls, m, later);
    EveryRunIsAtomic(env, db0, calls, clock, before);
    EveryRunIsAtomic(env, db0, calls, clock, before + later);
    HistoryKeeps(env, db0, calls, r.hist, |m.hist|, |r.hist|);
    assert r.hist[..|m.hist|] == m.hist && r.hist[..|r.hist|] == r.hist;
  }

  /** Once a STOP has committed, no approval is committed before a resume is, however far
      evaluations already were. */
  lemma NothingIsApprovedUntilResume(env: Env, db0: Db, calls: seq<Call>, clock: Instant,
                                     before: seq<Action>, later: seq<Action>)
    requires IsFresh(db0)
    requires var g := RunOf(env, db0, calls, clock, before).db.gate; g.None? || g.value.active
    requires var n, audit := |RunOf(env, db0, calls, clock, before).db.audit|,
                             RunOf(env, db0, calls, clock, before + later).db.audit;
             forall j | n <= j < |audit| :: !IsControl(audit[j], false)
    ensures var n, audit := |RunOf(env, db0, calls, clock, before).db.audit|,
                            RunOf(env, db0, calls, clock, before + later).db.audit;
            forall j | n <= j < |audit| :: !IsApproval(audit[j])
  {
    RunsKeep(env, db0, calls, clock, before, later);
    StopIsSafeOnEveryRun(env, db0, calls, clock, before);
    StopIsSafeOnEveryRun(env, db0, calls, clock, before + later);
    GateStaysMissing(env, db0, calls, clock, before, later);
    var first, last := RunOf(env, db0, calls, clock, before).db, RunOf(env, db0, calls, clock, before + later).db;
    if first.gate.Some? {
      StopHoldsOn(first, last);
    }
  }

  lemma StopHoldsOn(first: Db, last: Db)
    requires StopIsSafe(first) && StopIsSafe(last) && first.audit <= last.audit
    requires first.gate.Some? && first.gate.value.active
    requires forall j | |first.audit| <= j < |last.audit| :: !IsControl(last.audit[j], false)
    ensures forall j | |first.audit| <= j < |last.audit| :: !IsApproval(last.audit[j])
  {
    var n := |first.audit|;
    forall j | n <= j < |last.audit|
      ensures !IsApproval(last.audit[j])
    {
      forall i
        ensures !ResumedSince(last.audit, i, j)
      {
        if 0 <= i < n {
          assert ResumedSince(last.audit, i, j) ==> ResumedSince(first.audit, i, n);
        }
      }
    }
  }

  /** An answer given while the switch is active or missing is an approval exactly when the
      tables already held it. */
  ghost predicate OnlyStoredApproval(env: Env, db0: Db, calls: seq<Call>, m: Machine, i: nat)
    requires |m.pcs| == |calls| && InRange(calls, m.hist) && i < |m.hist| && calls[m.hist[i].t].Evaluate?
    requires Settled(m.pcs[m.hist[i].t])
  {
    var stored := StoredAnswer(StateAt(env, db0, calls, m.hist, i), calls[m.hist[i].t]);
    Approves(AnswerOf(m.pcs[m.hist[i].t])) <==> stored.Some? && Approves(stored.value)
  }

  /** On every schedule, whatever an evaluation had already read, an approval is answered
      under STOP exactly when it was stored before. */
  lemma ApprovalsUnderStopOnEveryRun(env: Env, db0: Db, calls: seq<Call>, clock: Instant, acts: seq<Action>, i: nat)
    requires IsFresh(db0) && i < |RunOf(env, db0, calls, clock, acts).hist|
    ensures InRange(calls, RunOf(env, db0, calls, clock, acts).hist)
    ensures var m := RunOf(env, db0, calls, clock, acts);
            && Settled(m.pcs[m.hist[i].t])
            && (calls[m.hist[i].t].Evaluate? && Stopped(StateAt(env, db0, calls, m.hist, i)) ==>
                  OnlyStoredApproval(env, db0, calls, m, i))
  {
    InvHolds(env, db0, calls, clock, acts);
    var m := RunOf(env, db0, calls, clock, acts);
    assert AnswersAgree(env, db0, calls, m, i);
    if calls[m.hist[i].t].Evaluate? && Stopped(StateAt(env, db0, calls, m.hist, i)) {
      ApprovalsUnderStop(env, db0, calls, m.hist, i);
    }
  }

  /** No transaction creates or removes the switch row. */
  lemma {:induction false} GatePresence(env: Env, db0: Db, calls: seq<Call>, hist: seq<Entry>)
    requires InRange(calls, hist)
    ensures Replay(env, db0, calls, hist).gate.Some? == db0.gate.Some?
  {
    if hist != [] {
      var n := |hist| - 1;
      GatePresence(env, db0, calls, hist[..n]);
      GateStable(env, Replay(env, db0, calls, hist[..n]), hist[n].t, calls[hist[n].t], hist[n].now, hist[n].pick);
    }
  }

  lemma GateStaysMissing(env: Env, db0: Db, calls: seq<Call>, clock: Instant, before: seq<Action>, later: seq<Action>)
    requires IsFresh(db0)
    ensures RunOf(env, db0, calls, clock, before).db.gate.Some?
         == RunOf(env, db0, calls, clock, before + later).db.gate.Some?
  {
    EveryRunIsAtomic(env, db0, calls, clock, before);
    EveryRunIsAtomic(env, db0, calls, clock, before + later);
    GatePresence(env, db0, calls, RunOf(env, db0, calls, clock, before).hist);
    GatePresence(env, db0, calls, RunOf(env, db0, calls, clock, before + later).hist);
  }

  // ---- idempotency ---------------------------------------------------------

  /** A session settled during `later` has its place in the history there. */
  lemma PlaceOfLaterAnswer(env: Env, db0: Db, calls: seq<Call>, clock: Instant,
                           before: seq<Action>, later: seq<Action>, t: Id) returns (i: nat)
    requires IsFresh(db0) && t < |calls|
    requires !Settled(RunOf(env, db0, calls, clock, before).pcs[t])
    requires RunOf(env, db0, calls, clock, before + later).pcs[t].Done?
    ensures var m, r := RunOf(env, db0, calls, clock, before), RunOf(env, db0, calls, clock, before + later);
            && m.hist <= r.hist && |m.hist| <= i
            && LegalHistory(env, db0, calls, r.hist)
            && AnsweredAt(env, db0, calls, r, t, r.pcs[t].outcome, i)
  {
    var m, r := RunOf(env, db0, calls, clock, before), RunOf(env, db0, calls, clock, before + later);
    ExecConcat(env, calls, Init(calls, db0, clock), before, later);
    HistoryOnlyGrows(env, calls, m, later);
    EveryRunIsAtomic(env, db0, calls, clock, before);
    EveryRunIsAtomic(env, db0, calls, clock, before + later);
    forall k | 0 <= k < |m.hist|
      ensures r.hist[k].t != t
    {
      assert r.hist[k] == m.hist[k];
    }
    i :| AnsweredAt(env, db0, calls, r, t, r.pcs[t].outcome, i);
  }

  /** Session `t` has its place after the first `n` in the atomic order, and changed no table
      there. */
  ghost predicate IdleAfter(env: Env, db0: Db, calls: seq<Call>, m: Machine, t: Id, n: nat, i: nat)
    requires InRange(calls, m.hist)
  {
    && n <= i < |m.hist| && m.hist[i].t == t
    && StateAt(env, db0, calls, m.hist, i + 1) == StateAt(env, db0, calls, m.hist, i)
  }

  /** Once a key is committed, every evaluation under it that is settled later, whatever it
      had already read, is answered from the stored record or refused, and changes no table. */
  lemma CommittedKeysAreFinal(env: Env, db0: Db, calls: seq<Call>, clock: Instant,
                              before: seq<Action>, later: seq<Action>, t: Id)
    requires IsFresh(db0) && t < |calls| && calls[t].Evaluate?
    requires !Settled(RunOf(env, db0, calls, clock, before).pcs[t])
    requires RunOf(env, db0, calls, clock, before + later).pcs[t].Done?
    requires FindSignal(RunOf(env, db0, calls, clock, before).db.signals, calls[t].accountId, calls[t].requestKey).Some?
    ensures StoredAnswer(RunOf(env, db0, calls, clock, before).db, calls[t])
         == Some(RunOf(env, db0, calls, clock, before + later).pcs[t].outcome)
    ensures var m, r := RunOf(env, db0, calls, clock, before), RunOf(env, db0, calls, clock, before + later);
            InRange(calls, r.hist) && exists i :: IdleAfter(env, db0, calls, r, t, |m.hist|, i)
  {
    var i := PlaceOfLaterAnswer(env, db0, calls, clock, before, later, t);
    EveryRunIsAtomic(env, db0, calls, clock, before);
    var m, r := RunOf(env, db0, calls, clock, before), RunOf(env, db0, calls, clock, before + later);
    LaterAnswersAreStored(env, db0, calls, m.hist, r.hist, i);
    assert IdleAfter(env, db0, calls, r, t, |m.hist|, i);
  }

  lemma LaterAnswersAreStored(env: Env, db0: Db, calls: seq<Call>, early: seq<Entry>, late: seq<Entry>, i: nat)
    requires IsFresh(db0) && LegalHistory(env, db0, calls, late) && early <= late && |early| <= i < |late|
    requires calls[late[i].t].Evaluate?
    requires var c, db := calls[late[i].t], Replay(env, db0, calls, early);
             FindSignal(db.signals, c.accountId, c.requestKey).Some?
    ensures StoredAnswer(Replay(env, db0, calls, early), calls[late[i].t]) == Some(OutcomeAt(env, db0, calls, late, i))
    ensures StateAt(env, db0, calls, late, i + 1) == StateAt(env, db0, calls, late, i)
  {
    assert late[..|early|] == early;
    KeysAreAnsweredOnce(env, db0, calls, late, |early|, i);
  }

  // ---- records -------------------------------------------------------------

  /** Record `k` has its decision and was made at some place of the atomic order. */
  ghost predicate WasMade(env: Env, db0: Db, calls: seq<Call>, m: Machine, k: nat)
    requires InRange(calls, m.hist) && k < |m.db.signals|
  {
    k < |m.db.decisions| && exists i :: MadeAt(env, db0, calls, m.hist, m.db, k, i)
  }

  /** On every run, records are complete and replayable; each was made at its place in the order
      from the newest snapshot of its account, its flag and the switch as they were there; and
      every approval survives its worst case. */
  lemma RecordsHoldOnEveryRun(env: Env, db0: Db, calls: seq<Call>, clock: Instant, acts: seq<Action>)
    requires IsFresh(db0) && ValidCalls(calls)
    ensures var m := RunOf(env, db0, calls, clock, acts);
            && InRange(calls, m.hist)
            && RecordsComplete(env, calls, m.db)
            && (forall k: nat | k < |m.db.signals| :: WasMade(env, db0, calls, m, k))
            && (forall i | 0 <= i < |m.db.decisions| && m.db.decisions[i].result.decision.allowed ::
                  i < |m.db.signals| && ApprovalSurvives(calls, m.db, i))
  {
    EveryRunIsAtomic(env, db0, calls, clock, acts);
    var m := RunOf(env, db0, calls, clock, acts);
    RecordsAreCompleteAndReplayable(env, db0, calls, m.hist);
    forall k: nat | k < |m.db.signals|
      ensures WasMade(env, db0, calls, m, k)
    {
      var i := RecordsWereMade(env, db0, calls, m.hist, k);
    }
    forall i | 0 <= i < |m.db.decisions| && m.db.decisions[i].result.decision.allowed
      ensures i < |m.db.signals| && ApprovalSurvives(calls, m.db, i)
    {
      RecordedApprovalsSurviveTheWorstCase(env, db0, calls, m.hist, i);
    }
  }
}
