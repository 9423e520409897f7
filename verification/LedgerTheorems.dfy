/** What healthy histories mean to an operator: STOP holds, records can be replayed, a
    request key is answered once, the right snapshot was used, and every approval ever
    recorded would have survived its worst case. */
module LedgerTheorems {
  import opened Contracts
  import opened RiskGate
  import opened GateTheorems
  import opened Database
  import opened Transactions
  import opened Ledger
  import opened Effects

  // ---- STOP ----------------------------------------------------------------

  predicate IsControl(e: AuditEvent, active: bool) {
    e.SwitchChanged? && e.active == active
  }

  /** Event `i` is a resume with no other control event between it and position `n`. */
  ghost predicate ResumedSince(audit: seq<AuditEvent>, i: int, n: int) {
    && 0 <= i < n <= |audit| && IsControl(audit[i], false)
    && forall k | i < k < n :: !audit[k].SwitchChanged?
  }

  lemma {:induction false} ReleasedMeansResumed(audit: seq<AuditEvent>)
    ensures !ActiveAfter(audit) <==> exists i :: ResumedSince(audit, i, |audit|)
  {
    if audit != [] {
      var n := |audit| - 1;
      var front := audit[..n];
      ReleasedMeansResumed(front);
      if audit[n].SwitchChanged? {
        if !audit[n].active {
          assert ResumedSince(audit, n, |audit|);
        }
      } else {
        forall i
          ensures ResumedSince(front, i, |front|) <==> ResumedSince(audit, i, |audit|)
        {
        }
      }
    }
  }

  /** STOP safety of a database: every approval in the log comes after a resume with no
      stop in between; the switch row is what the last control event says, active if
      there is none; and with the row missing nothing was ever approved. */
  ghost predicate StopIsSafe(db: Db) {
    && (forall j | 0 <= j < |db.audit| && IsApproval(db.audit[j]) :: exists i :: ResumedSince(db.audit, i, j))
    && (db.gate.Some? ==> (!db.gate.value.active <==> exists i :: ResumedSince(db.audit, i, |db.audit|)))
    && (db.gate.None? ==> forall j | 0 <= j < |db.audit| :: !IsApproval(db.audit[j]))
  }

  lemma StopOkIsSafe(db: Db)
    requires StopOk(db)
    ensures StopIsSafe(db)
  {
    ReleasedMeansResumed(db.audit);
    forall j | 0 <= j < |db.audit| && IsApproval(db.audit[j])
      ensures exists i :: ResumedSince(db.audit, i, j)
    {
      ReleasedMeansResumed(db.audit[..j]);
      var i :| ResumedSince(db.audit[..j], i, j);
      assert ResumedSince(db.audit, i, j);
    }
  }

  lemma StopSafety(env: Env, db0: Db, calls: seq<Call>, hist: seq<Entry>)
    requires IsFresh(db0) && LegalHistory(env, db0, calls, hist)
    ensures StopIsSafe(Replay(env, db0, calls, hist))
  {
    HistoriesAreHealthy(env, db0, calls, hist);
    StopOkIsSafe(Replay(env, db0, calls, hist));
  }

  // ---- one history, step by step -------------------------------------------

  ghost function StateAt(env: Env, db0: Db, calls: seq<Call>, hist: seq<Entry>, i: nat): Db
    requires InRange(calls, hist) && i <= |hist|
  {
    Replay(env, db0, calls, hist[..i])
  }

  ghost function OutcomeAt(env: Env, db0: Db, calls: seq<Call>, hist: seq<Entry>, i: nat): Outcome
    requires InRange(calls, hist) && i < |hist|
  {
    PlanOf(env, calls, StateAt(env, db0, calls, hist, i), hist[i]).outcome
  }

  lemma StateStep(env: Env, db0: Db, calls: seq<Call>, hist: seq<Entry>, i: nat)
    requires InRange(calls, hist) && i < |hist|
    ensures StateAt(env, db0, calls, hist, i + 1)
         == Apply(StateAt(env, db0, calls, hist, i),
                  PlanOf(env, calls, StateAt(env, db0, calls, hist, i), hist[i]).writes)
  {
    assert hist[..i + 1][..i] == hist[..i];
  }

  /** What one write leaves in place: rows found stay found, accounts stay. */
  ghost predicate Keeps(db: Db, after: Db) {
    && db.accounts.Keys <= after.accounts.Keys
    && db.signals <= after.signals && db.decisions <= after.decisions && db.audit <= after.audit
    && (forall a, k :: FindSignal(db.signals, a, k).Some? ==>
                         FindSignal(after.signals, a, k) == FindSignal(db.signals, a, k))
    && (forall id :: FindDecision(db.decisions, id).Some? ==>
                       FindDecision(after.decisions, id) == FindDecision(db.decisions, id))
  }

  lemma OneWriteKeeps(db: Db, w: Write)
    ensures Keeps(db, ApplyOne(db, w))
  {
    match w {
      case AddSignal(r) =>
        forall a, k
          ensures FindSignal(db.signals, a, k).Some? ==>
                    FindSignal(db.signals + [r], a, k) == FindSignal(db.signals, a, k)
        {
          FindSignalAppend(db.signals, r, a, k);
        }
      case AddDecision(d) =>
        forall id
          ensures FindDecision(db.decisions, id).Some? ==>
                    FindDecision(db.decisions + [d], id) == FindDecision(db.decisions, id)
        {
          FindDecisionAppend(db.decisions, d, id);
        }
      case _ =>
    }
  }

  lemma {:induction false} WritesKeep(db: Db, ws: seq<Write>)
    ensures Keeps(db, Apply(db, ws))
    decreases |ws|
  {
    if ws != [] {
      OneWriteKeeps(db, ws[0]);
      WritesKeep(ApplyOne(db, ws[0]), ws[1..]);
    }
  }

  /** Once committed, a key, its decision and its account are there for good. */
  lemma {:induction false} HistoryKeeps(env: Env, db0: Db, calls: seq<Call>, hist: seq<Entry>, i: nat, j: nat)
    requires InRange(calls, hist) && i <= j <= |hist|
    ensures Keeps(StateAt(env, db0, calls, hist, i), StateAt(env, db0, calls, hist, j))
    decreases j
  {
    if i < j {
      HistoryKeeps(env, db0, calls, hist, i, j - 1);
      StateStep(env, db0, calls, hist, j - 1);
      var mid := StateAt(env, db0, calls, hist, j - 1);
      WritesKeep(mid, PlanOf(env, calls, mid, hist[j - 1]).writes);
    }
  }

  /** The row of a committed key, with its decision. */
  lemma {:induction false} DecisionOfSignal(env: Env, calls: seq<Call>, used: set<Id>, db: Db, a: Id, key: string)
    requires Healthy(env, calls, used, db) && FindSignal(db.signals, a, key).Some?
    ensures a in db.accounts
    ensures FindDecision(db.decisions, FindSignal(db.signals, a, key).value.id).Some?
  {
    var r := FindSignal(db.signals, a, key).value;
    var i :| 0 <= i < |db.signals| && db.signals[i] == r;
    assert RecordOk(env, calls, used, db, db.signals[i], db.decisions[i]);
    assert db.decisions[i] in db.decisions;
  }

  lemma KeysHaveDecisions(env: Env, db0: Db, calls: seq<Call>, hist: seq<Entry>, a: Id, key: string)
    requires IsFresh(db0) && LegalHistory(env, db0, calls, hist)
    requires FindSignal(Replay(env, db0, calls, hist).signals, a, key).Some?
    ensures var db := Replay(env, db0, calls, hist);
            FindDecision(db.decisions, FindSignal(db.signals, a, key).value.id).Some?
    ensures a in Replay(env, db0, calls, hist).accounts
  {
    HistoriesAreHealthy(env, db0, calls, hist);
    DecisionOfSignal(env, calls, Ids(hist), Replay(env, db0, calls, hist), a, key);
  }

  /** The answer the stored record of a key gives to a request: its result for the same
      documents, a conflict for any others. */
  function StoredAnswer(db: Db, c: Call): Option<Outcome>
    requires c.Evaluate?
  {
    var r := FindSignal(db.signals, c.accountId, c.requestKey);
    if r.None? then None
    else
      var d := FindDecision(db.decisions, r.value.id);
      if d.None? then None
      else Some(if SameDocuments(r.value, c) then Evaluated(d.value.result) else Failed(KeyReused))
  }

  /** Idempotency: once a key is committed, every later evaluation under it, whatever
      happened in between, gives the stored answer and changes no table. */
  lemma KeysAreAnsweredOnce(env: Env, db0: Db, calls: seq<Call>, hist: seq<Entry>, n: nat, m: nat)
    requires IsFresh(db0) && LegalHistory(env, db0, calls, hist) && n <= m < |hist|
    requires calls[hist[m].t].Evaluate?
    requires var c, db := calls[hist[m].t], StateAt(env, db0, calls, hist, n);
             FindSignal(db.signals, c.accountId, c.requestKey).Some?
    ensures StoredAnswer(StateAt(env, db0, calls, hist, n), calls[hist[m].t])
         == Some(OutcomeAt(env, db0, calls, hist, m))
    ensures StateAt(env, db0, calls, hist, m + 1) == StateAt(env, db0, calls, hist, m)
  {
    HistoryPrefix(env, db0, calls, hist, n);
    var c := calls[hist[m].t];
    KeysHaveDecisions(env, db0, calls, hist[..n], c.accountId, c.requestKey);
    HistoryKeeps(env, db0, calls, hist, n, m);
    StateStep(env, db0, calls, hist, m);
    RefusalsWriteNothing(env, ViewOf(StateAt(env, db0, calls, hist, m), c), hist[m].t, c, hist[m].now, hist[m].pick);
  }

  // ---- answers under STOP --------------------------------------------------

  predicate Approves(o: Outcome) {
    o.Evaluated? && o.result.decision.allowed
  }

  /** While the switch is active or missing, an evaluation is answered with an approval
      exactly when its key and documents are already stored with one. */
  lemma ApprovalsUnderStop(env: Env, db0: Db, calls: seq<Call>, hist: seq<Entry>, i: nat)
    requires IsFresh(db0) && LegalHistory(env, db0, calls, hist) && i < |hist| && calls[hist[i].t].Evaluate?
    requires Stopped(StateAt(env, db0, calls, hist, i))
    ensures var stored := StoredAnswer(StateAt(env, db0, calls, hist, i), calls[hist[i].t]);
            Approves(OutcomeAt(env, db0, calls, hist, i)) <==> stored.Some? && Approves(stored.value)
  {
    var e, db := hist[i], StateAt(env, db0, calls, hist, i);
    var c := calls[e.t];
    if FindSignal(db.signals, c.accountId, c.requestKey).Some? {
      KeysAreAnsweredOnce(env, db0, calls, hist, i, i);
    } else {
      NothingNewUnderStop(env, db, e.t, c, e.now, e.pick);
    }
  }

  lemma NothingNewUnderStop(env: Env, db: Db, t: Id, c: Call, now: Instant, pick: Option<Snapshot>)
    requires c.Evaluate? && Stopped(db) && FindSignal(db.signals, c.accountId, c.requestKey).None?
    ensures !Approves(Plan(env, ViewOf(db, c), t, c, now, pick).outcome)
  {
    if Plan(env, ViewOf(db, c), t, c, now, pick).writes != [] {
      RecordingPlan(env, db, t, c, now, pick);
      var f := FactsFor(db.gate, db.accounts[c.accountId], pick.value, c.signal.value, c.market.value, now);
      ReasonsAreExactlyTheBlockingFacts(env, f);
    }
  }

  // ---- records -------------------------------------------------------------

  lemma {:induction false} StoredResultAt(decisions: seq<DecisionRow>, i: nat)
    requires i < |decisions|
    ensures |StoredResults(decisions)| == |decisions| && StoredResults(decisions)[i] == decisions[i].result
  {
    var n := |decisions| - 1;
    if i < n {
      StoredResultAt(decisions[..n], i);
    } else if n > 0 {
      StoredResultAt(decisions[..n], 0);
    }
  }

  /** Records are complete and replayable: the log announces exactly the stored results,
      in order and each once; every record is of a request that was made; and re-running
      both engines on stored rows alone, with switch and enabled flag read back from the
      reasons, gives the stored result. */
  ghost predicate RecordsComplete(env: Env, calls: seq<Call>, db: Db) {
    && |db.signals| == |db.decisions| == |AuditedResults(db.audit)|
    && (forall i | 0 <= i < |db.signals| :: RecordComplete(env, calls, db, i))
    && (forall i, k | 0 <= i < k < |db.signals| ::
          DistinctRows(db.signals[i], db.signals[k]) && db.decisions[i].result != db.decisions[k].result)
  }

  ghost predicate RecordComplete(env: Env, calls: seq<Call>, db: Db, i: nat)
    requires i < |db.signals| == |db.decisions| == |AuditedResults(db.audit)|
  {
    var r, d := db.signals[i], db.decisions[i];
    && AuditedResults(db.audit)[i] == d.result
    && d.signalId == d.result.signalId == r.id
    && r.id < |calls| && calls[r.id] == Evaluate(r.accountId, r.requestKey, r.payload, r.market)
    && exists s :: s in db.snapshots && Replays(env, r, d, s)
  }

  lemma HealthyRecordsAreComplete(env: Env, calls: seq<Call>, used: set<Id>, db: Db)
    requires Healthy(env, calls, used, db)
    ensures RecordsComplete(env, calls, db)
  {
    forall i | 0 <= i < |db.signals|
      ensures |AuditedResults(db.audit)| == |db.decisions| && RecordComplete(env, calls, db, i)
      ensures db.decisions[i].result.signalId == db.signals[i].id
    {
      StoredResultAt(db.decisions, i);
      assert RecordOk(env, calls, used, db, db.signals[i], db.decisions[i]);
    }
  }

  lemma RecordsAreCompleteAndReplayable(env: Env, db0: Db, calls: seq<Call>, hist: seq<Entry>)
    requires IsFresh(db0) && LegalHistory(env, db0, calls, hist)
    ensures RecordsComplete(env, calls, Replay(env, db0, calls, hist))
  {
    HistoriesAreHealthy(env, db0, calls, hist);
    HealthyRecordsAreComplete(env, calls, Ids(hist), Replay(env, db0, calls, hist));
  }

  /** How the record `r` with decision `d` came about in entry `e` on the tables `before`: it is
      of that transaction and clock reading, on a newest snapshot of its account, and reports
      the account disabled or the switch active exactly when the rows said so. */
  ghost predicate MadeFrom(calls: seq<Call>, before: Db, e: Entry, r: SignalRow, d: DecisionRow) {
    && e.t == r.id == d.signalId && e.t < |calls|
    && calls[e.t] == Evaluate(r.accountId, r.requestKey, r.payload, r.market)
    && e.pick.Some? && e.pick.value.id == r.snapshotId && IsNewestOf(before, r.accountId, e.pick.value)
    && r.accountId in before.accounts
    && d.policy == before.accounts[r.accountId].policy && d.rules == before.accounts[r.accountId].rules
    && var decision := d.result.decision;
    && decision.checkedAt == e.now
    && (AccountDisabled in decision.reasons <==> !before.accounts[r.accountId].enabled)
    && (GlobalKillSwitch in decision.reasons <==> Stopped(before))
    && (decision.allowed ==> before.accounts[r.accountId].enabled && !Stopped(before))
  }

  /** Record `k` of `db` was made at place `i`. */
  ghost predicate MadeAt(env: Env, db0: Db, calls: seq<Call>, hist: seq<Entry>, db: Db, k: nat, i: nat)
    requires InRange(calls, hist) && k < |db.signals| && k < |db.decisions|
  {
    i < |hist| && MadeFrom(calls, StateAt(env, db0, calls, hist, i), hist[i], db.signals[k], db.decisions[k])
  }

  lemma MadeBefore(env: Env, db0: Db, calls: seq<Call>, front: seq<Entry>, e: Entry, db: Db, after: Db, k: nat, i: nat)
    requires InRange(calls, front + [e]) && k < |db.signals| && k < |db.decisions|
    requires db.signals <= after.signals && db.decisions <= after.decisions && InRange(calls, front)
    requires MadeAt(env, db0, calls, front, db, k, i)
    ensures MadeAt(env, db0, calls, front + [e], after, k, i)
  {
    assert (front + [e])[..i] == front[..i];
  }

  lemma MadeLast(env: Env, db0: Db, calls: seq<Call>, front: seq<Entry>, e: Entry, k: nat)
    requires LegalHistory(env, db0, calls, front + [e]) && InRange(calls, front)
    requires var before := Replay(env, db0, calls, front);
             |before.signals| == |before.decisions| <= k < |Replay(env, db0, calls, front + [e]).signals|
    ensures var db := Replay(env, db0, calls, front + [e]);
            k < |db.decisions| && MadeAt(env, db0, calls, front + [e], db, k, |front|)
  {
    LastEntry(env, db0, calls, front, e);
    NewRecordIsMade(env, calls, Replay(env, db0, calls, front), e, k);
    assert (front + [e])[..|front|] == front;
  }

  /** Every record was so made at its place in the history. */
  lemma {:induction false} RecordsWereMade(env: Env, db0: Db, calls: seq<Call>, hist: seq<Entry>, k: nat)
    returns (i: nat)
    requires IsFresh(db0) && LegalHistory(env, db0, calls, hist)
    requires k < |Replay(env, db0, calls, hist).signals|
    ensures k < |Replay(env, db0, calls, hist).decisions|
    ensures MadeAt(env, db0, calls, hist, Replay(env, db0, calls, hist), k, i)
    decreases |hist|
  {
    var front, e := hist[..|hist| - 1], hist[|hist| - 1];
    assert hist == front + [e];
    RowsBefore(env, db0, calls, front, e);
    if k < |Replay(env, db0, calls, front).signals| {
      i := RecordsWereMade(env, db0, calls, front, k);
      MadeBefore(env, db0, calls, front, e, Replay(env, db0, calls, front), Replay(env, db0, calls, hist), k, i);
    } else {
      i := |front|;
      MadeLast(env, db0, calls, front, e, k);
    }
  }

  lemma RowsBefore(env: Env, db0: Db, calls: seq<Call>, front: seq<Entry>, e: Entry)
    requires IsFresh(db0) && LegalHistory(env, db0, calls, front + [e])
    ensures LegalHistory(env, db0, calls, front)
    ensures var before, after := Replay(env, db0, calls, front), Replay(env, db0, calls, front + [e]);
            |before.signals| == |before.decisions|
            && before.signals <= after.signals && before.decisions <= after.decisions
  {
    LastEntry(env, db0, calls, front, e);
    HistoriesAreHealthy(env, db0, calls, front);
    var before := Replay(env, db0, calls, front);
    WritesKeep(before, PlanOf(env, calls, before, e).writes);
  }

  lemma NewRecordIsMade(env: Env, calls: seq<Call>, before: Db, e: Entry, k: nat)
    requires e.t < |calls| && LegalPick(ViewOf(before, calls[e.t]), calls[e.t], e.pick)
    requires |before.signals| == |before.decisions| <= k < |After(env, calls, before, e).signals|
    ensures var after := After(env, calls, before, e);
            k < |after.decisions| && MadeFrom(calls, before, e, after.signals[k], after.decisions[k])
  {
    match calls[e.t] {
      case SetKillSwitch(_, _, _) => ControlDoes(env, calls, before, e);
      case AddAccount(_, _, _, _, _) => CreationDoes(env, calls, before, e);
      case PostState(_, _) => StateDoes(env, calls, before, e);
      case Evaluate(_, _, _, _) =>
        EvaluationDoes(env, calls, before, e);
        RecordReadsTheRows(env, calls, before, e);
        assert Records(env, calls, before, e, e.pick.value);
    }
  }

  /** Losing `openLoss` and `newLoss` from the snapshot leaves the account solvent and above
      all four floors; the total floors are those of the account as it was created. */
  ghost predicate Survives(created: Call, state: AccountState, openLoss: real, newLoss: real)
    requires created.AddAccount?
  {
    var left := state.equity - openLoss - newLoss;
    && left > 0.0
    && left > DailyFloor(state, created.policy.dailyLoss) && left > DailyFloor(state, created.rules.dailyLoss)
    && left > TotalFloor(created.initialBalance, created.policy.totalLoss)
    && left > TotalFloor(created.initialBalance, created.rules.totalLoss)
  }

  /** The approval in row `i` survives every loss within its open risk and its own risk. */
  ghost predicate ApprovalSurvives(calls: seq<Call>, db: Db, i: nat)
    requires i < |db.signals|
  {
    var r := db.signals[i];
    && r.accountId < |calls| && calls[r.accountId].AddAccount?
    && exists s :: s in db.snapshots && s.id == r.snapshotId
         && forall openLoss: real, newLoss: real {:trigger Survives(calls[r.accountId], s.state, openLoss, newLoss)} |
              openLoss <= s.state.openRisk && newLoss <= r.payload.value.RiskAmount() ::
              Survives(calls[r.accountId], s.state, openLoss, newLoss)
  }

  lemma SurvivesEveryLoss(env: Env, f: Facts, created: Call)
    requires ValidFacts(f) && Combined(env, f).allowed && created.AddAccount?
    requires f.account.initialBalance == created.initialBalance
    requires f.policy == created.policy && f.rules == created.rules
    ensures forall openLoss: real, newLoss: real {:trigger Survives(created, f.account, openLoss, newLoss)} |
              openLoss <= f.account.openRisk && newLoss <= f.signal.RiskAmount() ::
              Survives(created, f.account, openLoss, newLoss)
  {
    forall openLoss: real, newLoss: real | openLoss <= f.account.openRisk && newLoss <= f.signal.RiskAmount()
      ensures Survives(created, f.account, openLoss, newLoss)
    {
      ApprovalSurvivesTheWorstCase(env, f, openLoss, newLoss);
    }
  }

  /** The stored inputs of a record are valid, and its policy, rules and initial balance
      are those its account was created with. */
  lemma RecordProvenance(env: Env, calls: seq<Call>, used: set<Id>, db: Db, r: SignalRow, d: DecisionRow)
    returns (s: Snapshot)
    requires AccountsOk(env, calls, used, db) && SnapshotsOk(calls, used, db) && ValidCalls(calls)
    requires RecordOk(env, calls, used, db, r, d)
    ensures s in db.snapshots && Replays(env, r, d, s)
    ensures ValidFacts(StoredFacts(r, d, s))
    ensures r.accountId < |calls| && calls[r.accountId].AddAccount?
    ensures s.state.initialBalance == calls[r.accountId].initialBalance
    ensures d.policy == calls[r.accountId].policy && d.rules == calls[r.accountId].rules
  {
    s :| s in db.snapshots && Replays(env, r, d, s);
    assert SnapshotOk(calls, used, db, s);
    assert AccountOk(env, calls, used, r.accountId, db.accounts[r.accountId]);
    assert ValidCall(calls[r.accountId]) && ValidCall(calls[r.id]) && ValidCall(calls[s.id]);
  }

  lemma HealthyApprovalSurvives(env: Env, calls: seq<Call>, used: set<Id>, db: Db, i: nat)
    requires Healthy(env, calls, used, db) && ValidCalls(calls)
    requires i < |db.decisions| && db.decisions[i].result.decision.allowed
    ensures ApprovalSurvives(calls, db, i)
  {
    var r, d := db.signals[i], db.decisions[i];
    var s := RecordProvenance(env, calls, used, db, r, d);
    var created, f := calls[r.accountId], StoredFacts(r, d, s);
    SurvivesEveryLoss(env, f, created);
    forall openLoss: real, newLoss: real | openLoss <= s.state.openRisk && newLoss <= r.payload.value.RiskAmount()
      ensures Survives(created, s.state, openLoss, newLoss)
    {
      assert Survives(created, f.account, openLoss, newLoss);
    }
  }

  lemma RecordedApprovalsSurviveTheWorstCase(env: Env, db0: Db, calls: seq<Call>, hist: seq<Entry>, i: nat)
    requires IsFresh(db0) && LegalHistory(env, db0, calls, hist) && ValidCalls(calls)
    requires var ds := Replay(env, db0, calls, hist).decisions; i < |ds| && ds[i].result.decision.allowed
    ensures i < |Replay(env, db0, calls, hist).signals| && ApprovalSurvives(calls, Replay(env, db0, calls, hist), i)
  {
    HistoriesAreHealthy(env, db0, calls, hist);
    HealthyApprovalSurvives(env, calls, Ids(hist), Replay(env, db0, calls, hist), i);
  }
}
