/** STOP, resume and the accounts' flags as requests: what has been asked for and answered
    decides what can be approved, whatever the rows and the log are called. */
module Requests {
  import opened Contracts
  import opened Marks
  import opened Database
  import opened Transactions
  import opened Ledger
  import opened Effects
  import opened LedgerTheorems
  import opened Interleaving
  import opened Refinement
  import opened RunTheorems

  // ---- controls ------------------------------------------------------------

  /** Place `i` is a control request that was carried out. */
  ghost predicate Controls(env: Env, db0: Db, calls: seq<Call>, hist: seq<Entry>, i: nat)
    requires InRange(calls, hist)
  {
    i < |hist| && calls[hist[i].t].SetKillSwitch? && !OutcomeAt(env, db0, calls, hist, i).Failed?
  }

  ghost function ControlPlaces(env: Env, db0: Db, calls: seq<Call>, hist: seq<Entry>): nat -> bool
    requires InRange(calls, hist)
  {
    (i: nat) => Controls(env, db0, calls, hist, i)
  }

  function ResumePlaces(calls: seq<Call>, hist: seq<Entry>): nat -> bool
    requires InRange(calls, hist)
  {
    (i: nat) => i < |hist| && calls[hist[i].t].SetKillSwitch? && !calls[hist[i].t].active
  }

  /** The last control carried out before place `n` is a resume. */
  ghost predicate Released(env: Env, db0: Db, calls: seq<Call>, hist: seq<Entry>, n: nat)
    requires InRange(calls, hist)
  {
    LastIsOfKind(ControlPlaces(env, db0, calls, hist), ResumePlaces(calls, hist), n)
  }

  /** What place `i` does, in terms of the states around it. */
  lemma PlaceDoes(env: Env, db0: Db, calls: seq<Call>, hist: seq<Entry>, i: nat)
    requires InRange(calls, hist) && i < |hist|
    ensures StateAt(env, db0, calls, hist, i + 1) == After(env, calls, StateAt(env, db0, calls, hist, i), hist[i])
    ensures OutcomeAt(env, db0, calls, hist, i) == AnswerTo(env, calls, StateAt(env, db0, calls, hist, i), hist[i])
  {
    StateStep(env, db0, calls, hist, i);
  }

  /** A control request that was carried out left the switch as asked. */
  lemma ControlSets(env: Env, db0: Db, calls: seq<Call>, hist: seq<Entry>, i: nat)
    requires InRange(calls, hist) && i < |hist| && calls[hist[i].t].SetKillSwitch?
    ensures Controls(env, db0, calls, hist, i) <==> StateAt(env, db0, calls, hist, i).gate.Some?
    ensures Controls(env, db0, calls, hist, i) ==>
              StateAt(env, db0, calls, hist, i + 1).gate
              == Some(KillSwitch(calls[hist[i].t].active, calls[hist[i].t].reason, hist[i].now))
  {
    PlaceDoes(env, db0, calls, hist, i);
    ControlDoes(env, calls, StateAt(env, db0, calls, hist, i), hist[i]);
  }

  /** No other request touches the switch. */
  lemma OthersLeaveTheSwitch(env: Env, db0: Db, calls: seq<Call>, hist: seq<Entry>, i: nat)
    requires LegalHistory(env, db0, calls, hist) && i < |hist| && !calls[hist[i].t].SetKillSwitch?
    ensures StateAt(env, db0, calls, hist, i + 1).gate == StateAt(env, db0, calls, hist, i).gate
  {
    PlaceDoes(env, db0, calls, hist, i);
    var db, e := StateAt(env, db0, calls, hist, i), hist[i];
    match calls[e.t] {
      case AddAccount(_, _, _, _, _) => CreationDoes(env, calls, db, e);
      case PostState(_, _) => StateDoes(env, calls, db, e);
      case Evaluate(a, key, _, _) =>
        assert PickOk(env, db0, calls, hist, i);
        EvaluationDoes(env, calls, db, e);
        if a in db.accounts && FindSignal(db.signals, a, key).Some? {
          RepeatDoes(env, calls, db, e);
        }
    }
  }

  /** The switch is released exactly when the last control request carried out is a resume. */
  lemma {:induction false} SwitchIsTheLastControl(env: Env, db0: Db, calls: seq<Call>, hist: seq<Entry>, n: nat)
    requires IsFresh(db0) && LegalHistory(env, db0, calls, hist) && n <= |hist|
    ensures !Stopped(StateAt(env, db0, calls, hist, n)) <==> Released(env, db0, calls, hist, n)
    ensures StateAt(env, db0, calls, hist, n).gate.Some? == db0.gate.Some?
    decreases n
  {
    if n == 0 {
      NoneAtFirst(ControlPlaces(env, db0, calls, hist), ResumePlaces(calls, hist));
    } else {
      SwitchIsTheLastControl(env, db0, calls, hist, n - 1);
      if calls[hist[n - 1].t].SetKillSwitch? {
        ControlSets(env, db0, calls, hist, n - 1);
      } else {
        OthersLeaveTheSwitch(env, db0, calls, hist, n - 1);
      }
      OneFurther(ControlPlaces(env, db0, calls, hist), ResumePlaces(calls, hist), n - 1);
      SwitchRowStays(env, db0, calls, hist, n);
    }
  }

  lemma SwitchRowStays(env: Env, db0: Db, calls: seq<Call>, hist: seq<Entry>, n: nat)
    requires InRange(calls, hist) && n <= |hist|
    ensures StateAt(env, db0, calls, hist, n).gate.Some? == db0.gate.Some?
  {
    GatePresence(env, db0, calls, hist[..n]);
  }

  // ---- approvals -----------------------------------------------------------

  /** Place `k` records a new decision, and it is an approval. */
  ghost predicate RecordsApproval(env: Env, db0: Db, calls: seq<Call>, hist: seq<Entry>, k: nat)
    requires InRange(calls, hist)
  {
    && k < |hist| && calls[hist[k].t].Evaluate?
    && StateAt(env, db0, calls, hist, k + 1) != StateAt(env, db0, calls, hist, k)
    && Approves(OutcomeAt(env, db0, calls, hist, k))
  }

  /** A new approval is only ever recorded after a resume request with no stop request carried
      out in between, and for an account that is enabled there. */
  lemma ApprovalsFollowAResume(env: Env, db0: Db, calls: seq<Call>, hist: seq<Entry>, k: nat)
    requires IsFresh(db0) && LegalHistory(env, db0, calls, hist) && RecordsApproval(env, db0, calls, hist, k)
    ensures Released(env, db0, calls, hist, k)
    ensures var db, a := StateAt(env, db0, calls, hist, k), calls[hist[k].t].accountId;
            a in db.accounts && db.accounts[a].enabled
  {
    PlaceDoes(env, db0, calls, hist, k);
    assert PickOk(env, db0, calls, hist, k);
    RecordReadsTheRows(env, calls, StateAt(env, db0, calls, hist, k), hist[k]);
    SwitchIsTheLastControl(env, db0, calls, hist, k);
  }

  /** After a stop request was carried out, a new approval needs a resume request carried out in
      between. */
  lemma StopNeedsAResume(env: Env, db0: Db, calls: seq<Call>, hist: seq<Entry>, i: nat, k: nat)
    requires IsFresh(db0) && LegalHistory(env, db0, calls, hist) && i < k
    requires Controls(env, db0, calls, hist, i) && calls[hist[i].t].active
    requires RecordsApproval(env, db0, calls, hist, k)
    ensures exists j: nat :: i < j < k && Controls(env, db0, calls, hist, j) && !calls[hist[j].t].active
  {
    ApprovalsFollowAResume(env, db0, calls, hist, k);
    var marks := ControlPlaces(env, db0, calls, hist);
    var j: nat :| LastIs(marks, ResumePlaces(calls, hist), j, k);
    assert marks(i) && marks(j);
  }

  /** The same of the sessions of any schedule: once a stop request has been answered, no session
      placed after it records an approval unless a resume request answered in between is
      placed between them. */
  lemma StopHoldsOnEveryRun(env: Env, db0: Db, calls: seq<Call>, clock: Instant, acts: seq<Action>, i: nat, k: nat)
    requires IsFresh(db0)
    requires var m := RunOf(env, db0, calls, clock, acts);
             && InRange(calls, m.hist) && i < k < |m.hist|
             && calls[m.hist[i].t].SetKillSwitch? && calls[m.hist[i].t].active
             && m.pcs[m.hist[i].t].Done? && !m.pcs[m.hist[i].t].outcome.Failed?
             && RecordsApproval(env, db0, calls, m.hist, k)
    ensures var m := RunOf(env, db0, calls, clock, acts);
            exists j: nat :: i < j < k && IsResumed(calls, m, j)
  {
    EveryRunIsAtomic(env, db0, calls, clock, acts);
    var m := RunOf(env, db0, calls, clock, acts);
    AnswerOfPlace(env, db0, calls, clock, acts, i);
    StopNeedsAResume(env, db0, calls, m.hist, i, k);
    var j: nat :| i < j < k && Controls(env, db0, calls, m.hist, j) && !calls[m.hist[j].t].active;
    AnsweredAsResumed(env, db0, calls, clock, acts, j);
  }

  lemma AnsweredAsResumed(env: Env, db0: Db, calls: seq<Call>, clock: Instant, acts: seq<Action>, j: nat)
    requires IsFresh(db0)
    requires var m := RunOf(env, db0, calls, clock, acts);
             InRange(calls, m.hist) && Controls(env, db0, calls, m.hist, j) && !calls[m.hist[j].t].active
    ensures IsResumed(calls, RunOf(env, db0, calls, clock, acts), j)
  {
    InvHolds(env, db0, calls, clock, acts);
    assert AnswersAgree(env, db0, calls, RunOf(env, db0, calls, clock, acts), j);
  }

  /** Place `j` is a resume request that has been carried out: its answer is settled and no
      refusal. */
  ghost predicate IsResumed(calls: seq<Call>, m: Machine, j: nat)
    requires InRange(calls, m.hist) && |m.pcs| == |calls|
  {
    && j < |m.hist| && calls[m.hist[j].t].SetKillSwitch? && !calls[m.hist[j].t].active
    && m.pcs[m.hist[j].t].Done? && !m.pcs[m.hist[j].t].outcome.Failed?
  }

  // ---- flags ---------------------------------------------------------------

  /** Place `i` stores state for account `a`. */
  ghost predicate StoresState(env: Env, db0: Db, calls: seq<Call>, hist: seq<Entry>, i: nat, a: Id)
    requires InRange(calls, hist)
  {
    && i < |hist| && calls[hist[i].t].PostState? && calls[hist[i].t].accountId == a
    && !OutcomeAt(env, db0, calls, hist, i).Failed?
  }

  ghost function StatePlaces(env: Env, db0: Db, calls: seq<Call>, hist: seq<Entry>, a: Id): nat -> bool
    requires InRange(calls, hist)
  {
    (i: nat) => StoresState(env, db0, calls, hist, i, a)
  }

  function EnablingPlaces(calls: seq<Call>, hist: seq<Entry>): nat -> bool
    requires InRange(calls, hist)
  {
    (i: nat) => i < |hist| && calls[hist[i].t].PostState? && calls[hist[i].t].body.enabled
  }

  /** The last state stored for `a` before place `n` enables it. */
  ghost predicate IsEnabled(env: Env, db0: Db, calls: seq<Call>, hist: seq<Entry>, n: nat, a: Id)
    requires InRange(calls, hist)
  {
    LastIsOfKind(StatePlaces(env, db0, calls, hist, a), EnablingPlaces(calls, hist), n)
  }

  /** What place `i` does to the flag of `a`. */
  lemma FlagAfter(env: Env, db0: Db, calls: seq<Call>, hist: seq<Entry>, i: nat, a: Id)
    requires LegalHistory(env, db0, calls, hist) && i < |hist|
    ensures var db, after := StateAt(env, db0, calls, hist, i), StateAt(env, db0, calls, hist, i + 1);
            && (a in db.accounts ==> a in after.accounts)
            && (StoresState(env, db0, calls, hist, i, a) ==>
                  a in db.accounts && after.accounts[a].enabled == calls[hist[i].t].body.enabled)
            && (!StoresState(env, db0, calls, hist, i, a) && a in db.accounts && hist[i].t != a ==>
                  after.accounts[a].enabled == db.accounts[a].enabled)
            && (a !in db.accounts && a in after.accounts ==> !after.accounts[a].enabled)
  {
    PlaceDoes(env, db0, calls, hist, i);
    var db, e := StateAt(env, db0, calls, hist, i), hist[i];
    match calls[e.t] {
      case AddAccount(_, _, _, _, _) => CreationDoes(env, calls, db, e);
      case PostState(_, _) => StateDoes(env, calls, db, e);
      case SetKillSwitch(_, _, _) => ControlDoes(env, calls, db, e);
      case Evaluate(b, key, _, _) =>
        assert PickOk(env, db0, calls, hist, i);
        EvaluationDoes(env, calls, db, e);
        if b in db.accounts && FindSignal(db.signals, b, key).Some? {
          RepeatDoes(env, calls, db, e);
        }
    }
  }

  /** An account is enabled exactly when the last state stored for it says so; before any it is
      disabled. */
  lemma {:induction false} FlagIsTheLastState(env: Env, db0: Db, calls: seq<Call>, hist: seq<Entry>, n: nat, a: Id)
    requires IsFresh(db0) && LegalHistory(env, db0, calls, hist) && n <= |hist|
    ensures var db := StateAt(env, db0, calls, hist, n);
            a in db.accounts && db.accounts[a].enabled <==> IsEnabled(env, db0, calls, hist, n, a)
    decreases n
  {
    if n == 0 {
      NoneAtFirst(StatePlaces(env, db0, calls, hist, a), EnablingPlaces(calls, hist));
    } else {
      FlagIsTheLastState(env, db0, calls, hist, n - 1, a);
      FlagAfter(env, db0, calls, hist, n - 1, a);
      OneFurther(StatePlaces(env, db0, calls, hist, a), EnablingPlaces(calls, hist), n - 1);
      if a in StateAt(env, db0, calls, hist, n - 1).accounts {
        OldAccountsAreNotNew(env, db0, calls, hist, n - 1, a);
      }
    }
  }

  /** An account row belongs to an earlier session. */
  lemma OldAccountsAreNotNew(env: Env, db0: Db, calls: seq<Call>, hist: seq<Entry>, i: nat, a: Id)
    requires IsFresh(db0) && LegalHistory(env, db0, calls, hist) && i < |hist|
    requires a in StateAt(env, db0, calls, hist, i).accounts
    ensures hist[i].t != a
  {
    HistoryPrefix(env, db0, calls, hist, i);
    HistoriesAreHealthy(env, db0, calls, hist[..i]);
    var db := StateAt(env, db0, calls, hist, i);
    assert AccountOk(env, calls, Ids(hist[..i]), a, db.accounts[a]);
    var j :| 0 <= j < i && hist[..i][j].t == a;
    assert hist[j].t == a;
  }

  /** On any schedule: a new approval is recorded only while the last control request carried out
      is a resume and the last state stored for the account enables it. */
  lemma ApprovalsRestOnRequests(env: Env, db0: Db, calls: seq<Call>, clock: Instant, acts: seq<Action>, k: nat)
    requires IsFresh(db0)
    requires var m := RunOf(env, db0, calls, clock, acts);
             InRange(calls, m.hist) && RecordsApproval(env, db0, calls, m.hist, k)
    ensures var hist := RunOf(env, db0, calls, clock, acts).hist;
            && Released(env, db0, calls, hist, k)
            && IsEnabled(env, db0, calls, hist, k, calls[hist[k].t].accountId)
  {
    EveryRunIsAtomic(env, db0, calls, clock, acts);
    var hist := RunOf(env, db0, calls, clock, acts).hist;
    ApprovalsFollowAResume(env, db0, calls, hist, k);
    FlagIsTheLastState(env, db0, calls, hist, k, calls[hist[k].t].accountId);
  }
}
