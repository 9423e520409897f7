/** Atomic histories: transactions run one at a time, in commit order.  Whatever the
    order, the tables stay healthy: every row can be traced to the request that made
    it, records are complete and replayable, and no approval was ever recorded while
    the switch was active. */
module Ledger {
  import opened Contracts
  import opened RiskGate
  import opened GateTheorems
  import opened Database
  import opened Transactions

  /** One transaction in a history: who, its clock reading, and the snapshot its query
      returned if it asked for one. */
  datatype Entry = Entry(t: Id, now: Instant, pick: Option<Snapshot>)

  /** All requests of a run have passed validation. */
  ghost predicate ValidCalls(calls: seq<Call>) {
    forall c | c in calls :: ValidCall(c)
  }

  /** The database before any request: no rows, and the switch active or missing. */
  ghost predicate IsFresh(db: Db) {
    && db == Db(db.gate, map[], [], [], [], [])
    && (db.gate.Some? ==> db.gate.value.active)
  }

  function PlanOf(env: Env, calls: seq<Call>, db: Db, e: Entry): Planned
    requires e.t < |calls|
  {
    Plan(env, ViewOf(db, calls[e.t]), e.t, calls[e.t], e.now, e.pick)
  }

  ghost predicate InRange(calls: seq<Call>, hist: seq<Entry>) {
    forall i | 0 <= i < |hist| :: hist[i].t < |calls|
  }

  /** Running a history atomically, in order. */
  ghost function Replay(env: Env, db0: Db, calls: seq<Call>, hist: seq<Entry>): Db
    requires InRange(calls, hist)
  {
    if hist == [] then db0
    else
      var before := Replay(env, db0, calls, hist[..|hist| - 1]);
      Apply(before, PlanOf(env, calls, before, hist[|hist| - 1]).writes)
  }

  /** The answer of entry `i`'s snapshot query was possible when given. */
  ghost predicate PickOk(env: Env, db0: Db, calls: seq<Call>, hist: seq<Entry>, i: nat)
    requires InRange(calls, hist) && i < |hist|
  {
    LegalPick(ViewOf(Replay(env, db0, calls, hist[..i]), calls[hist[i].t]), calls[hist[i].t], hist[i].pick)
  }

  /** No transaction appears twice and every query answer was possible when given. */
  ghost predicate LegalHistory(env: Env, db0: Db, calls: seq<Call>, hist: seq<Entry>) {
    && InRange(calls, hist)
    && (forall i, j | 0 <= i < j < |hist| :: hist[i].t != hist[j].t)
    && (forall i: nat {:trigger PickOk(env, db0, calls, hist, i)} | i < |hist| :: PickOk(env, db0, calls, hist, i))
  }

  ghost function Ids(hist: seq<Entry>): set<Id> {
    set i | 0 <= i < |hist| :: hist[i].t
  }

  // ---- health --------------------------------------------------------------

  ghost predicate AccountOk(env: Env, calls: seq<Call>, used: set<Id>, id: Id, a: Account) {
    && id in used && id < |calls| && calls[id].AddAccount?
    && var c := calls[id];
    && a == Account(c.name, c.initialBalance, c.currency, a.enabled, c.policy, c.rules)
    && env.zoneKnown(c.rules.zone)
  }

  ghost predicate SnapshotOk(calls: seq<Call>, used: set<Id>, db: Db, s: Snapshot) {
    && s.id in used && s.id < |calls| && calls[s.id] == PostState(s.accountId, s.state)
    && s.observedAt == s.state.asOf && s.riskDay == s.state.riskDay
    && s.accountId in db.accounts && s.state.initialBalance == db.accounts[s.accountId].initialBalance
  }

  /** The inputs of a stored decision, rebuilt from stored rows alone: switch and enabled
      flag are read off the reasons. */
  ghost function StoredFacts(r: SignalRow, d: DecisionRow, s: Snapshot): Facts {
    Facts(r.payload.value, s.state.(enabled := AccountDisabled !in d.result.decision.reasons), r.market.value,
          d.policy, d.rules, GlobalKillSwitch in d.result.decision.reasons, d.result.decision.checkedAt)
  }

  /** Re-running both engines on the stored rows gives the stored result. */
  ghost predicate Replays(env: Env, r: SignalRow, d: DecisionRow, s: Snapshot) {
    && s.id == r.snapshotId && s.accountId == r.accountId
    && d.result == ScenarioResult(Combined(env, StoredFacts(r, d, s)), r.id)
  }

  ghost predicate RecordOk(env: Env, calls: seq<Call>, used: set<Id>, db: Db, r: SignalRow, d: DecisionRow) {
    && r.id in used && r.id < |calls| && calls[r.id] == Evaluate(r.accountId, r.requestKey, r.payload, r.market)
    && d.signalId == r.id
    && r.accountId in db.accounts
    && d.policy == db.accounts[r.accountId].policy && d.rules == db.accounts[r.accountId].rules
    && exists s :: s in db.snapshots && Replays(env, r, d, s)
  }

  ghost predicate AccountsOk(env: Env, calls: seq<Call>, used: set<Id>, db: Db) {
    && (forall a | a in db.accounts :: AccountOk(env, calls, used, a, db.accounts[a]))
    && (forall a, b | a in db.accounts && b in db.accounts && a != b :: db.accounts[a].name != db.accounts[b].name)
  }

  ghost predicate SnapshotsOk(calls: seq<Call>, used: set<Id>, db: Db) {
    && (forall s | s in db.snapshots :: SnapshotOk(calls, used, db, s))
    && (forall i, j | 0 <= i < j < |db.snapshots| :: db.snapshots[i].id != db.snapshots[j].id)
  }

  /** Signals and decisions correspond one to one, row by row; ids and keys are unique. */
  ghost predicate RecordsOk(env: Env, calls: seq<Call>, used: set<Id>, db: Db) {
    && |db.signals| == |db.decisions|
    && (forall i | 0 <= i < |db.signals| :: RecordOk(env, calls, used, db, db.signals[i], db.decisions[i]))
    && (forall i, j | 0 <= i < j < |db.signals| :: DistinctRows(db.signals[i], db.signals[j]))
  }

  ghost predicate DistinctRows(r: SignalRow, q: SignalRow) {
    r.id != q.id && (r.accountId != q.accountId || r.requestKey != q.requestKey)
  }

  /** The results announced in the audit log, in order. */
  function AuditedResults(audit: seq<AuditEvent>): seq<ScenarioResult> {
    if audit == [] then []
    else
      var rest := AuditedResults(audit[..|audit| - 1]);
      match audit[|audit| - 1]
      case ScenarioEvaluated(r) => rest + [r]
      case _ => rest
  }

  function StoredResults(decisions: seq<DecisionRow>): seq<ScenarioResult> {
    if decisions == [] then []
    else StoredResults(decisions[..|decisions| - 1]) + [decisions[|decisions| - 1].result]
  }

  /** Is the switch active after these events?  It starts active. */
  function ActiveAfter(audit: seq<AuditEvent>): bool {
    if audit == [] then true
    else
      match audit[|audit| - 1]
      case SwitchChanged(_, active, _) => active
      case _ => ActiveAfter(audit[..|audit| - 1])
  }

  predicate IsApproval(e: AuditEvent) {
    e.ScenarioEvaluated? && e.result.decision.allowed
  }

  /** The switch is what the last control event made it, and each approval in the log
      was recorded while it was released; with the row missing there is none. */
  ghost predicate StopOk(db: Db) {
    && (db.gate.Some? ==> db.gate.value.active == ActiveAfter(db.audit))
    && (db.gate.None? ==> forall j | 0 <= j < |db.audit| :: !IsApproval(db.audit[j]))
    && (forall j | 0 <= j < |db.audit| && IsApproval(db.audit[j]) :: !ActiveAfter(db.audit[..j]))
  }

  ghost predicate Healthy(env: Env, calls: seq<Call>, used: set<Id>, db: Db) {
    && AccountsOk(env, calls, used, db)
    && SnapshotsOk(calls, used, db)
    && RecordsOk(env, calls, used, db)
    && AuditedResults(db.audit) == StoredResults(db.decisions)
    && StopOk(db)
  }

  // ---- what each committed transaction leaves ------------------------------

  lemma AuditGrows(audit: seq<AuditEvent>, e: AuditEvent)
    ensures AuditedResults(audit + [e]) ==
            (if e.ScenarioEvaluated? then AuditedResults(audit) + [e.result] else AuditedResults(audit))
    ensures ActiveAfter(audit + [e]) == if e.SwitchChanged? then e.active else ActiveAfter(audit)
  {
    assert (audit + [e])[..|audit|] == audit;
  }

  lemma StopGrows(db: Db, after: Db, e: AuditEvent)
    requires StopOk(db) && after.audit == db.audit + [e] && after.gate.Some? == db.gate.Some?
    requires IsApproval(e) ==> db.gate.Some? && !db.gate.value.active
    requires after.gate.Some? ==> after.gate.value.active == if e.SwitchChanged? then e.active else db.gate.value.active
    ensures StopOk(after)
  {
    AuditGrows(db.audit, e);
    forall j | 0 <= j < |after.audit| && IsApproval(after.audit[j])
      ensures !ActiveAfter(after.audit[..j])
    {
      assert after.audit[..j] == if j < |db.audit| then db.audit[..j] else db.audit;
    }
  }

  /** Rows other than the accounts' enabled flags only get more; nothing a record rests on
      is lost. */
  ghost predicate Extends(db: Db, after: Db) {
    && db.accounts.Keys <= after.accounts.Keys
    && (forall a | a in db.accounts :: after.accounts[a] == db.accounts[a].(enabled := after.accounts[a].enabled))
    && db.snapshots <= after.snapshots
  }

  lemma RecordsSurvive(env: Env, calls: seq<Call>, used: set<Id>, t: Id, db: Db, after: Db)
    requires RecordsOk(env, calls, used, db) && Extends(db, after)
    requires after.signals == db.signals && after.decisions == db.decisions
    ensures RecordsOk(env, calls, used + {t}, after)
  {
    forall i | 0 <= i < |db.signals|
      ensures RecordOk(env, calls, used + {t}, after, after.signals[i], after.decisions[i])
    {
      RecordSurvives(env, calls, used, t, db, after, db.signals[i], db.decisions[i]);
    }
  }

  lemma RecordSurvives(env: Env, calls: seq<Call>, used: set<Id>, t: Id, db: Db, after: Db,
                       r: SignalRow, d: DecisionRow)
    requires RecordOk(env, calls, used, db, r, d) && Extends(db, after)
    ensures RecordOk(env, calls, used + {t}, after, r, d)
  {
    var s :| s in db.snapshots && Replays(env, r, d, s);
    assert s in after.snapshots;
  }

  lemma IdleKeepsHealth(env: Env, calls: seq<Call>, used: set<Id>, t: Id, db: Db)
    requires Healthy(env, calls, used, db)
    ensures Healthy(env, calls, used + {t}, db)
  {
    RecordsSurvive(env, calls, used, t, db, db);
  }

  lemma SwitchKeepsHealth(env: Env, calls: seq<Call>, used: set<Id>, db: Db, e: Entry)
    requires e.t < |calls| && calls[e.t].SetKillSwitch? && Healthy(env, calls, used, db)
    ensures Healthy(env, calls, used + {e.t}, Apply(db, PlanOf(env, calls, db, e).writes))
  {
    var p, c := PlanOf(env, calls, db, e), calls[e.t];
    var after := Apply(db, p.writes);
    if db.gate.None? {
      IdleKeepsHealth(env, calls, used, e.t, db);
    } else {
      ApplyTwo(db, p.writes[0], p.writes[1]);
      AuditGrows(db.audit, SwitchChanged(c.actor, c.active, c.reason));
      StopGrows(db, after, SwitchChanged(c.actor, c.active, c.reason));
      RecordsSurvive(env, calls, used, e.t, db, after);
    }
  }

  lemma AccountKeepsHealth(env: Env, calls: seq<Call>, used: set<Id>, db: Db, e: Entry)
    requires e.t < |calls| && calls[e.t].AddAccount? && e.t !in used && Healthy(env, calls, used, db)
    ensures Healthy(env, calls, used + {e.t}, Apply(db, PlanOf(env, calls, db, e).writes))
  {
    var p := PlanOf(env, calls, db, e);
    if p.writes == [] {
      IdleKeepsHealth(env, calls, used, e.t, db);
    } else {
      ApplyTwo(db, p.writes[0], p.writes[1]);
      NewAccountKeepsHealth(env, calls, used, db, e.t, p.writes[0].account);
    }
  }

  lemma NewAccountKeepsHealth(env: Env, calls: seq<Call>, used: set<Id>, db: Db, t: Id, a: Account)
    requires Healthy(env, calls, used, db) && t !in used && AccountOk(env, calls, used + {t}, t, a)
    requires !NameTaken(db, a.name)
    ensures Healthy(env, calls, used + {t},
                    db.(accounts := db.accounts[t := a], audit := db.audit + [AccountCreated(t)]))
  {
    var after := db.(accounts := db.accounts[t := a], audit := db.audit + [AccountCreated(t)]);
    assert t !in db.accounts;
    AuditGrows(db.audit, AccountCreated(t));
    StopGrows(db, after, AccountCreated(t));
    RecordsSurvive(env, calls, used, t, db, after);
    AccountAdded(env, calls, used, db, after, t, a);
  }

  lemma AccountAdded(env: Env, calls: seq<Call>, used: set<Id>, db: Db, after: Db, t: Id, a: Account)
    requires AccountsOk(env, calls, used, db) && SnapshotsOk(calls, used, db)
    requires t !in db.accounts && AccountOk(env, calls, used + {t}, t, a) && !NameTaken(db, a.name)
    requires after.accounts == db.accounts[t := a] && after.snapshots == db.snapshots
    ensures AccountsOk(env, calls, used + {t}, after) && SnapshotsOk(calls, used + {t}, after)
  {
  }

  lemma StateKeepsHealth(env: Env, calls: seq<Call>, used: set<Id>, db: Db, e: Entry)
    requires e.t < |calls| && calls[e.t].PostState? && e.t !in used && Healthy(env, calls, used, db)
    ensures Healthy(env, calls, used + {e.t}, Apply(db, PlanOf(env, calls, db, e).writes))
  {
    var p := PlanOf(env, calls, db, e);
    if p.writes == [] {
      IdleKeepsHealth(env, calls, used, e.t, db);
    } else {
      ApplyThree(db, p.writes[0], p.writes[1], p.writes[2]);
      var s := p.writes[1].snapshot;
      assert Apply(db, p.writes) == WithSnapshot(db, s);
      SnapshotKeepsHealth(env, calls, used, db, s);
    }
  }

  function WithSnapshot(db: Db, s: Snapshot): Db
    requires s.accountId in db.accounts
  {
    db.(accounts := db.accounts[s.accountId := db.accounts[s.accountId].(enabled := s.state.enabled)],
        snapshots := db.snapshots + [s], audit := db.audit + [StateUpdated(s.id)])
  }

  lemma SnapshotKeepsHealth(env: Env, calls: seq<Call>, used: set<Id>, db: Db, s: Snapshot)
    requires Healthy(env, calls, used, db) && s.id !in used && s.accountId in db.accounts
    requires SnapshotOk(calls, used + {s.id}, db, s)
    ensures Healthy(env, calls, used + {s.id}, WithSnapshot(db, s))
  {
    var after := WithSnapshot(db, s);
    AuditGrows(db.audit, StateUpdated(s.id));
    StopGrows(db, after, StateUpdated(s.id));
    RecordsSurvive(env, calls, used, s.id, db, after);
    SnapshotAdded(calls, used, db, after, s);
    AccountsStay(env, calls, used, db, s);
  }

  lemma AccountsStay(env: Env, calls: seq<Call>, used: set<Id>, db: Db, s: Snapshot)
    requires AccountsOk(env, calls, used, db) && s.accountId in db.accounts
    ensures AccountsOk(env, calls, used + {s.id}, WithSnapshot(db, s))
  {
  }

  lemma SnapshotAdded(calls: seq<Call>, used: set<Id>, db: Db, after: Db, s: Snapshot)
    requires SnapshotsOk(calls, used, db) && Extends(db, after) && s.id !in used
    requires after.snapshots == db.snapshots + [s] && SnapshotOk(calls, used + {s.id}, after, s)
    ensures SnapshotsOk(calls, used + {s.id}, after)
  {
    forall x | x in after.snapshots
      ensures SnapshotOk(calls, used + {s.id}, after, x)
    {
      if x != s {
        assert x in db.snapshots && SnapshotOk(calls, used, db, x);
      }
    }
    forall i, j | 0 <= i < j < |after.snapshots|
      ensures after.snapshots[i].id != after.snapshots[j].id
    {
      if j == |db.snapshots| {
        assert db.snapshots[i] in db.snapshots;
      }
    }
  }

  lemma EvaluationKeepsHealth(env: Env, calls: seq<Call>, used: set<Id>, db: Db, e: Entry)
    requires e.t < |calls| && calls[e.t].Evaluate? && e.t !in used && Healthy(env, calls, used, db)
    requires LegalPick(ViewOf(db, calls[e.t]), calls[e.t], e.pick)
    ensures Healthy(env, calls, used + {e.t}, Apply(db, PlanOf(env, calls, db, e).writes))
  {
    var c := calls[e.t];
    if PlanOf(env, calls, db, e).writes == [] {
      IdleKeepsHealth(env, calls, used, e.t, db);
    } else {
      RecordingPlan(env, db, e.t, c, e.now, e.pick);
      var a, s := db.accounts[c.accountId], e.pick.value;
      var f := FactsFor(db.gate, a, s, c.signal.value, c.market.value, e.now);
      var r, d := RowsOf(e.t, c, a, s, Combined(env, f)).0, RowsOf(e.t, c, a, s, Combined(env, f)).1;
      RecordCommitted(db, e.t, c, a, s, Combined(env, f));
      assert s in SnapshotsOf(db, c.accountId);
      RecordKeepsHealth(env, calls, used, db, e.t, s, e.now, r, d);
    }
  }

  function RowsOf(t: Id, c: Call, a: Account, s: Snapshot, d: RiskDecision): (SignalRow, DecisionRow)
    requires c.Evaluate?
  {
    (SignalRow(t, c.accountId, c.requestKey, c.signal, c.market, s.id),
     DecisionRow(t, ScenarioResult(d, t), a.policy, a.rules))
  }

  lemma RecordCommitted(db: Db, t: Id, c: Call, a: Account, s: Snapshot, d: RiskDecision)
    requires c.Evaluate?
    ensures Apply(db, Record(t, c, a, s, d).writes) == WithRecord(db, RowsOf(t, c, a, s, d).0, RowsOf(t, c, a, s, d).1)
  {
    var ws := Record(t, c, a, s, d).writes;
    ApplyThree(db, ws[0], ws[1], ws[2]);
  }

  /** The tables after an evaluation has recorded its three rows. */
  function WithRecord(db: Db, r: SignalRow, d: DecisionRow): Db {
    db.(signals := db.signals + [r], decisions := db.decisions + [d],
        audit := db.audit + [ScenarioEvaluated(d.result)])
  }

  lemma RecordKeepsHealth(env: Env, calls: seq<Call>, used: set<Id>, db: Db, t: Id, s: Snapshot, now: Instant,
                          r: SignalRow, d: DecisionRow)
    requires Healthy(env, calls, used, db) && t !in used && t < |calls|
    requires calls[t] == Evaluate(r.accountId, r.requestKey, r.payload, r.market)
    requires r.id == t == d.signalId && r.snapshotId == s.id
    requires FindSignal(db.signals, r.accountId, r.requestKey).None?
    requires r.accountId in db.accounts && s in SnapshotsOf(db, r.accountId)
    requires var a := db.accounts[r.accountId];
             && d.policy == a.policy && d.rules == a.rules
             && d.result
                == ScenarioResult(Combined(env, FactsFor(db.gate, a, s, r.payload.value, r.market.value, now)), t)
    ensures Healthy(env, calls, used + {t}, WithRecord(db, r, d))
  {
    var after := WithRecord(db, r, d);
    var f := FactsFor(db.gate, db.accounts[r.accountId], s, r.payload.value, r.market.value, now);
    AuditGrows(db.audit, ScenarioEvaluated(d.result));
    assert StoredResults(after.decisions) == StoredResults(db.decisions) + [d.result] by {
      assert (db.decisions + [d])[..|db.decisions|] == db.decisions;
    }
    assert (d.result.decision.allowed ==> !f.killed) && Replays(env, r, d, s) by {
      ReasonsAreExactlyTheBlockingFacts(env, f);
      assert d.result.decision.allowed ==> !Blocks(env, f, GlobalKillSwitch);
      assert StoredFacts(r, d, s) == f;
    }
    StopGrows(db, after, ScenarioEvaluated(d.result));
    assert RecordOk(env, calls, used + {t}, after, r, d);
    RecordAdded(env, calls, used, db, after, r, d);
  }

  lemma RecordAdded(env: Env, calls: seq<Call>, used: set<Id>, db: Db, after: Db, r: SignalRow, d: DecisionRow)
    requires RecordsOk(env, calls, used, db) && Extends(db, after) && r.id !in used
    requires after.signals == db.signals + [r] && after.decisions == db.decisions + [d]
    requires RecordOk(env, calls, used + {r.id}, after, r, d)
    requires FindSignal(db.signals, r.accountId, r.requestKey).None?
    ensures RecordsOk(env, calls, used + {r.id}, after)
  {
    forall i | 0 <= i < |after.signals|
      ensures RecordOk(env, calls, used + {r.id}, after, after.signals[i], after.decisions[i])
    {
      if i < |db.signals| {
        RecordSurvives(env, calls, used, r.id, db, after, db.signals[i], db.decisions[i]);
      }
    }
    forall i, j | 0 <= i < j < |after.signals|
      ensures DistinctRows(after.signals[i], after.signals[j])
    {
      if j == |db.signals| {
        assert db.signals[i] in db.signals;
        assert RecordOk(env, calls, used, db, db.signals[i], db.decisions[i]);
      }
    }
  }

  /** Every transaction, whatever its answer, keeps the tables healthy. */
  lemma TransactionKeepsHealth(env: Env, calls: seq<Call>, used: set<Id>, db: Db, e: Entry)
    requires e.t < |calls| && e.t !in used && Healthy(env, calls, used, db)
    requires LegalPick(ViewOf(db, calls[e.t]), calls[e.t], e.pick)
    ensures Healthy(env, calls, used + {e.t}, Apply(db, PlanOf(env, calls, db, e).writes))
  {
    match calls[e.t] {
      case Evaluate(_, _, _, _) => EvaluationKeepsHealth(env, calls, used, db, e);
      case SetKillSwitch(_, _, _) => SwitchKeepsHealth(env, calls, used, db, e);
      case AddAccount(_, _, _, _, _) => AccountKeepsHealth(env, calls, used, db, e);
      case PostState(_, _) => StateKeepsHealth(env, calls, used, db, e);
    }
  }

  lemma HistoryPrefix(env: Env, db0: Db, calls: seq<Call>, hist: seq<Entry>, n: nat)
    requires LegalHistory(env, db0, calls, hist) && n <= |hist|
    ensures LegalHistory(env, db0, calls, hist[..n])
  {
    forall i: nat | i < n
      ensures PickOk(env, db0, calls, hist[..n], i)
    {
      assert hist[..n][..i] == hist[..i] && PickOk(env, db0, calls, hist, i);
    }
  }

  lemma IdsGrow(hist: seq<Entry>, e: Entry)
    ensures Ids(hist + [e]) == Ids(hist) + {e.t}
  {
    var longer := hist + [e];
    assert longer[|hist|].t == e.t;
    forall t | t in Ids(hist)
      ensures t in Ids(longer)
    {
      var i :| 0 <= i < |hist| && hist[i].t == t;
      assert longer[i].t == t;
    }
    forall t | t in Ids(longer)
      ensures t in Ids(hist) + {e.t}
    {
      var i :| 0 <= i < |longer| && longer[i].t == t;
      assert i < |hist| ==> hist[i].t in Ids(hist);
    }
  }

  /** What a legal history says about its last entry. */
  lemma LastEntry(env: Env, db0: Db, calls: seq<Call>, front: seq<Entry>, e: Entry)
    requires LegalHistory(env, db0, calls, front + [e])
    ensures LegalHistory(env, db0, calls, front)
    ensures e.t < |calls| && e.t !in Ids(front)
    ensures LegalPick(ViewOf(Replay(env, db0, calls, front), calls[e.t]), calls[e.t], e.pick)
    ensures Replay(env, db0, calls, front + [e])
         == Apply(Replay(env, db0, calls, front), PlanOf(env, calls, Replay(env, db0, calls, front), e).writes)
  {
    var hist, n := front + [e], |front|;
    assert hist[..n] == front && hist[n] == e;
    HistoryPrefix(env, db0, calls, hist, n);
    assert PickOk(env, db0, calls, hist, n);
    forall i | 0 <= i < n
      ensures front[i].t != e.t
    {
      assert hist[i].t != hist[n].t;
    }
  }

  /** The tables are healthy after every legal atomic history. */
  lemma {:induction false} HistoriesAreHealthy(env: Env, db0: Db, calls: seq<Call>, hist: seq<Entry>)
    requires IsFresh(db0) && LegalHistory(env, db0, calls, hist)
    ensures Healthy(env, calls, Ids(hist), Replay(env, db0, calls, hist))
  {
    if hist == [] {
      NoRowsAreHealthy(env, calls, db0);
    } else {
      var front, e := hist[..|hist| - 1], hist[|hist| - 1];
      assert hist == front + [e];
      LastEntry(env, db0, calls, front, e);
      IdsGrow(front, e);
      HistoriesAreHealthy(env, db0, calls, front);
      TransactionKeepsHealth(env, calls, Ids(front), Replay(env, db0, calls, front), e);
    }
  }

  lemma NoRowsAreHealthy(env: Env, calls: seq<Call>, db0: Db)
    requires IsFresh(db0)
    ensures Healthy(env, calls, Ids([]), db0)
  {
  }
}
