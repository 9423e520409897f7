/** What each kind of request does to the tables and what it is answered, in terms of the rows
    and the request alone. */
module Effects {
  import opened Contracts
  import opened RiskGate
  import opened GateTheorems
  import opened Database
  import opened Transactions
  import opened Ledger

  /** The tables after entry `e`, and its answer. */
  function After(env: Env, calls: seq<Call>, db: Db, e: Entry): Db
    requires e.t < |calls|
  {
    Apply(db, PlanOf(env, calls, db, e).writes)
  }

  function AnswerTo(env: Env, calls: seq<Call>, db: Db, e: Entry): Outcome
    requires e.t < |calls|
  {
    PlanOf(env, calls, db, e).outcome
  }

  predicate Stopped(db: Db) {
    db.gate.None? || db.gate.value.active
  }

  /** STOP and resume set the switch to what was asked, log one event that says so, and report
      it; without a switch row they are refused. */
  lemma ControlDoes(env: Env, calls: seq<Call>, db: Db, e: Entry)
    requires e.t < |calls| && calls[e.t].SetKillSwitch?
    ensures var c, after, answer := calls[e.t], After(env, calls, db, e), AnswerTo(env, calls, db, e);
            if db.gate.None? then after == db && answer == Failed(SwitchMissing)
            else
              && after == db.(gate := Some(KillSwitch(c.active, c.reason, e.now)),
                              audit := db.audit + [SwitchChanged(c.actor, c.active, c.reason)])
              && answer == SwitchReported(c.active, c.reason)
  {
    var c := calls[e.t];
    var event := SwitchChanged(c.actor, c.active, c.reason);
    ApplyTwo(db, SetSwitch(KillSwitch(c.active, c.reason, e.now)), AddAudit(event));
  }

  /** A new account starts disabled, with the balance and profile it was asked for; an unknown
      zone and a name in use are refused. */
  lemma CreationDoes(env: Env, calls: seq<Call>, db: Db, e: Entry)
    requires e.t < |calls| && calls[e.t].AddAccount?
    ensures var c, after, answer := calls[e.t], After(env, calls, db, e), AnswerTo(env, calls, db, e);
            if !env.zoneKnown(c.rules.zone) then after == db && answer == Failed(UnknownZone)
            else if exists a :: a in db.accounts && db.accounts[a].name == c.name then
              after == db && answer == Failed(DuplicateRecord)
            else
              && after == db.(accounts := db.accounts[e.t := Account(c.name, c.initialBalance, c.currency, false,
                                                                     c.policy, c.rules)],
                              audit := db.audit + [AccountCreated(e.t)])
              && answer == AccountAdded(e.t)
  {
    var c := calls[e.t];
    var row := Account(c.name, c.initialBalance, c.currency, false, c.policy, c.rules);
    ApplyTwo(db, AddAccountRow(e.t, row), AddAudit(AccountCreated(e.t)));
  }

  /** Synthetic state is stored when its account exists, keeps its initial balance, and is at
      most thirty seconds old; it sets the account's flag to the one it carries. */
  lemma StateDoes(env: Env, calls: seq<Call>, db: Db, e: Entry)
    requires e.t < |calls| && calls[e.t].PostState?
    ensures var c, after, answer := calls[e.t], After(env, calls, db, e), AnswerTo(env, calls, db, e);
            if c.accountId !in db.accounts then after == db && answer == Failed(AccountNotFound)
            else if c.body.initialBalance != db.accounts[c.accountId].initialBalance then
              after == db && answer == Failed(BalanceChanged)
            else if !(0 <= e.now - c.body.asOf <= 30_000_000) then
              after == db && answer == Failed(SnapshotNotCurrent)
            else
              var a := db.accounts[c.accountId].(enabled := c.body.enabled);
              var s := Snapshot(e.t, c.accountId, c.body.asOf, c.body.riskDay, c.body);
              && after == db.(accounts := db.accounts[c.accountId := a], snapshots := db.snapshots + [s],
                              audit := db.audit + [StateUpdated(e.t)])
              && answer == StateStored(e.t)
  {
    var c := calls[e.t];
    var s := Snapshot(e.t, c.accountId, c.body.asOf, c.body.riskDay, c.body);
    ApplyThree(db, SetEnabled(c.accountId, c.body.enabled), AddSnapshot(s), AddAudit(StateUpdated(e.t)));
  }

  /** What an evaluation decides on: the request, the chosen snapshot with the flag of the account
      row in place of its own, the profile of the account row, and the switch. */
  function Scenario(db: Db, c: Call, s: Snapshot, now: Instant): Facts
    requires c.Evaluate? && c.accountId in db.accounts
  {
    var a := db.accounts[c.accountId];
    Facts(c.signal.value, s.state.(enabled := a.enabled), c.market.value, a.policy, a.rules, Stopped(db), now)
  }

  /** The three rows an evaluation adds. */
  ghost predicate Records(env: Env, calls: seq<Call>, db: Db, e: Entry, s: Snapshot)
    requires e.t < |calls| && calls[e.t].Evaluate? && calls[e.t].accountId in db.accounts
  {
    var c, a := calls[e.t], db.accounts[calls[e.t].accountId];
    var result := ScenarioResult(Combined(env, Scenario(db, c, s, e.now)), e.t);
    && After(env, calls, db, e)
       == db.(signals := db.signals + [SignalRow(e.t, c.accountId, c.requestKey, c.signal, c.market, s.id)],
              decisions := db.decisions + [DecisionRow(e.t, result, a.policy, a.rules)],
              audit := db.audit + [ScenarioEvaluated(result)])
    && AnswerTo(env, calls, db, e) == Evaluated(result)
  }

  /** An evaluation under a key already used changes nothing: it is answered with the stored
      result when both documents are the same text, and refused otherwise. */
  lemma RepeatDoes(env: Env, calls: seq<Call>, db: Db, e: Entry)
    requires e.t < |calls| && calls[e.t].Evaluate? && calls[e.t].accountId in db.accounts
    requires FindSignal(db.signals, calls[e.t].accountId, calls[e.t].requestKey).Some?
    ensures var c := calls[e.t];
            var row := FindSignal(db.signals, c.accountId, c.requestKey).value;
            var stored := FindDecision(db.decisions, row.id);
            && After(env, calls, db, e) == db
            && (row.payload.text != c.signal.text || row.market.text != c.market.text ==>
                  AnswerTo(env, calls, db, e) == Failed(KeyReused))
            && (row.payload.text == c.signal.text && row.market.text == c.market.text && stored.Some? ==>
                  AnswerTo(env, calls, db, e) == Evaluated(stored.value.result))
  {
  }

  /** `s` is a snapshot of account `a`, and none of that account was observed after it. */
  predicate IsNewestOf(db: Db, a: Id, s: Snapshot) {
    && s in db.snapshots && s.accountId == a
    && forall x | x in db.snapshots && x.accountId == a :: x.observedAt <= s.observedAt
  }

  lemma NewestIsLatest(db: Db, a: Id, pick: Option<Snapshot>)
    ensures IsLatest(SnapshotsOf(db, a), pick)
            <==> match pick
                 case Some(s) => IsNewestOf(db, a, s)
                 case None => forall x | x in db.snapshots :: x.accountId != a
  {
    assert forall x :: x in SnapshotsOf(db, a) <==> x in db.snapshots && x.accountId == a;
    match pick {
      case None => assert SnapshotsOf(db, a) == {} <==> forall x :: x !in SnapshotsOf(db, a);
      case Some(s) => assert IsNewestOf(db, a, s) <==> IsLatest(SnapshotsOf(db, a), pick);
    }
  }

  /** An evaluation under an unused key needs a snapshot of its account, and then records the
      combined verdict on its scenario. */
  lemma EvaluationDoes(env: Env, calls: seq<Call>, db: Db, e: Entry)
    requires e.t < |calls| && calls[e.t].Evaluate? && LegalPick(ViewOf(db, calls[e.t]), calls[e.t], e.pick)
    ensures var c := calls[e.t];
            && (c.accountId !in db.accounts ==>
                  After(env, calls, db, e) == db && AnswerTo(env, calls, db, e) == Failed(AccountNotFound))
            && (c.accountId in db.accounts && FindSignal(db.signals, c.accountId, c.requestKey).None? ==>
                  if forall x | x in db.snapshots :: x.accountId != c.accountId then
                    After(env, calls, db, e) == db && AnswerTo(env, calls, db, e) == Failed(NoSnapshot)
                  else e.pick.Some? && IsNewestOf(db, c.accountId, e.pick.value)
                       && Records(env, calls, db, e, e.pick.value))
  {
    var c := calls[e.t];
    NewestIsLatest(db, c.accountId, e.pick);
    if c.accountId in db.accounts && FindSignal(db.signals, c.accountId, c.requestKey).None? && e.pick.Some? {
      ScenarioIsDecided(env, calls, db, e, e.pick.value);
    }
  }

  lemma ScenarioIsDecided(env: Env, calls: seq<Call>, db: Db, e: Entry, s: Snapshot)
    requires e.t < |calls| && calls[e.t].Evaluate? && calls[e.t].accountId in db.accounts && e.pick == Some(s)
    requires FindSignal(db.signals, calls[e.t].accountId, calls[e.t].requestKey).None?
    ensures Records(env, calls, db, e, s)
  {
    var c, a := calls[e.t], db.accounts[calls[e.t].accountId];
    var d := Combined(env, Scenario(db, c, s, e.now));
    assert FactsFor(db.gate, a, s, c.signal.value, c.market.value, e.now) == Scenario(db, c, s, e.now);
    assert PlanOf(env, calls, db, e) == Record(e.t, c, a, s, d);
    RecordCommitted(db, e.t, c, a, s, d);
  }

  /** The flag and the switch a new record was decided on are those of the rows: the account is
      reported disabled exactly when its row is, the switch exactly when it is active or
      missing, and an approval means neither. */
  lemma RecordReadsTheRows(env: Env, calls: seq<Call>, db: Db, e: Entry)
    requires e.t < |calls| && calls[e.t].Evaluate? && LegalPick(ViewOf(db, calls[e.t]), calls[e.t], e.pick)
    requires After(env, calls, db, e) != db
    ensures calls[e.t].accountId in db.accounts && AnswerTo(env, calls, db, e).Evaluated?
    ensures var d := AnswerTo(env, calls, db, e).result.decision;
            && (AccountDisabled in d.reasons <==> !db.accounts[calls[e.t].accountId].enabled)
            && (GlobalKillSwitch in d.reasons <==> Stopped(db))
            && (d.allowed ==> db.accounts[calls[e.t].accountId].enabled && !Stopped(db))
            && d.checkedAt == e.now
  {
    EvaluationDoes(env, calls, db, e);
    var c := calls[e.t];
    if c.accountId in db.accounts && FindSignal(db.signals, c.accountId, c.requestKey).Some? {
      RepeatDoes(env, calls, db, e);
    }
    ReasonsAreExactlyTheBlockingFacts(env, Scenario(db, c, e.pick.value, e.now));
  }
}
