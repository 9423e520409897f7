/** The transactions as the program runs them inside one session: services/risk_engine/
    service.py and the write routes of apps/api/main.py.  Raising an error rolls the
    session back, so a failing method leaves the tables as they were. */
module Service {
  import opened Contracts
  import opened RiskGate
  import GateTheorems
  import opened Database
  import opened Transactions

  lemma FlagsAreReported(env: Env, f: Facts)
    ensures var reasons := Combined(env, f).reasons;
            (AccountDisabled in reasons <==> !f.account.enabled) && (GlobalKillSwitch in reasons <==> f.killed)
  {
    GateTheorems.ReasonsAreExactlyTheBlockingFacts(env, f);
  }

  class Session {
    var gate: Option<KillSwitch>
    var accounts: map<Id, Account>
    var snapshots: seq<Snapshot>
    var signals: seq<SignalRow>
    var decisions: seq<DecisionRow>
    var audit: seq<AuditEvent>

    ghost function Contents(): Db
      reads this
    {
      Db(gate, accounts, snapshots, signals, decisions, audit)
    }

    /** The migrated database: empty tables and an active switch. */
    constructor (reason: string, now: Instant)
      ensures Contents() == Db(Some(KillSwitch(true, reason, now)), map[], [], [], [], [])
    {
      gate := Some(KillSwitch(true, reason, now));
      accounts, snapshots, signals, decisions, audit := map[], [], [], [], [];
    }

    /** The query for the newest snapshot of one account. */
    method LatestSnapshot(accountId: Id) returns (latest: Option<Snapshot>)
      ensures IsLatest(SnapshotsOf(Contents(), accountId), latest)
      ensures latest.Some? ==>
                && latest.value in snapshots && latest.value.accountId == accountId
                && forall s | s in snapshots && s.accountId == accountId :: s.observedAt <= latest.value.observedAt
      ensures latest.None? ==> forall s | s in snapshots :: s.accountId != accountId
    {
      latest := None;
      for i := 0 to |snapshots|
        invariant IsLatest((set s | s in snapshots[..i] && s.accountId == accountId), latest)
      {
        var s := snapshots[i];
        assert snapshots[..i + 1] == snapshots[..i] + [s];
        ghost var seen := set x | x in snapshots[..i] && x.accountId == accountId;
        assert (set x | x in snapshots[..i + 1] && x.accountId == accountId)
            == if s.accountId == accountId then seen + {s} else seen;
        if s.accountId == accountId && (latest.None? || latest.value.observedAt < s.observedAt) {
          latest := Some(s);
        }
      }
      assert snapshots[..|snapshots|] == snapshots;
      assert forall s | s in snapshots && s.accountId == accountId :: s in SnapshotsOf(Contents(), accountId);
    }

    method EvaluateScenario(env: Env, uid: Id, accountId: Id, requestKey: string,
                            signal: Dumped<Signal>, market: Dumped<MarketState>, now: Instant)
      returns (outcome: Outcome, ghost pick: Option<Snapshot>)
      modifies this
      ensures var c := Evaluate(accountId, requestKey, signal, market);
              LegalPick(ViewOf(old(Contents()), c), c, pick)
      ensures var c := Evaluate(accountId, requestKey, signal, market);
              var p := Plan(env, ViewOf(old(Contents()), c), uid, c, now, pick);
              outcome == p.outcome && Contents() == Apply(old(Contents()), p.writes)
      ensures pick.Some? ==>
                && accountId in old(accounts) && outcome.Evaluated?
                && (AccountDisabled in outcome.result.decision.reasons <==> !old(accounts)[accountId].enabled)
                && (GlobalKillSwitch in outcome.result.decision.reasons <==> old(gate).None? || old(gate).value.active)
    {
      pick := None;
      var killSwitch := gate;
      if accountId !in accounts {
        return Failed(AccountNotFound), pick;
      }
      var account := accounts[accountId];
      var previous := FindSignal(signals, accountId, requestKey);
      if previous.Some? {
        if previous.value.payload.text != signal.text || previous.value.market.text != market.text {
          return Failed(KeyReused), pick;
        }
        var stored := FindDecision(decisions, previous.value.id);
        return (if stored.Some? then Evaluated(stored.value.result) else Failed(MissingDecision)), pick;
      }
      var latest := LatestSnapshot(accountId);
      pick := latest;
      if latest.None? {
        return Failed(NoSnapshot), pick;
      }
      var snapshot := latest.value;
      var state := snapshot.state.(enabled := account.enabled);
      var facts := Facts(signal.value, state, market.value, account.policy, account.rules,
                         killSwitch.None? || killSwitch.value.active, now);
      var decision := RiskGate.Evaluate(env, facts);
      var propReasons := EvaluateProp(env, facts);
      var reasons := decision.reasons + propReasons;
      var result := ScenarioResult(decision.(allowed := reasons == [], reasons := reasons), uid);
      signals := signals + [SignalRow(uid, accountId, requestKey, signal, market, snapshot.id)];
      decisions := decisions + [DecisionRow(uid, result, account.policy, account.rules)];
      audit := audit + [ScenarioEvaluated(result)];
      outcome := Evaluated(result);
      assert result.decision == Combined(env, facts);
      FlagsAreReported(env, facts);
      ghost var c := Evaluate(accountId, requestKey, signal, market);
      ghost var ws := Record(uid, c, account, snapshot, result.decision).writes;
      ApplyThree(old(Contents()), ws[0], ws[1], ws[2]);
    }

    method SetSwitch(env: Env, active: bool, reason: string, actor: string, uid: Id, now: Instant)
      returns (outcome: Outcome)
      modifies this
      ensures var c := SetKillSwitch(active, reason, actor);
              var p := Plan(env, ViewOf(old(Contents()), c), uid, c, now, None);
              outcome == p.outcome && Contents() == Apply(old(Contents()), p.writes)
      ensures if old(gate).None? then Contents() == old(Contents()) && outcome == Failed(SwitchMissing)
              else
                && Contents() == old(Contents()).(gate := Some(KillSwitch(active, reason, now)),
                                                  audit := old(audit) + [SwitchChanged(actor, active, reason)])
                && outcome == SwitchReported(active, reason)
    {
      if gate.None? {
        return Failed(SwitchMissing);
      }
      gate := Some(KillSwitch(active, reason, now));
      audit := audit + [SwitchChanged(actor, active, reason)];
      ApplyTwo(old(Contents()), Write.SetSwitch(KillSwitch(active, reason, now)),
               AddAudit(SwitchChanged(actor, active, reason)));
      return SwitchReported(active, reason);
    }

    method CreateAccount(env: Env, name: string, initialBalance: real, currency: string,
                         policy: RiskPolicy, rules: PropRules, uid: Id, now: Instant)
      returns (outcome: Outcome)
      modifies this
      ensures var c := AddAccount(name, initialBalance, currency, policy, rules);
              var p := Plan(env, ViewOf(old(Contents()), c), uid, c, now, None);
              outcome == p.outcome && Contents() == Apply(old(Contents()), p.writes)
    {
      if !env.zoneKnown(rules.zone) {
        return Failed(UnknownZone);
      }
      // the unique index on accounts.name, met when the row is flushed
      if exists a | a in accounts :: accounts[a].name == name {
        return Failed(DuplicateRecord);
      }
      var row := Account(name, initialBalance, currency, false, policy, rules);
      accounts := accounts[uid := row];
      audit := audit + [AccountCreated(uid)];
      ApplyTwo(old(Contents()), AddAccountRow(uid, row), AddAudit(AccountCreated(uid)));
      return AccountAdded(uid);
    }

    method SyntheticState(env: Env, accountId: Id, body: AccountState, uid: Id, now: Instant)
      returns (outcome: Outcome)
      modifies this
      ensures var c := PostState(accountId, body);
              var p := Plan(env, ViewOf(old(Contents()), c), uid, c, now, None);
              outcome == p.outcome && Contents() == Apply(old(Contents()), p.writes)
    {
      if accountId !in accounts {
        return Failed(AccountNotFound);
      }
      var account := accounts[accountId];
      if body.initialBalance != account.initialBalance {
        return Failed(BalanceChanged);
      }
      var age := now - body.asOf;
      if age < 0 || age > SNAPSHOT_MAX_AGE {
        return Failed(SnapshotNotCurrent);
      }
      accounts := accounts[accountId := account.(enabled := body.enabled)];
      var row := Snapshot(uid, accountId, body.asOf, body.riskDay, body);
      snapshots := snapshots + [row];
      audit := audit + [StateUpdated(uid)];
      ApplyThree(old(Contents()), SetEnabled(accountId, body.enabled), AddSnapshot(row), AddAudit(StateUpdated(uid)));
      return StateStored(uid);
    }
  }
}
