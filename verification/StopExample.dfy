/** A run that shows what STOP does not do: a stored approval is still answered under it. */
module StopExample {
  import opened Contracts
  import opened RiskGate
  import opened GateTheorems
  import opened Database
  import opened Transactions
  import opened Ledger
  import opened Effects
  import opened LedgerTheorems
  import opened Interleaving
  import opened RunTheorems
  import opened Realization

  const ENV: Env := Env((_, _) => 0, _ => true)
  const POLICY: RiskPolicy := RiskPolicy(0.01, 0.02, 0.05, 0.1, 3, 5, 3, 5.0, 3.0, 0.1, 30, 30)
  const RULES: PropRules := PropRules("generic-paper", false, "UTC", 0.05, 0.1, 0.1)
  const STATE: AccountState := AccountState(1000.0, 1000.0, 1000.0, 1000.0, 0, 0.0, 0, 0, 0, 0, true)
  const SIGNAL: Signal :=
    Signal("EURUSD", Buy, 10.0, 9.0, 12.0, 1.0, 1.0, 0.0, "H1", "sma-cross:1", 0, [], NoContext)
  const MARKET: MarketState := MarketState(0, true, true, 1.0, 1.0, 0.01, true, 0, [])

  const ASKED: Call := Evaluate(0, "key", Dumped("signal", SIGNAL), Dumped("market", MARKET))

  /** An account, its state, a resume, an evaluation, a stop, and the same evaluation again. */
  const CALLS: seq<Call> :=
    [AddAccount("paper", 1000.0, "USD", POLICY, RULES), PostState(0, STATE),
     SetKillSwitch(false, "go", "admin"), ASKED, SetKillSwitch(true, "stop", "admin"), ASKED]

  const FRESH: Db := Db(Some(KillSwitch(true, "installed", 0)), map[], [], [], [], [])

  const ROW: Account := Account("paper", 1000.0, "USD", false, POLICY, RULES)
  const TAKEN: Snapshot := Snapshot(1, 0, 0, 0, STATE)
  const FACTS: Facts := Facts(SIGNAL, STATE, MARKET, POLICY, RULES, false, 0)

  function Result(): ScenarioResult {
    ScenarioResult(Combined(ENV, FACTS), 3)
  }

  /** The tables after the first `n` of them. */
  function Tables(n: nat): Db
    requires n <= 5
  {
    if n == 0 then FRESH
    else if n == 1 then FRESH.(accounts := map[0 := ROW], audit := [AccountCreated(0)])
    else if n == 2 then
      Tables(1).(accounts := map[0 := ROW.(enabled := true)], snapshots := [TAKEN],
                 audit := Tables(1).audit + [StateUpdated(1)])
    else if n == 3 then
      Tables(2).(gate := Some(KillSwitch(false, "go", 0)),
                 audit := Tables(2).audit + [SwitchChanged("admin", false, "go")])
    else if n == 4 then
      Tables(3).(signals := [SignalRow(3, 0, "key", ASKED.signal, ASKED.market, 1)],
                 decisions := [DecisionRow(3, Result(), POLICY, RULES)],
                 audit := Tables(3).audit + [ScenarioEvaluated(Result())])
    else
      Tables(4).(gate := Some(KillSwitch(true, "stop", 0)),
                 audit := Tables(4).audit + [SwitchChanged("admin", true, "stop")])
  }

  function Entries(): seq<Entry> {
    [Entry(0, 0, None), Entry(1, 0, None), Entry(2, 0, None),
     Entry(3, 0, Some(TAKEN)), Entry(4, 0, None), Entry(5, 0, None)]
  }

  lemma NothingBlocks()
    ensures Combined(ENV, FACTS).allowed
  {
    ReasonsAreExactlyTheBlockingFacts(ENV, FACTS);
    assert FACTS.signal.RiskAmount() == 1.0;
  }

  lemma AccountStep()
    ensures Apply(Tables(0), PlanOf(ENV, CALLS, Tables(0), Entries()[0]).writes) == Tables(1)
  {
    ApplyTwo(Tables(0), AddAccountRow(0, ROW), AddAudit(AccountCreated(0)));
  }

  lemma StateStep()
    ensures Apply(Tables(1), PlanOf(ENV, CALLS, Tables(1), Entries()[1]).writes) == Tables(2)
  {
    ApplyThree(Tables(1), SetEnabled(0, true), AddSnapshot(TAKEN), AddAudit(StateUpdated(1)));
  }

  lemma ResumeStep()
    ensures Apply(Tables(2), PlanOf(ENV, CALLS, Tables(2), Entries()[2]).writes) == Tables(3)
  {
    ApplyTwo(Tables(2), SetSwitch(KillSwitch(false, "go", 0)), AddAudit(SwitchChanged("admin", false, "go")));
  }

  lemma PlanRecords(env: Env, db: Db, t: Id, c: Call, now: Instant, s: Snapshot)
    requires c.Evaluate? && c.accountId in db.accounts && FindSignal(db.signals, c.accountId, c.requestKey).None?
    ensures Plan(env, ViewOf(db, c), t, c, now, Some(s))
         == Record(t, c, db.accounts[c.accountId], s,
                   Combined(env, FactsFor(db.gate, db.accounts[c.accountId], s, c.signal.value, c.market.value, now)))
  {
  }

  lemma EvaluateStep()
    ensures Apply(Tables(3), PlanOf(ENV, CALLS, Tables(3), Entries()[3]).writes) == Tables(4)
  {
    var row := ROW.(enabled := true);
    assert FactsFor(Tables(3).gate, row, TAKEN, SIGNAL, MARKET, 0) == FACTS;
    PlanRecords(ENV, Tables(3), 3, ASKED, 0, TAKEN);
    RecordStep(Combined(ENV, FACTS));
  }

  lemma RecordStep(d: RiskDecision)
    requires Result() == ScenarioResult(d, 3)
    ensures Apply(Tables(3), Record(3, ASKED, ROW.(enabled := true), TAKEN, d).writes) == Tables(4)
  {
    RecordCommitted(Tables(3), 3, ASKED, ROW.(enabled := true), TAKEN, d);
  }

  lemma PickIsLegal()
    ensures LegalPick(ViewOf(Tables(3), ASKED), ASKED, Some(TAKEN))
  {
  }

  lemma StopStep()
    ensures Apply(Tables(4), PlanOf(ENV, CALLS, Tables(4), Entries()[4]).writes) == Tables(5)
  {
    ApplyTwo(Tables(4), SetSwitch(KillSwitch(true, "stop", 0)), AddAudit(SwitchChanged("admin", true, "stop")));
  }

  lemma {:induction false} TablesAreReplayed(n: nat)
    requires n <= 5
    ensures Replay(ENV, FRESH, CALLS, Entries()[..n]) == Tables(n)
  {
    if n > 0 {
      TablesAreReplayed(n - 1);
      assert Entries()[..n][..n - 1] == Entries()[..n - 1] && Entries()[..n][n - 1] == Entries()[n - 1];
      StepOf(n - 1);
    }
  }

  lemma StepOf(n: nat)
    requires n < 5
    ensures Apply(Tables(n), PlanOf(ENV, CALLS, Tables(n), Entries()[n]).writes) == Tables(n + 1)
  {
    match n {
      case 0 => AccountStep();
      case 1 => StateStep();
      case 2 => ResumeStep();
      case 3 => EvaluateStep();
      case 4 => StopStep();
    }
  }

  lemma PicksAreLegal(i: nat)
    requires i < 6
    ensures i <= 5 && LegalPick(ViewOf(Tables(i), CALLS[i]), CALLS[i], Entries()[i].pick)
  {
    if i == 3 {
      PickIsLegal();
    } else if i == 5 {
      SecondAnswer();
    }
  }

  lemma RunIsLegal()
    ensures LegalHistory(ENV, FRESH, CALLS, Entries())
  {
    forall i: nat | i < 6
      ensures Entries()[i].t == i && PickOk(ENV, FRESH, CALLS, Entries(), i)
    {
      TablesAreReplayed(i);
      PicksAreLegal(i);
    }
  }

  lemma SecondAnswer()
    ensures Plan(ENV, ViewOf(Tables(5), ASKED), 5, ASKED, 0, None).outcome == Evaluated(Result())
    ensures !AsksForSnapshot(ViewOf(Tables(5), ASKED), ASKED)
  {
  }

  /** From a freshly installed database, the last of these six transactions is answered with an
      approval although the switch is active: a stop refuses no key that is already stored. */
  lemma StopDoesNotSilenceStoredApprovals()
    ensures IsFresh(FRESH) && LegalHistory(ENV, FRESH, CALLS, Entries())
    ensures Stopped(StateAt(ENV, FRESH, CALLS, Entries(), 5)) && CALLS[5].Evaluate?
    ensures Approves(OutcomeAt(ENV, FRESH, CALLS, Entries(), 5))
  {
    RunIsLegal();
    TablesAreReplayed(5);
    NothingBlocks();
    SecondAnswer();
  }

  /** And on a run of the interleaved machine: there is a schedule that carries out these six
      transactions in this order and answers the last one so. */
  lemma ARunAnswersUnderStop() returns (acts: seq<Action>)
    ensures RunOf(ENV, FRESH, CALLS, 0, acts).hist == Entries()
    ensures Stopped(StateAt(ENV, FRESH, CALLS, Entries(), 5))
    ensures var pc := RunOf(ENV, FRESH, CALLS, 0, acts).pcs[5]; pc.Done? && Approves(pc.outcome)
  {
    StopDoesNotSilenceStoredApprovals();
    acts := HistoriesAreRuns(ENV, FRESH, CALLS, 0, Entries());
    assert Entries()[5].t == 5;
    AnswerOfPlace(ENV, FRESH, CALLS, 0, acts, 5);
  }
}
