/** Each write route as one atomic transaction: what it reads, what it writes and what
    it answers.  `Service` is the sequential code; `Interleaving` runs it step by step. */
module Transactions {
  import opened Contracts
  import opened RiskGate
  import opened Database

  /** A request whose body has passed contract validation. */
  datatype Call = Evaluate(accountId: Id, requestKey: string, signal: Dumped<Signal>, market: Dumped<MarketState>)
                | SetKillSwitch(active: bool, reason: string, actor: string)
                | AddAccount(name: string, initialBalance: real, currency: string, policy: RiskPolicy, rules: PropRules)
                | PostState(accountId: Id, body: AccountState)

  predicate ValidCall(c: Call) {
    match c
    case Evaluate(_, _, signal, market) => signal.value.Valid() && market.value.Valid()
    case SetKillSwitch(_, _, _) => true
    case AddAccount(_, balance, _, policy, rules) => balance > 0.0 && policy.Valid() && rules.Valid()
    case PostState(_, body) => body.Valid()
  }

  datatype Error = AccountNotFound | KeyReused | NoSnapshot | SwitchMissing | UnknownZone
                 | DuplicateRecord | BalanceChanged | SnapshotNotCurrent | MissingDecision

  datatype Outcome = Evaluated(result: ScenarioResult)
                   | SwitchReported(active: bool, reason: string)
                   | AccountAdded(id: Id)
                   | StateStored(snapshotId: Id)
                   | Failed(error: Error)

  datatype Planned = Planned(writes: seq<Write>, outcome: Outcome)

  const SNAPSHOT_MAX_AGE: int := 30 * SECOND

  /** Everything in the tables that the outcome of a call can depend on. */
  datatype View = View(
    gate: Option<KillSwitch>, account: Option<Account>, previous: Option<SignalRow>,
    stored: Option<DecisionRow>, snapshots: set<Snapshot>, nameTaken: bool)

  function AccountRow(db: Db, id: Id): Option<Account> {
    if id in db.accounts then Some(db.accounts[id]) else None
  }

  function ViewOf(db: Db, c: Call): View {
    match c
    case Evaluate(a, key, _, _) =>
      var previous := FindSignal(db.signals, a, key);
      View(db.gate, AccountRow(db, a), previous,
           if previous.Some? then FindDecision(db.decisions, previous.value.id) else None,
           SnapshotsOf(db, a), false)
    case SetKillSwitch(_, _, _) => View(db.gate, None, None, None, {}, false)
    case AddAccount(name, _, _, _, _) => View(None, None, None, None, {}, NameTaken(db, name))
    case PostState(a, _) => View(None, AccountRow(db, a), None, None, {}, false)
  }

  /** What the gates are given: the newest snapshot with the account's own enabled flag,
      and a switch that counts as active when its row is missing. */
  function FactsFor(gate: Option<KillSwitch>, account: Account, s: Snapshot,
                    signal: Signal, market: MarketState, now: Instant): Facts {
    Facts(signal, s.state.(enabled := account.enabled), market, account.policy, account.rules,
          gate.None? || gate.value.active, now)
  }

  function Refuse(e: Error): Planned {
    Planned([], Failed(e))
  }

  function Record(t: Id, c: Call, account: Account, s: Snapshot, d: RiskDecision): Planned
    requires c.Evaluate?
  {
    var result := ScenarioResult(d, t);
    Planned([AddSignal(SignalRow(t, c.accountId, c.requestKey, c.signal, c.market, s.id)),
             AddDecision(DecisionRow(t, result, account.policy, account.rules)),
             AddAudit(ScenarioEvaluated(result))],
            Evaluated(result))
  }

  /** A stored request is compared with a repeated one as text. */
  predicate SameDocuments(r: SignalRow, c: Call)
    requires c.Evaluate?
  {
    r.payload.text == c.signal.text && r.market.text == c.market.text
  }

  function PlanEvaluate(env: Env, v: View, t: Id, c: Call, now: Instant, pick: Option<Snapshot>): Planned
    requires c.Evaluate?
  {
    if v.account.None? then Refuse(AccountNotFound)
    else if v.previous.Some? then
      if !SameDocuments(v.previous.value, c) then Refuse(KeyReused)
      else if v.stored.None? then Refuse(MissingDecision)
      else Planned([], Evaluated(v.stored.value.result))
    else if pick.None? then Refuse(NoSnapshot)
    else
      var f := FactsFor(v.gate, v.account.value, pick.value, c.signal.value, c.market.value, now);
      Record(t, c, v.account.value, pick.value, Combined(env, f))
  }

  function PlanSwitch(v: View, c: Call, now: Instant): Planned
    requires c.SetKillSwitch?
  {
    if v.gate.None? then Refuse(SwitchMissing)
    else Planned([SetSwitch(KillSwitch(c.active, c.reason, now)),
                  AddAudit(SwitchChanged(c.actor, c.active, c.reason))],
                 SwitchReported(c.active, c.reason))
  }

  function PlanAccount(env: Env, v: View, t: Id, c: Call): Planned
    requires c.AddAccount?
  {
    if !env.zoneKnown(c.rules.zone) then Refuse(UnknownZone)
    else if v.nameTaken then Refuse(DuplicateRecord)
    else Planned([AddAccountRow(t, Account(c.name, c.initialBalance, c.currency, false, c.policy, c.rules)),
                  AddAudit(AccountCreated(t))],
                 AccountAdded(t))
  }

  function PlanState(v: View, t: Id, c: Call, now: Instant): Planned
    requires c.PostState?
  {
    if v.account.None? then Refuse(AccountNotFound)
    else if c.body.initialBalance != v.account.value.initialBalance then Refuse(BalanceChanged)
    else if now < c.body.asOf || now - c.body.asOf > SNAPSHOT_MAX_AGE then Refuse(SnapshotNotCurrent)
    else Planned([SetEnabled(c.accountId, c.body.enabled),
                  AddSnapshot(Snapshot(t, c.accountId, c.body.asOf, c.body.riskDay, c.body)),
                  AddAudit(StateUpdated(t))],
                 StateStored(t))
  }

  /** The atomic transaction `t`: the clock reading and the snapshot its query returned
      are its only free choices. */
  function Plan(env: Env, v: View, t: Id, c: Call, now: Instant, pick: Option<Snapshot>): Planned {
    match c
    case Evaluate(_, _, _, _) => PlanEvaluate(env, v, t, c, now, pick)
    case SetKillSwitch(_, _, _) => PlanSwitch(v, c, now)
    case AddAccount(_, _, _, _, _) => PlanAccount(env, v, t, c)
    case PostState(_, _) => PlanState(v, t, c, now)
  }

  /** Does the transaction get as far as asking for the newest snapshot? */
  predicate AsksForSnapshot(v: View, c: Call) {
    c.Evaluate? && v.account.Some? && v.previous.None?
  }

  ghost predicate LegalPick(v: View, c: Call, pick: Option<Snapshot>) {
    if AsksForSnapshot(v, c) then IsLatest(v.snapshots, pick) else pick.None?
  }

  /** An evaluation that writes has found its account, no earlier use of its key, and a
      snapshot, and it records the combined verdict on them. */
  lemma RecordingPlan(env: Env, db: Db, t: Id, c: Call, now: Instant, pick: Option<Snapshot>)
    requires c.Evaluate? && Plan(env, ViewOf(db, c), t, c, now, pick).writes != []
    ensures c.accountId in db.accounts && FindSignal(db.signals, c.accountId, c.requestKey).None? && pick.Some?
    ensures AsksForSnapshot(ViewOf(db, c), c)
    ensures var a := db.accounts[c.accountId];
            var f := FactsFor(db.gate, a, pick.value, c.signal.value, c.market.value, now);
            Plan(env, ViewOf(db, c), t, c, now, pick) == Record(t, c, a, pick.value, Combined(env, f))
  {
  }

  /** A refused or replayed transaction writes nothing. */
  lemma RefusalsWriteNothing(env: Env, v: View, t: Id, c: Call, now: Instant, pick: Option<Snapshot>)
    ensures Plan(env, v, t, c, now, pick).outcome.Failed? ==> Plan(env, v, t, c, now, pick).writes == []
    ensures c.Evaluate? && v.previous.Some? ==> Plan(env, v, t, c, now, pick).writes == []
  {
  }
}
