/** The tables the transactions share (core/models.py), as committed values, and the
    writes a session stages until it commits.  Row identifiers stand for the random
    UUIDs of the program: each transaction owns one number no other ever uses. */
module Database {
  import opened Contracts

  type Id = nat

  /** A `model_dump(mode='json')` document and the value it was dumped from.  Records
      are compared as documents, so '10' and '10.0' differ. */
  datatype Dumped<T> = Dumped(text: string, value: T)

  datatype KillSwitch = KillSwitch(active: bool, reason: string, changedAt: Instant)
  datatype Account = Account(
    name: string, initialBalance: real, currency: string, enabled: bool, policy: RiskPolicy, rules: PropRules)
  datatype Snapshot = Snapshot(id: Id, accountId: Id, observedAt: Instant, riskDay: Day, state: AccountState)
  datatype SignalRow = SignalRow(
    id: Id, accountId: Id, requestKey: string, payload: Dumped<Signal>, market: Dumped<MarketState>, snapshotId: Id)

  /** The stored and returned result of an evaluation. */
  datatype ScenarioResult = ScenarioResult(decision: RiskDecision, signalId: Id)
  datatype DecisionRow = DecisionRow(signalId: Id, result: ScenarioResult, policy: RiskPolicy, rules: PropRules)

  datatype AuditEvent = ScenarioEvaluated(result: ScenarioResult)
                      | SwitchChanged(actor: string, active: bool, reason: string)
                      | AccountCreated(accountId: Id)
                      | StateUpdated(snapshotId: Id)

  datatype Db = Db(
    gate: Option<KillSwitch>, accounts: map<Id, Account>, snapshots: seq<Snapshot>,
    signals: seq<SignalRow>, decisions: seq<DecisionRow>, audit: seq<AuditEvent>)

  datatype Write = SetSwitch(switch: KillSwitch)
                 | SetEnabled(accountId: Id, enabled: bool)
                 | AddAccountRow(id: Id, account: Account)
                 | AddSnapshot(snapshot: Snapshot)
                 | AddSignal(signal: SignalRow)
                 | AddDecision(decision: DecisionRow)
                 | AddAudit(event: AuditEvent)

  function ApplyOne(db: Db, w: Write): Db {
    match w
    case SetSwitch(k) => db.(gate := Some(k))
    case SetEnabled(a, on) =>
      if a in db.accounts then db.(accounts := db.accounts[a := db.accounts[a].(enabled := on)]) else db
    case AddAccountRow(id, a) => db.(accounts := db.accounts[id := a])
    case AddSnapshot(s) => db.(snapshots := db.snapshots + [s])
    case AddSignal(r) => db.(signals := db.signals + [r])
    case AddDecision(d) => db.(decisions := db.decisions + [d])
    case AddAudit(e) => db.(audit := db.audit + [e])
  }

  /** A commit: all staged writes, in order. */
  function Apply(db: Db, ws: seq<Write>): Db
    decreases |ws|
  {
    if ws == [] then db else Apply(ApplyOne(db, ws[0]), ws[1..])
  }

  lemma ApplyThree(db: Db, a: Write, b: Write, c: Write)
    ensures Apply(db, [a, b, c]) == ApplyOne(ApplyOne(ApplyOne(db, a), b), c)
  {
    assert [a, b, c][1..] == [b, c];
    ApplyTwo(ApplyOne(db, a), b, c);
  }

  lemma ApplyTwo(db: Db, a: Write, b: Write)
    ensures Apply(db, [a, b]) == ApplyOne(ApplyOne(db, a), b)
  {
    assert [a, b][1..] == [b] && [b][1..] == [];
    var after := ApplyOne(ApplyOne(db, a), b);
    assert Apply(ApplyOne(db, a), [b]) == Apply(after, []) == after;
  }

  // ---- queries -------------------------------------------------------------

  function FindSignal(signals: seq<SignalRow>, accountId: Id, key: string): (r: Option<SignalRow>)
    ensures r.Some? ==> r.value in signals && r.value.accountId == accountId && r.value.requestKey == key
    ensures r.None? ==> forall s | s in signals :: !(s.accountId == accountId && s.requestKey == key)
  {
    if signals == [] then None
    else if signals[0].accountId == accountId && signals[0].requestKey == key then Some(signals[0])
    else FindSignal(signals[1..], accountId, key)
  }

  function FindDecision(decisions: seq<DecisionRow>, signalId: Id): (r: Option<DecisionRow>)
    ensures r.Some? ==> r.value in decisions && r.value.signalId == signalId
    ensures r.None? ==> forall d | d in decisions :: d.signalId != signalId
  {
    if decisions == [] then None
    else if decisions[0].signalId == signalId then Some(decisions[0])
    else FindDecision(decisions[1..], signalId)
  }

  function SnapshotsOf(db: Db, accountId: Id): set<Snapshot> {
    set s | s in db.snapshots && s.accountId == accountId
  }

  predicate NameTaken(db: Db, name: string) {
    exists a | a in db.accounts :: db.accounts[a].name == name
  }

  /** `ORDER BY observed_at DESC LIMIT 1`: any snapshot no other was observed after, or
      none when there is none. */
  ghost predicate IsLatest(candidates: set<Snapshot>, pick: Option<Snapshot>) {
    match pick
    case None => candidates == {}
    case Some(s) => s in candidates && forall x | x in candidates :: x.observedAt <= s.observedAt
  }

  lemma {:induction false} LatestExists(candidates: set<Snapshot>) returns (pick: Option<Snapshot>)
    ensures IsLatest(candidates, pick)
  {
    if candidates == {} {
      pick := None;
    } else {
      var s :| s in candidates;
      var rest := LatestExists(candidates - {s});
      pick := if rest.Some? && rest.value.observedAt > s.observedAt then rest else Some(s);
      assert candidates == candidates - {s} + {s};
    }
  }

  /** Appending a row never changes an answer already found. */
  lemma {:induction false} FindSignalAppend(signals: seq<SignalRow>, r: SignalRow, accountId: Id, key: string)
    ensures FindSignal(signals + [r], accountId, key) ==
            if FindSignal(signals, accountId, key).Some? then FindSignal(signals, accountId, key)
            else if r.accountId == accountId && r.requestKey == key then Some(r) else None
  {
    if signals == [] {
      assert (signals + [r])[1..] == [];
    } else {
      assert (signals + [r])[1..] == signals[1..] + [r];
      FindSignalAppend(signals[1..], r, accountId, key);
    }
  }

  lemma {:induction false} FindDecisionAppend(decisions: seq<DecisionRow>, d: DecisionRow, signalId: Id)
    ensures FindDecision(decisions + [d], signalId) ==
            if FindDecision(decisions, signalId).Some? then FindDecision(decisions, signalId)
            else if d.signalId == signalId then Some(d) else None
  {
    if decisions == [] {
      assert (decisions + [d])[1..] == [];
    } else {
      assert (decisions + [d])[1..] == decisions[1..] + [d];
      FindDecisionAppend(decisions[1..], d, signalId);
    }
  }
}
