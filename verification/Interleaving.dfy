/** The same transactions run concurrently, one database operation at a time, over
    committed tables with row locks.  `SELECT ... FOR UPDATE` waits for the lock of an
    existing row and takes nothing when the row is absent; a plain read sees the last
    commit; writes are staged in the session and appear when it commits; a flushed row
    with a unique value waits for an uncommitted row with the same value. */
module Interleaving {
  import opened Contracts
  import opened RiskGate
  import opened Database
  import opened Transactions
  import opened Ledger

  datatype Lock = GateRow | AccountLock(id: Id) | NameEntry(name: string) | KeyEntry(accountId: Id, requestKey: string)

  /** Where a session is, with the local variables it has read so far. */
  datatype Pc =
    | Start
    | GateRead(gate: Option<KillSwitch>)
    | AccountRead(gate: Option<KillSwitch>, account: Account)
    | PreviousFound(previous: SignalRow)
    | KeyUnused(gate: Option<KillSwitch>, account: Account)
    | SnapshotRead(gate: Option<KillSwitch>, account: Account, snapshot: Snapshot)
    | Decided(now: Instant, pick: Option<Snapshot>, planned: Planned)
    | ZoneChecked
    | Staged(now: Instant, pick: Option<Snapshot>, planned: Planned)
    | Refused(error: Error)
    | Done(outcome: Outcome)
    | Crashed

  /** `hist` is a ghost log: each transaction enters it when its answer is settled, at its
      commit or when it decides to fail. */
  datatype Machine = Machine(
    db: Db, pcs: seq<Pc>, locks: map<Lock, Id>, clock: Instant, hist: seq<Entry>)

  /** One event of a schedule: time passes, a session makes its next step (its snapshot
      query, if that is the step, returning `pick`), or a session is lost and rolled back. */
  datatype Action = Tick(d: nat) | Step(t: Id, pick: Option<Snapshot>) | Crash(t: Id)

  function Init(calls: seq<Call>, db0: Db, clock: Instant): Machine {
    Machine(db0, seq(|calls|, _ => Start), map[], clock, [])
  }

  function Goto(m: Machine, t: Id, pc: Pc): Machine
    requires t < |m.pcs|
  {
    m.(pcs := m.pcs[t := pc])
  }

  function Take(m: Machine, t: Id, l: Lock, pc: Pc): Machine
    requires t < |m.pcs|
  {
    m.(pcs := m.pcs[t := pc], locks := m.locks[l := t])
  }

  function LocksWithout(locks: map<Lock, Id>, t: Id): map<Lock, Id> {
    map l | l in locks && locks[l] != t :: locks[l]
  }

  function Finish(m: Machine, t: Id, pc: Pc): Machine
    requires t < |m.pcs|
  {
    m.(pcs := m.pcs[t := pc], locks := LocksWithout(m.locks, t))
  }

  /** An exception is raised: nothing will be written, the rollback comes next. */
  function Fail(m: Machine, t: Id, e: Error): Machine
    requires t < |m.pcs|
  {
    m.(pcs := m.pcs[t := Refused(e)], hist := m.hist + [Entry(t, m.clock, None)])
  }

  function Commit(m: Machine, t: Id, now: Instant, pick: Option<Snapshot>, p: Planned): Machine
    requires t < |m.pcs|
  {
    Finish(m, t, Done(p.outcome)).(db := Apply(m.db, p.writes), hist := m.hist + [Entry(t, now, pick)])
  }

  // A step that has to wait, or a query answer that is not possible, changes nothing.

  ghost function AdvanceEvaluate(env: Env, c: Call, m: Machine, t: Id, pick: Option<Snapshot>): Machine
    requires t < |m.pcs| && c.Evaluate?
  {
    match m.pcs[t]
    case Start =>
      if m.db.gate.None? then Goto(m, t, GateRead(None))
      else if GateRow in m.locks then m
      else Take(m, t, GateRow, GateRead(m.db.gate))
    case GateRead(g) =>
      if c.accountId !in m.db.accounts then Fail(m, t, AccountNotFound)
      else if AccountLock(c.accountId) in m.locks then m
      else Take(m, t, AccountLock(c.accountId), AccountRead(g, m.db.accounts[c.accountId]))
    case AccountRead(g, a) =>
      var previous := FindSignal(m.db.signals, c.accountId, c.requestKey);
      if previous.None? then Goto(m, t, KeyUnused(g, a))
      else if !SameDocuments(previous.value, c) then Fail(m, t, KeyReused)
      else Goto(m, t, PreviousFound(previous.value))
    case PreviousFound(r) =>
      var stored := FindDecision(m.db.decisions, r.id);
      if stored.None? then Fail(m, t, MissingDecision)
      else Goto(m, t, Staged(m.clock, None, Planned([], Evaluated(stored.value.result))))
    case KeyUnused(g, a) =>
      if !IsLatest(SnapshotsOf(m.db, c.accountId), pick) then m
      else if pick.None? then Fail(m, t, NoSnapshot)
      else Goto(m, t, SnapshotRead(g, a, pick.value))
    case SnapshotRead(g, a, s) =>
      var f := FactsFor(g, a, s, c.signal.value, c.market.value, m.clock);
      Goto(m, t, Decided(m.clock, Some(s), Record(t, c, a, s, Combined(env, f))))
    case Decided(now, s, p) =>
      if KeyEntry(c.accountId, c.requestKey) in m.locks then m
      else if FindSignal(m.db.signals, c.accountId, c.requestKey).Some? then Fail(m, t, DuplicateRecord)
      else Take(m, t, KeyEntry(c.accountId, c.requestKey), Staged(now, s, p))
    case _ => m
  }

  ghost function AdvanceSwitch(c: Call, m: Machine, t: Id): Machine
    requires t < |m.pcs| && c.SetKillSwitch?
  {
    match m.pcs[t]
    case Start =>
      if m.db.gate.None? then Fail(m, t, SwitchMissing)
      else if GateRow in m.locks then m
      else Take(m, t, GateRow, GateRead(m.db.gate))
    case GateRead(g) =>
      Goto(m, t, Staged(m.clock, None, Planned([SetSwitch(KillSwitch(c.active, c.reason, m.clock)),
                                               AddAudit(SwitchChanged(c.actor, c.active, c.reason))],
                                              SwitchReported(c.active, c.reason))))
    case _ => m
  }

  ghost function AdvanceAccount(env: Env, c: Call, m: Machine, t: Id): Machine
    requires t < |m.pcs| && c.AddAccount?
  {
    match m.pcs[t]
    case Start =>
      if !env.zoneKnown(c.rules.zone) then Fail(m, t, UnknownZone) else Goto(m, t, ZoneChecked)
    case ZoneChecked =>
      if NameEntry(c.name) in m.locks then m
      else if NameTaken(m.db, c.name) then Fail(m, t, DuplicateRecord)
      else
        var row := Account(c.name, c.initialBalance, c.currency, false, c.policy, c.rules);
        Take(m, t, NameEntry(c.name),
             Staged(m.clock, None, Planned([AddAccountRow(t, row), AddAudit(AccountCreated(t))], AccountAdded(t))))
    case _ => m
  }

  ghost function AdvanceState(c: Call, m: Machine, t: Id): Machine
    requires t < |m.pcs| && c.PostState?
  {
    match m.pcs[t]
    case Start =>
      if c.accountId !in m.db.accounts then Fail(m, t, AccountNotFound)
      else if AccountLock(c.accountId) in m.locks then m
      else Take(m, t, AccountLock(c.accountId), AccountRead(None, m.db.accounts[c.accountId]))
    case AccountRead(_, a) =>
      if c.body.initialBalance != a.initialBalance then Fail(m, t, BalanceChanged)
      else if m.clock < c.body.asOf || m.clock - c.body.asOf > SNAPSHOT_MAX_AGE then Fail(m, t, SnapshotNotCurrent)
      else
        var row := Snapshot(t, c.accountId, c.body.asOf, c.body.riskDay, c.body);
        Goto(m, t, Staged(m.clock, None, Planned([SetEnabled(c.accountId, c.body.enabled), AddSnapshot(row),
                                                 AddAudit(StateUpdated(t))],
                                                StateStored(t))))
    case _ => m
  }

  ghost function Advance(env: Env, calls: seq<Call>, m: Machine, t: Id, pick: Option<Snapshot>): Machine
    requires t < |m.pcs| == |calls|
  {
    match m.pcs[t]
    case Staged(now, s, p) => Commit(m, t, now, s, p)
    case Refused(e) => Finish(m, t, Done(Failed(e)))
    case _ =>
      match calls[t]
      case Evaluate(_, _, _, _) => AdvanceEvaluate(env, calls[t], m, t, pick)
      case SetKillSwitch(_, _, _) => AdvanceSwitch(calls[t], m, t)
      case AddAccount(_, _, _, _, _) => AdvanceAccount(env, calls[t], m, t)
      case PostState(_, _) => AdvanceState(calls[t], m, t)
  }

  predicate Settled(pc: Pc) {
    pc.Refused? || pc.Done?
  }

  predicate Finished(pc: Pc) {
    pc.Done? || pc.Crashed?
  }

  ghost function Do(env: Env, calls: seq<Call>, m: Machine, a: Action): (r: Machine)
    requires |m.pcs| == |calls|
    ensures |r.pcs| == |calls|
  {
    match a
    case Tick(d) => m.(clock := m.clock + d)
    case Step(t, pick) => if t < |calls| then Advance(env, calls, m, t, pick) else m
    case Crash(t) => if t < |calls| && !Settled(m.pcs[t]) && !Finished(m.pcs[t]) then Finish(m, t, Crashed) else m
  }

  /** The machine after a schedule.  Every sequence of actions is a schedule. */
  ghost function Exec(env: Env, calls: seq<Call>, m: Machine, acts: seq<Action>): (r: Machine)
    requires |m.pcs| == |calls|
    ensures |r.pcs| == |calls|
  {
    if acts == [] then m
    else Do(env, calls, Exec(env, calls, m, acts[..|acts| - 1]), acts[|acts| - 1])
  }
}
