/** The machine is not stricter than the atomic transactions: every legal atomic history whose
    clock readings never go back is what some schedule does, running the sessions one after
    the other. */
module Realization {
  import opened Contracts
  import opened Database
  import opened Transactions
  import opened Ledger
  import opened Interleaving
  import opened RunTheorems

  // ---- one session, on its own ---------------------------------------------

  /** The machine once session `t` has run: its transaction applied and logged, no lock held. */
  function Ended(m: Machine, t: Id, pick: Option<Snapshot>, p: Planned): Machine
    requires t < |m.pcs|
  {
    Machine(Apply(m.db, p.writes), m.pcs[t := Done(p.outcome)], map[], m.clock, m.hist + [Entry(t, m.clock, pick)])
  }

  /** Only session `t` holds locks, and only those in `ls`. */
  predicate HoldsOnly(m: Machine, t: Id, ls: set<Lock>) {
    forall l | l in m.locks :: l in ls && m.locks[l] == t
  }

  /** `acts` bring session `t` from where it is to its end, as planned. */
  ghost predicate Runs(env: Env, calls: seq<Call>, m: Machine, t: Id, pick: Option<Snapshot>, p: Planned,
                       acts: seq<Action>) {
    t < |m.pcs| == |calls| && Exec(env, calls, m, acts) == Ended(m, t, pick, p)
  }

  lemma ExecFirst(env: Env, calls: seq<Call>, m: Machine, a: Action, rest: seq<Action>)
    requires |m.pcs| == |calls|
    ensures Exec(env, calls, m, [a] + rest) == Exec(env, calls, Do(env, calls, m, a), rest)
  {
    ExecConcat(env, calls, m, [a], rest);
    assert [a][..0] == [] && Exec(env, calls, m, []) == m;
    assert Exec(env, calls, m, [a]) == Do(env, calls, m, a);
  }

  /** One step that only moves `t` and its locks, then the rest. */
  lemma StepFirst(env: Env, calls: seq<Call>, m: Machine, s: Option<Snapshot>, next: Machine, t: Id,
                  pick: Option<Snapshot>, p: Planned, rest: seq<Action>) returns (acts: seq<Action>)
    requires t < |m.pcs| == |calls| && next == Do(env, calls, m, Step(t, s))
    requires next.db == m.db && next.clock == m.clock && next.hist == m.hist
    requires |next.pcs| == |m.pcs| && next.pcs == m.pcs[t := next.pcs[t]]
    requires Runs(env, calls, next, t, pick, p, rest)
    ensures Runs(env, calls, m, t, pick, p, acts)
  {
    acts := [Step(t, s)] + rest;
    ExecFirst(env, calls, m, Step(t, s), rest);
    assert next.pcs[t := Done(p.outcome)] == m.pcs[t := Done(p.outcome)];
  }

  lemma NoLocksLeft(m: Machine, t: Id, ls: set<Lock>)
    requires HoldsOnly(m, t, ls)
    ensures LocksWithout(m.locks, t) == map[]
  {
  }

  lemma CommitRuns(env: Env, calls: seq<Call>, m: Machine, t: Id, ls: set<Lock>, pick: Option<Snapshot>, p: Planned)
    returns (acts: seq<Action>)
    requires t < |m.pcs| == |calls| && m.pcs[t] == Staged(m.clock, pick, p) && HoldsOnly(m, t, ls)
    ensures Runs(env, calls, m, t, pick, p, acts)
  {
    acts := [Step(t, None)] + [];
    NoLocksLeft(m, t, ls);
    ExecFirst(env, calls, m, Step(t, None), []);
  }

  /** The next step fails: the error is logged, and the rollback follows. */
  lemma FailureRuns(env: Env, calls: seq<Call>, m: Machine, t: Id, ls: set<Lock>, s: Option<Snapshot>, e: Error)
    returns (acts: seq<Action>)
    requires t < |m.pcs| == |calls| && Do(env, calls, m, Step(t, s)) == Fail(m, t, e) && HoldsOnly(m, t, ls)
    ensures Runs(env, calls, m, t, None, Refuse(e), acts)
  {
    var failed := Fail(m, t, e);
    acts := [Step(t, s)] + ([Step(t, None)] + []);
    NoLocksLeft(m, t, ls);
    ExecFirst(env, calls, failed, Step(t, None), []);
    ExecFirst(env, calls, m, Step(t, s), [Step(t, None)] + []);
    assert Apply(m.db, []) == m.db;
    assert failed.pcs[t := Done(Failed(e))] == m.pcs[t := Done(Failed(e))];
  }

  // ---- the four kinds of session -------------------------------------------

  /** What the atomic transaction of session `t` does now. */
  function Planning(env: Env, calls: seq<Call>, m: Machine, t: Id, pick: Option<Snapshot>): Planned
    requires t < |calls|
  {
    Plan(env, ViewOf(m.db, calls[t]), t, calls[t], m.clock, pick)
  }

  lemma SwitchRuns(env: Env, calls: seq<Call>, m: Machine, t: Id) returns (acts: seq<Action>)
    requires t < |m.pcs| == |calls| && calls[t].SetKillSwitch? && m.pcs[t].Start? && m.locks == map[]
    ensures Runs(env, calls, m, t, None, Planning(env, calls, m, t, None), acts)
  {
    var p := Planning(env, calls, m, t, None);
    if m.db.gate.None? {
      acts := FailureRuns(env, calls, m, t, {}, None, SwitchMissing);
    } else {
      var locked := Take(m, t, GateRow, GateRead(m.db.gate));
      var staged := Goto(locked, t, Staged(m.clock, None, p));
      acts := CommitRuns(env, calls, staged, t, {GateRow}, None, p);
      acts := StepFirst(env, calls, locked, None, staged, t, None, p, acts);
      acts := StepFirst(env, calls, m, None, locked, t, None, p, acts);
    }
  }

  lemma AccountRuns(env: Env, calls: seq<Call>, m: Machine, t: Id) returns (acts: seq<Action>)
    requires t < |m.pcs| == |calls| && calls[t].AddAccount? && m.pcs[t].Start? && m.locks == map[]
    ensures Runs(env, calls, m, t, None, Planning(env, calls, m, t, None), acts)
  {
    var c, p := calls[t], Planning(env, calls, m, t, None);
    if !env.zoneKnown(c.rules.zone) {
      acts := FailureRuns(env, calls, m, t, {}, None, UnknownZone);
    } else {
      var checked := Goto(m, t, ZoneChecked);
      if NameTaken(m.db, c.name) {
        acts := FailureRuns(env, calls, checked, t, {}, None, DuplicateRecord);
      } else {
        var staged := Take(checked, t, NameEntry(c.name), Staged(m.clock, None, p));
        acts := CommitRuns(env, calls, staged, t, {NameEntry(c.name)}, None, p);
        acts := StepFirst(env, calls, checked, None, staged, t, None, p, acts);
      }
      acts := StepFirst(env, calls, m, None, checked, t, None, p, acts);
    }
  }

  lemma StateRuns(env: Env, calls: seq<Call>, m: Machine, t: Id) returns (acts: seq<Action>)
    requires t < |m.pcs| == |calls| && calls[t].PostState? && m.pcs[t].Start? && m.locks == map[]
    ensures Runs(env, calls, m, t, None, Planning(env, calls, m, t, None), acts)
  {
    var c, p := calls[t], Planning(env, calls, m, t, None);
    if c.accountId !in m.db.accounts {
      acts := FailureRuns(env, calls, m, t, {}, None, AccountNotFound);
    } else {
      var locked := Take(m, t, AccountLock(c.accountId), AccountRead(None, m.db.accounts[c.accountId]));
      if p.outcome.Failed? {
        acts := FailureRuns(env, calls, locked, t, {AccountLock(c.accountId)}, None, p.outcome.error);
      } else {
        var staged := Goto(locked, t, Staged(m.clock, None, p));
        acts := CommitRuns(env, calls, staged, t, {AccountLock(c.accountId)}, None, p);
        acts := StepFirst(env, calls, locked, None, staged, t, None, p, acts);
      }
      acts := StepFirst(env, calls, m, None, locked, t, None, p, acts);
    }
  }

  /** The locks of an evaluation before its flush. */
  function EvaluationLocks(c: Call): set<Lock>
    requires c.Evaluate?
  {
    {GateRow, AccountLock(c.accountId)}
  }

  lemma RecordRuns(env: Env, calls: seq<Call>, m: Machine, t: Id, a: Account, s: Snapshot) returns (acts: seq<Action>)
    requires t < |m.pcs| == |calls| && calls[t].Evaluate? && HoldsOnly(m, t, EvaluationLocks(calls[t]))
    requires m.pcs[t] == SnapshotRead(m.db.gate, a, s) && AccountRow(m.db, calls[t].accountId) == Some(a)
    requires FindSignal(m.db.signals, calls[t].accountId, calls[t].requestKey).None?
    ensures Runs(env, calls, m, t, Some(s), Planning(env, calls, m, t, Some(s)), acts)
  {
    var c, p := calls[t], Planning(env, calls, m, t, Some(s));
    var decided := Goto(m, t, Decided(m.clock, Some(s), p));
    var key := KeyEntry(c.accountId, c.requestKey);
    var staged := Take(decided, t, key, Staged(m.clock, Some(s), p));
    acts := CommitRuns(env, calls, staged, t, EvaluationLocks(c) + {key}, Some(s), p);
    acts := StepFirst(env, calls, decided, None, staged, t, Some(s), p, acts);
    acts := StepFirst(env, calls, m, None, decided, t, Some(s), p, acts);
  }

  lemma UnusedKeyRuns(env: Env, calls: seq<Call>, m: Machine, t: Id, a: Account, pick: Option<Snapshot>)
    returns (acts: seq<Action>)
    requires t < |m.pcs| == |calls| && calls[t].Evaluate? && HoldsOnly(m, t, EvaluationLocks(calls[t]))
    requires m.pcs[t] == KeyUnused(m.db.gate, a) && AccountRow(m.db, calls[t].accountId) == Some(a)
    requires FindSignal(m.db.signals, calls[t].accountId, calls[t].requestKey).None?
    requires IsLatest(SnapshotsOf(m.db, calls[t].accountId), pick)
    ensures Runs(env, calls, m, t, pick, Planning(env, calls, m, t, pick), acts)
  {
    var p := Planning(env, calls, m, t, pick);
    if pick.None? {
      acts := FailureRuns(env, calls, m, t, EvaluationLocks(calls[t]), None, NoSnapshot);
    } else {
      var read := Goto(m, t, SnapshotRead(m.db.gate, a, pick.value));
      acts := RecordRuns(env, calls, read, t, a, pick.value);
      acts := StepFirst(env, calls, m, pick, read, t, pick, p, acts);
    }
  }

  lemma UsedKeyRuns(env: Env, calls: seq<Call>, m: Machine, t: Id, a: Account) returns (acts: seq<Action>)
    requires t < |m.pcs| == |calls| && calls[t].Evaluate? && HoldsOnly(m, t, EvaluationLocks(calls[t]))
    requires m.pcs[t] == AccountRead(m.db.gate, a) && AccountRow(m.db, calls[t].accountId) == Some(a)
    requires FindSignal(m.db.signals, calls[t].accountId, calls[t].requestKey).Some?
    ensures Runs(env, calls, m, t, None, Planning(env, calls, m, t, None), acts)
  {
    var c, p := calls[t], Planning(env, calls, m, t, None);
    var row := FindSignal(m.db.signals, c.accountId, c.requestKey).value;
    if !SameDocuments(row, c) {
      acts := FailureRuns(env, calls, m, t, EvaluationLocks(c), None, KeyReused);
    } else {
      var found := Goto(m, t, PreviousFound(row));
      if FindDecision(m.db.decisions, row.id).None? {
        acts := FailureRuns(env, calls, found, t, EvaluationLocks(c), None, MissingDecision);
      } else {
        var staged := Goto(found, t, Staged(m.clock, None, p));
        acts := CommitRuns(env, calls, staged, t, EvaluationLocks(c), None, p);
        acts := StepFirst(env, calls, found, None, staged, t, None, p, acts);
      }
      acts := StepFirst(env, calls, m, None, found, t, None, p, acts);
    }
  }

  lemma FoundAccountRuns(env: Env, calls: seq<Call>, m: Machine, t: Id, a: Account, pick: Option<Snapshot>)
    returns (acts: seq<Action>)
    requires t < |m.pcs| == |calls| && calls[t].Evaluate? && HoldsOnly(m, t, EvaluationLocks(calls[t]))
    requires m.pcs[t] == AccountRead(m.db.gate, a) && AccountRow(m.db, calls[t].accountId) == Some(a)
    requires LegalPick(ViewOf(m.db, calls[t]), calls[t], pick)
    ensures Runs(env, calls, m, t, pick, Planning(env, calls, m, t, pick), acts)
  {
    if FindSignal(m.db.signals, calls[t].accountId, calls[t].requestKey).Some? {
      acts := UsedKeyRuns(env, calls, m, t, a);
    } else {
      var unused := Goto(m, t, KeyUnused(m.db.gate, a));
      acts := UnusedKeyRuns(env, calls, unused, t, a, pick);
      acts := StepFirst(env, calls, m, None, unused, t, pick, Planning(env, calls, m, t, pick), acts);
    }
  }

  lemma GateReadRuns(env: Env, calls: seq<Call>, m: Machine, t: Id, pick: Option<Snapshot>) returns (acts: seq<Action>)
    requires t < |m.pcs| == |calls| && calls[t].Evaluate? && HoldsOnly(m, t, {GateRow})
    requires m.pcs[t] == GateRead(m.db.gate) && LegalPick(ViewOf(m.db, calls[t]), calls[t], pick)
    ensures Runs(env, calls, m, t, pick, Planning(env, calls, m, t, pick), acts)
  {
    var c := calls[t];
    if c.accountId !in m.db.accounts {
      acts := FailureRuns(env, calls, m, t, {GateRow}, None, AccountNotFound);
    } else {
      var a := m.db.accounts[c.accountId];
      var locked := Take(m, t, AccountLock(c.accountId), AccountRead(m.db.gate, a));
      acts := FoundAccountRuns(env, calls, locked, t, a, pick);
      acts := StepFirst(env, calls, m, None, locked, t, pick, Planning(env, calls, m, t, pick), acts);
    }
  }

  lemma EvaluationRuns(env: Env, calls: seq<Call>, m: Machine, t: Id, pick: Option<Snapshot>)
    returns (acts: seq<Action>)
    requires t < |m.pcs| == |calls| && calls[t].Evaluate? && m.pcs[t].Start? && m.locks == map[]
    requires LegalPick(ViewOf(m.db, calls[t]), calls[t], pick)
    ensures Runs(env, calls, m, t, pick, Planning(env, calls, m, t, pick), acts)
  {
    var read := if m.db.gate.None? then Goto(m, t, GateRead(None)) else Take(m, t, GateRow, GateRead(m.db.gate));
    acts := GateReadRuns(env, calls, read, t, pick);
    acts := StepFirst(env, calls, m, None, read, t, pick, Planning(env, calls, m, t, pick), acts);
  }

  /** A session that starts with no lock taken can be run to its end as the atomic transaction. */
  lemma SessionRuns(env: Env, calls: seq<Call>, m: Machine, t: Id, pick: Option<Snapshot>) returns (acts: seq<Action>)
    requires t < |m.pcs| == |calls| && m.pcs[t].Start? && m.locks == map[]
    requires LegalPick(ViewOf(m.db, calls[t]), calls[t], pick)
    ensures Runs(env, calls, m, t, pick, Planning(env, calls, m, t, pick), acts)
  {
    match calls[t] {
      case Evaluate(_, _, _, _) => acts := EvaluationRuns(env, calls, m, t, pick);
      case SetKillSwitch(_, _, _) => acts := SwitchRuns(env, calls, m, t);
      case AddAccount(_, _, _, _, _) => acts := AccountRuns(env, calls, m, t);
      case PostState(_, _) => acts := StateRuns(env, calls, m, t);
    }
  }

  // ---- whole histories -----------------------------------------------------

  /** The clock readings of a history from `clock` on never go back. */
  predicate ClockRuns(clock: Instant, hist: seq<Entry>) {
    && (forall i | 0 <= i < |hist| :: clock <= hist[i].now)
    && (forall i, j | 0 <= i < j < |hist| :: hist[i].now <= hist[j].now)
  }

  /** The machine after the sessions of `hist` have run one after the other. */
  ghost predicate HasRun(env: Env, db0: Db, calls: seq<Call>, clock: Instant, hist: seq<Entry>, m: Machine) {
    && |m.pcs| == |calls| && InRange(calls, hist)
    && m.hist == hist && m.db == Replay(env, db0, calls, hist) && m.locks == map[]
    && m.clock == (if hist == [] then clock else hist[|hist| - 1].now)
    && (forall t | 0 <= t < |calls| && t !in Ids(hist) :: m.pcs[t].Start?)
    && (forall i | 0 <= i < |hist| :: m.pcs[hist[i].t].Done?)
  }

  lemma TickAndRun(env: Env, calls: seq<Call>, m: Machine, e: Entry) returns (acts: seq<Action>)
    requires e.t < |m.pcs| == |calls| && m.pcs[e.t].Start? && m.locks == map[] && m.clock <= e.now
    requires LegalPick(ViewOf(m.db, calls[e.t]), calls[e.t], e.pick)
    ensures Exec(env, calls, m, acts) == Ended(m.(clock := e.now), e.t, e.pick, PlanOf(env, calls, m.db, e))
  {
    var d: nat := e.now - m.clock;
    var ticked := m.(clock := e.now);
    var steps := SessionRuns(env, calls, ticked, e.t, e.pick);
    acts := [Tick(d)] + steps;
    ExecFirst(env, calls, m, Tick(d), steps);
  }

  lemma OneMoreRuns(env: Env, db0: Db, calls: seq<Call>, clock: Instant, front: seq<Entry>, e: Entry, m: Machine)
    returns (acts: seq<Action>)
    requires HasRun(env, db0, calls, clock, front, m) && m.clock <= e.now
    requires e.t < |calls| && e.t !in Ids(front) && LegalPick(ViewOf(m.db, calls[e.t]), calls[e.t], e.pick)
    requires Replay(env, db0, calls, front + [e]) == Apply(m.db, PlanOf(env, calls, m.db, e).writes)
    ensures HasRun(env, db0, calls, clock, front + [e], Exec(env, calls, m, acts))
  {
    acts := TickAndRun(env, calls, m, e);
    RanOneMore(env, db0, calls, clock, front, e, m, Exec(env, calls, m, acts));
  }

  lemma ClockOfLast(clock: Instant, front: seq<Entry>, e: Entry)
    requires ClockRuns(clock, front + [e])
    ensures ClockRuns(clock, front)
    ensures (if front == [] then clock else front[|front| - 1].now) <= e.now
  {
    var hist, n := front + [e], |front|;
    assert hist[n] == e && forall i | 0 <= i < n :: hist[i] == front[i];
  }

  lemma RanOneMore(env: Env, db0: Db, calls: seq<Call>, clock: Instant, front: seq<Entry>, e: Entry,
                   m: Machine, r: Machine)
    requires HasRun(env, db0, calls, clock, front, m) && e.t < |calls| && e.t !in Ids(front)
    requires Replay(env, db0, calls, front + [e]) == Apply(m.db, PlanOf(env, calls, m.db, e).writes)
    requires r == Ended(m.(clock := e.now), e.t, e.pick, PlanOf(env, calls, m.db, e))
    ensures HasRun(env, db0, calls, clock, front + [e], r)
  {
    IdsGrow(front, e);
    var hist := front + [e];
    forall i | 0 <= i < |hist|
      ensures r.pcs[hist[i].t].Done?
    {
      if i < |front| {
        assert hist[i] == front[i] && front[i].t in Ids(front);
      }
    }
  }

  lemma LongerRun(env: Env, db0: Db, calls: seq<Call>, clock: Instant, front: seq<Entry>, e: Entry, before: seq<Action>)
    returns (acts: seq<Action>)
    requires LegalHistory(env, db0, calls, front + [e]) && ClockRuns(clock, front + [e])
    requires HasRun(env, db0, calls, clock, front, RunOf(env, db0, calls, clock, before))
    ensures HasRun(env, db0, calls, clock, front + [e], RunOf(env, db0, calls, clock, acts))
  {
    LastEntry(env, db0, calls, front, e);
    ClockOfLast(clock, front, e);
    var more := OneMoreRuns(env, db0, calls, clock, front, e, RunOf(env, db0, calls, clock, before));
    ExecConcat(env, calls, Init(calls, db0, clock), before, more);
    acts := before + more;
  }

  lemma FrontIsLegal(env: Env, db0: Db, calls: seq<Call>, clock: Instant, front: seq<Entry>, e: Entry)
    requires LegalHistory(env, db0, calls, front + [e]) && ClockRuns(clock, front + [e])
    ensures LegalHistory(env, db0, calls, front) && ClockRuns(clock, front)
  {
    LastEntry(env, db0, calls, front, e);
    ClockOfLast(clock, front, e);
  }

  /** Every legal atomic history whose clock readings never go back is the log of a schedule,
      with the same tables in the end and every session of it answered. */
  lemma {:induction false} HistoriesAreRuns(env: Env, db0: Db, calls: seq<Call>, clock: Instant, hist: seq<Entry>)
    returns (acts: seq<Action>)
    requires LegalHistory(env, db0, calls, hist) && ClockRuns(clock, hist)
    ensures HasRun(env, db0, calls, clock, hist, RunOf(env, db0, calls, clock, acts))
  {
    if hist == [] {
      acts := [];
    } else {
      var front, e := hist[..|hist| - 1], hist[|hist| - 1];
      assert hist == front + [e];
      FrontIsLegal(env, db0, calls, clock, front, e);
      var before := HistoriesAreRuns(env, db0, calls, clock, front);
      acts := LongerRun(env, db0, calls, clock, front, e, before);
    }
  }
}
