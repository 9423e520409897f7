/** Every interleaving refines an atomic history: the locks a session holds keep what it
    has read true until it commits. */
module Refinement {
  import opened Contracts
  import opened RiskGate
  import opened Database
  import opened Transactions
  import opened Ledger
  import opened LedgerTheorems
  import opened Interleaving

  // ---- the invariant -------------------------------------------------------

  /** What session `t` has read still is what the tables say (`v`). */
  ghost predicate Local(env: Env, c: Call, t: Id, v: View, pc: Pc) {
    match pc
    case GateRead(g) => (c.Evaluate? || (c.SetKillSwitch? && g.Some?)) && v.gate == g
    case AccountRead(g, a) => ((c.Evaluate? && v.gate == g) || c.PostState?) && v.account == Some(a)
    case PreviousFound(r) =>
      c.Evaluate? && v.account.Some? && v.previous == Some(r) && SameDocuments(r, c)
    case KeyUnused(g, a) => c.Evaluate? && v.gate == g && v.account == Some(a) && v.previous.None?
    case SnapshotRead(g, a, s) =>
      c.Evaluate? && v.gate == g && v.account == Some(a) && v.previous.None? && IsLatest(v.snapshots, Some(s))
    case Decided(now, pick, p) => c.Evaluate? && AsksForSnapshot(v, c) && Ready(env, c, t, v, now, pick, p)
    case ZoneChecked => c.AddAccount? && env.zoneKnown(c.rules.zone)
    case Staged(now, pick, p) => Ready(env, c, t, v, now, pick, p)
    case _ => true
  }

  /** What is staged is what the atomic transaction would do now. */
  ghost predicate Ready(env: Env, c: Call, t: Id, v: View, now: Instant, pick: Option<Snapshot>, p: Planned) {
    p == Plan(env, v, t, c, now, pick) && LegalPick(v, c, pick) && !p.outcome.Failed?
  }

  predicate Holds(locks: map<Lock, Id>, l: Lock, t: Id) {
    l in locks && locks[l] == t
  }

  predicate HoldsGate(gate: Option<KillSwitch>, locks: map<Lock, Id>, t: Id) {
    gate.Some? ==> Holds(locks, GateRow, t)
  }

  predicate PastAccount(pc: Pc) {
    pc.AccountRead? || pc.PreviousFound? || pc.KeyUnused? || pc.SnapshotRead? || pc.Decided? || pc.Staged?
  }

  /** The locks session `t` has by the time it gets to `pc`. */
  predicate Owns(c: Call, t: Id, gate: Option<KillSwitch>, locks: map<Lock, Id>, pc: Pc) {
    && ((c.Evaluate? || c.SetKillSwitch?) && (pc.GateRead? || PastAccount(pc)) ==> HoldsGate(gate, locks, t))
    && ((c.Evaluate? || c.PostState?) && PastAccount(pc) ==> Holds(locks, AccountLock(c.accountId), t))
    && (c.AddAccount? && pc.Staged? ==> Holds(locks, NameEntry(c.name), t))
  }

  /** A held lock is held by a session that needs it, and that has taken the locks that
      come before it. */
  predicate Justified(c: Call, t: Id, locks: map<Lock, Id>, pc: Pc, l: Lock) {
    match l
    case GateRow => (c.Evaluate? || c.SetKillSwitch?) && (pc.GateRead? || PastAccount(pc) || pc.Refused?)
    case AccountLock(a) => (c.Evaluate? || c.PostState?) && c.accountId == a && (PastAccount(pc) || pc.Refused?)
    case NameEntry(n) => c.AddAccount? && c.name == n && (pc.Staged? || pc.Refused?)
    case KeyEntry(a, k) =>
      c.Evaluate? && c.accountId == a && c.requestKey == k && pc.Staged? && Holds(locks, AccountLock(a), t)
  }

  ghost predicate LockOk(calls: seq<Call>, m: Machine, l: Lock)
    requires |m.pcs| == |calls| && l in m.locks
  {
    m.locks[l] < |calls| && Justified(calls[m.locks[l]], m.locks[l], m.locks, m.pcs[m.locks[l]], l)
  }

  ghost predicate LocksOk(calls: seq<Call>, m: Machine)
    requires |m.pcs| == |calls|
  {
    forall l {:trigger LockOk(calls, m, l)} | l in m.locks :: LockOk(calls, m, l)
  }

  ghost predicate SessionOk(env: Env, calls: seq<Call>, m: Machine, t: Id)
    requires t < |m.pcs| == |calls|
  {
    Local(env, calls[t], t, ViewOf(m.db, calls[t]), m.pcs[t]) && Owns(calls[t], t, m.db.gate, m.locks, m.pcs[t])
  }

  ghost predicate SessionsOk(env: Env, calls: seq<Call>, m: Machine)
    requires |m.pcs| == |calls|
  {
    forall t: Id {:trigger SessionOk(env, calls, m, t)} | t < |calls| :: SessionOk(env, calls, m, t)
  }

  /** What the invariant says of one session. */
  lemma SessionOf(env: Env, calls: seq<Call>, m: Machine, t: Id)
    requires t < |m.pcs| == |calls| && SessionsOk(env, calls, m) && LocksOk(calls, m)
    ensures Local(env, calls[t], t, ViewOf(m.db, calls[t]), m.pcs[t])
    ensures Owns(calls[t], t, m.db.gate, m.locks, m.pcs[t])
    ensures forall l | Holds(m.locks, l, t) :: Justified(calls[t], t, m.locks, m.pcs[t], l)
  {
    assert SessionOk(env, calls, m, t);
    forall l | Holds(m.locks, l, t)
      ensures Justified(calls[t], t, m.locks, m.pcs[t], l)
    {
      assert LockOk(calls, m, l);
    }
  }

  function AnswerOf(pc: Pc): Outcome
    requires Settled(pc)
  {
    match pc
    case Refused(e) => Failed(e)
    case Done(o) => o
  }

  ghost predicate Logged(m: Machine, t: Id)
    requires t < |m.pcs|
  {
    Settled(m.pcs[t]) <==> t in Ids(m.hist)
  }

  /** The log so far is a legal atomic history with the same tables; exactly the settled
      sessions are in it, each with the answer the atomic transaction gives. */
  ghost predicate Refines(env: Env, db0: Db, calls: seq<Call>, m: Machine)
    requires |m.pcs| == |calls|
  {
    && LegalHistory(env, db0, calls, m.hist)
    && m.db == Replay(env, db0, calls, m.hist)
    && (forall t: Id {:trigger Logged(m, t)} | t < |calls| :: Logged(m, t))
    && (forall i: nat {:trigger AnswersAgree(env, db0, calls, m, i)} | i < |m.hist| ::
          AnswersAgree(env, db0, calls, m, i))
  }

  ghost predicate AnswersAgree(env: Env, db0: Db, calls: seq<Call>, m: Machine, i: nat)
    requires |m.pcs| == |calls| && InRange(calls, m.hist) && i < |m.hist|
  {
    var pc := m.pcs[m.hist[i].t];
    Settled(pc) && AnswerOf(pc) == OutcomeAt(env, db0, calls, m.hist, i)
  }

  ghost predicate Inv(env: Env, db0: Db, calls: seq<Call>, m: Machine) {
    && |m.pcs| == |calls|
    && SessionsOk(env, calls, m)
    && LocksOk(calls, m)
    && Refines(env, db0, calls, m)
  }

  // ---- the log -------------------------------------------------------------

  lemma LogUnchanged(env: Env, db0: Db, calls: seq<Call>, m: Machine, r: Machine)
    requires |m.pcs| == |r.pcs| == |calls| && Refines(env, db0, calls, m)
    requires r.hist == m.hist && r.db == m.db
    requires forall t | 0 <= t < |calls| :: Settled(m.pcs[t]) == Settled(r.pcs[t])
    requires forall t | 0 <= t < |calls| && Settled(m.pcs[t]) :: AnswerOf(m.pcs[t]) == AnswerOf(r.pcs[t])
    ensures Refines(env, db0, calls, r)
  {
    forall t: Id | t < |calls|
      ensures Logged(r, t)
    {
      assert Logged(m, t);
    }
    forall i: nat | i < |r.hist|
      ensures AnswersAgree(env, db0, calls, r, i)
    {
      assert AnswersAgree(env, db0, calls, m, i) && m.hist[i].t < |calls|;
    }
  }

  lemma HistoryGrows(env: Env, db0: Db, calls: seq<Call>, hist: seq<Entry>, e: Entry)
    requires LegalHistory(env, db0, calls, hist) && e.t < |calls| && e.t !in Ids(hist)
    requires var db := Replay(env, db0, calls, hist); LegalPick(ViewOf(db, calls[e.t]), calls[e.t], e.pick)
    ensures LegalHistory(env, db0, calls, hist + [e])
    ensures Replay(env, db0, calls, hist + [e])
         == Apply(Replay(env, db0, calls, hist), PlanOf(env, calls, Replay(env, db0, calls, hist), e).writes)
  {
    var longer, n := hist + [e], |hist|;
    assert longer[..n] == hist;
    forall i, j | 0 <= i < j < |longer|
      ensures longer[i].t != longer[j].t
    {
      assert hist[i].t in Ids(hist);
    }
    forall i: nat | i < |longer|
      ensures PickOk(env, db0, calls, longer, i)
    {
      assert longer[..i] == if i < n then hist[..i] else hist;
      assert i < n ==> PickOk(env, db0, calls, hist, i);
    }
  }

  lemma OutcomeStays(env: Env, db0: Db, calls: seq<Call>, hist: seq<Entry>, e: Entry, i: nat)
    requires InRange(calls, hist) && e.t < |calls| && i <= |hist|
    ensures InRange(calls, hist + [e])
    ensures OutcomeAt(env, db0, calls, hist + [e], i)
         == if i < |hist| then OutcomeAt(env, db0, calls, hist, i)
            else PlanOf(env, calls, Replay(env, db0, calls, hist), e).outcome
  {
    assert (hist + [e])[..i] == hist[..i];
    assert hist[..|hist|] == hist;
  }

  lemma AnswersGrow(env: Env, db0: Db, calls: seq<Call>, m: Machine, r: Machine, e: Entry, i: nat)
    requires |m.pcs| == |r.pcs| == |calls| && InRange(calls, m.hist) && e.t < |calls| && r.hist == m.hist + [e]
    requires Settled(r.pcs[e.t])
    requires AnswerOf(r.pcs[e.t]) == PlanOf(env, calls, Replay(env, db0, calls, m.hist), e).outcome
    requires i < |m.hist| ==> AnswersAgree(env, db0, calls, m, i) && r.pcs[m.hist[i].t] == m.pcs[m.hist[i].t]
    requires i <= |m.hist|
    ensures InRange(calls, r.hist) && AnswersAgree(env, db0, calls, r, i)
  {
    OutcomeStays(env, db0, calls, m.hist, e, i);
  }

  lemma AllAnswersGrow(env: Env, db0: Db, calls: seq<Call>, m: Machine, r: Machine, e: Entry)
    requires |m.pcs| == |r.pcs| == |calls| && InRange(calls, m.hist) && e.t < |calls| && r.hist == m.hist + [e]
    requires forall i: nat {:trigger AnswersAgree(env, db0, calls, m, i)} | i < |m.hist| ::
               AnswersAgree(env, db0, calls, m, i)
    requires Settled(r.pcs[e.t]) && e.t !in Ids(m.hist)
    requires AnswerOf(r.pcs[e.t]) == PlanOf(env, calls, Replay(env, db0, calls, m.hist), e).outcome
    requires forall t | 0 <= t < |calls| && t != e.t :: r.pcs[t] == m.pcs[t]
    ensures InRange(calls, r.hist)
    ensures forall i: nat {:trigger AnswersAgree(env, db0, calls, r, i)} | i < |r.hist| ::
              AnswersAgree(env, db0, calls, r, i)
  {
    forall i: nat | i < |r.hist|
      ensures AnswersAgree(env, db0, calls, r, i)
    {
      if i < |m.hist| {
        assert AnswersAgree(env, db0, calls, m, i) && m.hist[i].t in Ids(m.hist);
      }
      AnswersGrow(env, db0, calls, m, r, e, i);
    }
  }

  lemma LoggedGrows(m: Machine, r: Machine, e: Entry)
    requires |m.pcs| == |r.pcs| && e.t < |r.pcs| && Settled(r.pcs[e.t]) && r.hist == m.hist + [e]
    requires forall t: Id {:trigger Logged(m, t)} | t < |m.pcs| :: Logged(m, t)
    requires forall t | 0 <= t < |m.pcs| && t != e.t :: r.pcs[t] == m.pcs[t]
    ensures forall t: Id {:trigger Logged(r, t)} | t < |r.pcs| :: Logged(r, t)
  {
    IdsGrow(m.hist, e);
    forall t: Id | t < |r.pcs|
      ensures Logged(r, t)
    {
      assert Logged(m, t);
    }
  }

  /** Logging the atomic transaction that has just been carried out. */
  lemma LogGrows(env: Env, db0: Db, calls: seq<Call>, m: Machine, r: Machine, e: Entry)
    requires |m.pcs| == |r.pcs| == |calls| && Refines(env, db0, calls, m)
    requires e.t < |calls| && !Settled(m.pcs[e.t]) && Settled(r.pcs[e.t])
    requires LegalPick(ViewOf(m.db, calls[e.t]), calls[e.t], e.pick)
    requires r.hist == m.hist + [e] && r.db == Apply(m.db, PlanOf(env, calls, m.db, e).writes)
    requires AnswerOf(r.pcs[e.t]) == PlanOf(env, calls, m.db, e).outcome
    requires forall t | 0 <= t < |calls| && t != e.t :: r.pcs[t] == m.pcs[t]
    ensures Refines(env, db0, calls, r)
  {
    assert Logged(m, e.t);
    var db := Replay(env, db0, calls, m.hist);
    assert db == m.db && AnswerOf(r.pcs[e.t]) == PlanOf(env, calls, db, e).outcome;
    HistoryGrows(env, db0, calls, m.hist, e);
    LoggedGrows(m, r, e);
    AllAnswersGrow(env, db0, calls, m, r, e);
  }

  // ---- steps that leave the tables alone -----------------------------------

  /** Between `m` and `r` only session `t` moved and only its own locks changed. */
  ghost predicate OnlyMoves(m: Machine, r: Machine, t: Id) {
    && |r.pcs| == |m.pcs|
    && (forall u | 0 <= u < |m.pcs| && u != t :: r.pcs[u] == m.pcs[u])
    && (forall l | l in m.locks && m.locks[l] != t :: l in r.locks && r.locks[l] == m.locks[l])
    && (forall l | l in r.locks && r.locks[l] != t :: l in m.locks && r.locks[l] == m.locks[l])
  }

  lemma SessionsStay(env: Env, calls: seq<Call>, m: Machine, r: Machine, t: Id)
    requires |m.pcs| == |r.pcs| == |calls| && t < |calls| && SessionsOk(env, calls, m) && OnlyMoves(m, r, t)
    requires r.db == m.db
    requires Local(env, calls[t], t, ViewOf(m.db, calls[t]), r.pcs[t])
    requires Owns(calls[t], t, m.db.gate, r.locks, r.pcs[t])
    ensures SessionsOk(env, calls, r)
  {
    forall u: Id | u < |calls|
      ensures SessionOk(env, calls, r, u)
    {
      assert SessionOk(env, calls, m, u);
    }
  }

  lemma LocksStay(calls: seq<Call>, m: Machine, r: Machine, t: Id)
    requires |m.pcs| == |r.pcs| == |calls| && t < |calls| && LocksOk(calls, m) && OnlyMoves(m, r, t)
    requires forall l | Holds(r.locks, l, t) :: Justified(calls[t], t, r.locks, r.pcs[t], l)
    ensures LocksOk(calls, r)
  {
    forall l | l in r.locks
      ensures LockOk(calls, r, l)
    {
      if r.locks[l] == t {
        assert Holds(r.locks, l, t);
      } else {
        assert LockOk(calls, m, l);
      }
    }
  }

  /** Session `t` moves on with the locks it has. */
  lemma GotoKeepsInv(env: Env, db0: Db, calls: seq<Call>, m: Machine, t: Id, pc: Pc)
    requires Inv(env, db0, calls, m) && t < |calls| && !Settled(m.pcs[t]) && !Settled(pc)
    requires Local(env, calls[t], t, ViewOf(m.db, calls[t]), pc) && Owns(calls[t], t, m.db.gate, m.locks, pc)
    requires forall l | Holds(m.locks, l, t) :: Justified(calls[t], t, m.locks, pc, l)
    ensures Inv(env, db0, calls, Goto(m, t, pc))
  {
    var r := Goto(m, t, pc);
    SessionsStay(env, calls, m, r, t);
    LocksStay(calls, m, r, t);
    LogUnchanged(env, db0, calls, m, r);
  }

  /** Session `t` moves on, taking a free lock. */
  lemma TakeKeepsInv(env: Env, db0: Db, calls: seq<Call>, m: Machine, t: Id, l: Lock, pc: Pc)
    requires Inv(env, db0, calls, m) && t < |calls| && !Settled(m.pcs[t]) && !Settled(pc) && l !in m.locks
    requires var locks := m.locks[l := t];
             && Local(env, calls[t], t, ViewOf(m.db, calls[t]), pc) && Owns(calls[t], t, m.db.gate, locks, pc)
             && Justified(calls[t], t, locks, pc, l)
             && (forall x | Holds(m.locks, x, t) :: Justified(calls[t], t, locks, pc, x))
    ensures Inv(env, db0, calls, Take(m, t, l, pc))
  {
    var r := Take(m, t, l, pc);
    SessionsStay(env, calls, m, r, t);
    forall x | Holds(r.locks, x, t)
      ensures Justified(calls[t], t, r.locks, pc, x)
    {
      assert x != l ==> Holds(m.locks, x, t);
    }
    LocksStay(calls, m, r, t);
    LogUnchanged(env, db0, calls, m, r);
  }

  /** Session `t` raises the error the atomic transaction raises. */
  lemma FailKeepsInv(env: Env, db0: Db, calls: seq<Call>, m: Machine, t: Id, e: Error)
    requires Inv(env, db0, calls, m) && t < |calls| && !Settled(m.pcs[t]) && !m.pcs[t].Staged?
    requires LegalPick(ViewOf(m.db, calls[t]), calls[t], None)
    requires Plan(env, ViewOf(m.db, calls[t]), t, calls[t], m.clock, None) == Refuse(e)
    ensures Inv(env, db0, calls, Fail(m, t, e))
  {
    var r := Fail(m, t, e);
    SessionOf(env, calls, m, t);
    assert Apply(m.db, []) == m.db;
    LogGrows(env, db0, calls, m, r, Entry(t, m.clock, None));
    SessionsStay(env, calls, m, r, t);
    forall l | Holds(r.locks, l, t)
      ensures Justified(calls[t], t, r.locks, r.pcs[t], l)
    {
      assert Justified(calls[t], t, m.locks, m.pcs[t], l);
    }
    LocksStay(calls, m, r, t);
  }

  /** Session `t` leaves and its locks are released; the tables have not changed. */
  lemma LeaveKeepsInv(env: Env, db0: Db, calls: seq<Call>, m: Machine, t: Id, pc: Pc)
    requires Inv(env, db0, calls, m) && t < |calls|
    requires (pc.Crashed? && !Settled(m.pcs[t])) || (m.pcs[t].Refused? && pc == Done(AnswerOf(m.pcs[t])))
    ensures Inv(env, db0, calls, Finish(m, t, pc))
  {
    var r := Finish(m, t, pc);
    SessionsStay(env, calls, m, r, t);
    LocksStay(calls, m, r, t);
    LogUnchanged(env, db0, calls, m, r);
  }

  // ---- commits -------------------------------------------------------------

  /** What the commit of another session may not change for the holder of account `a`. */
  ghost predicate SameAccount(db: Db, after: Db, a: Id) {
    && AccountRow(after, a) == AccountRow(db, a)
    && SnapshotsOf(after, a) == SnapshotsOf(db, a)
    && (forall k :: FindSignal(after.signals, a, k) == FindSignal(db.signals, a, k))
    && (forall id :: FindDecision(db.decisions, id).Some? ==>
                       FindDecision(after.decisions, id) == FindDecision(db.decisions, id))
  }

  lemma SwitchEffect(env: Env, db: Db, u: Id, c: Call, now: Instant, pick: Option<Snapshot>)
    requires c.SetKillSwitch?
    ensures var after := Apply(db, Plan(env, ViewOf(db, c), u, c, now, pick).writes);
            && after == db.(gate := after.gate, audit := after.audit)
            && (db.gate.None? ==> after == db)
  {
    var p := Plan(env, ViewOf(db, c), u, c, now, pick);
    if p.writes != [] {
      ApplyTwo(db, p.writes[0], p.writes[1]);
    }
  }

  lemma AccountEffect(env: Env, db: Db, u: Id, c: Call, now: Instant, pick: Option<Snapshot>)
    requires c.AddAccount?
    ensures var after := Apply(db, Plan(env, ViewOf(db, c), u, c, now, pick).writes);
            && after == db.(accounts := after.accounts, audit := after.audit)
            && (after.accounts == db.accounts
                || exists row: Account :: row.name == c.name && after.accounts == db.accounts[u := row])
  {
    var p := Plan(env, ViewOf(db, c), u, c, now, pick);
    if p.writes != [] {
      ApplyTwo(db, p.writes[0], p.writes[1]);
      assert p.writes[0].account.name == c.name;
    }
  }

  lemma StateEffect(env: Env, db: Db, u: Id, c: Call, now: Instant, pick: Option<Snapshot>)
    requires c.PostState?
    ensures var after := Apply(db, Plan(env, ViewOf(db, c), u, c, now, pick).writes);
            && after == db.(accounts := after.accounts, snapshots := after.snapshots, audit := after.audit)
            && after.accounts.Keys == db.accounts.Keys
            && (forall a | a in db.accounts :: after.accounts[a].name == db.accounts[a].name)
            && (forall a | a in db.accounts && a != c.accountId :: after.accounts[a] == db.accounts[a])
            && (forall a | a != c.accountId :: SnapshotsOf(after, a) == SnapshotsOf(db, a))
  {
    var p := Plan(env, ViewOf(db, c), u, c, now, pick);
    if p.writes != [] {
      ApplyThree(db, p.writes[0], p.writes[1], p.writes[2]);
    }
  }

  lemma EvaluateEffect(env: Env, db: Db, u: Id, c: Call, now: Instant, pick: Option<Snapshot>)
    requires c.Evaluate?
    ensures var after := Apply(db, Plan(env, ViewOf(db, c), u, c, now, pick).writes);
            && after == db.(signals := after.signals, decisions := after.decisions, audit := after.audit)
            && (forall a, k | a != c.accountId :: FindSignal(after.signals, a, k) == FindSignal(db.signals, a, k))
  {
    if Plan(env, ViewOf(db, c), u, c, now, pick).writes != [] {
      RecordingPlan(env, db, u, c, now, pick);
      var a := db.accounts[c.accountId];
      var d := Combined(env, FactsFor(db.gate, a, pick.value, c.signal.value, c.market.value, now));
      RecordCommitted(db, u, c, a, pick.value, d);
      forall x, k | x != c.accountId
        ensures FindSignal(db.signals + [RowsOf(u, c, a, pick.value, d).0], x, k) == FindSignal(db.signals, x, k)
      {
        FindSignalAppend(db.signals, RowsOf(u, c, a, pick.value, d).0, x, k);
      }
    }
  }

  /** The account row of the holder of its lock is untouched by another session's commit. */
  lemma AccountStable(env: Env, db: Db, u: Id, c: Call, now: Instant, pick: Option<Snapshot>, a: Id)
    requires a in db.accounts && u !in db.accounts
    requires c.Evaluate? || c.PostState? ==> c.accountId != a
    ensures SameAccount(db, Apply(db, Plan(env, ViewOf(db, c), u, c, now, pick).writes), a)
  {
    WritesKeep(db, Plan(env, ViewOf(db, c), u, c, now, pick).writes);
    match c {
      case Evaluate(_, _, _, _) => EvaluateEffect(env, db, u, c, now, pick);
      case SetKillSwitch(_, _, _) => SwitchEffect(env, db, u, c, now, pick);
      case AddAccount(_, _, _, _, _) => AccountEffect(env, db, u, c, now, pick);
      case PostState(_, _) => StateEffect(env, db, u, c, now, pick);
    }
  }

  lemma GateStable(env: Env, db: Db, u: Id, c: Call, now: Instant, pick: Option<Snapshot>)
    ensures var after := Apply(db, Plan(env, ViewOf(db, c), u, c, now, pick).writes);
            && (!c.SetKillSwitch? || db.gate.None? ==> after.gate == db.gate)
            && (db.gate.Some? ==> after.gate.Some?)
  {
    match c {
      case Evaluate(_, _, _, _) => EvaluateEffect(env, db, u, c, now, pick);
      case SetKillSwitch(_, _, _) =>
        var p := Plan(env, ViewOf(db, c), u, c, now, pick);
        if p.writes != [] {
          ApplyTwo(db, p.writes[0], p.writes[1]);
        }
      case AddAccount(_, _, _, _, _) => AccountEffect(env, db, u, c, now, pick);
      case PostState(_, _) => StateEffect(env, db, u, c, now, pick);
    }
  }

  lemma NameStable(env: Env, db: Db, u: Id, c: Call, now: Instant, pick: Option<Snapshot>, name: string)
    requires u !in db.accounts
    requires c.AddAccount? ==> c.name != name
    ensures NameTaken(Apply(db, Plan(env, ViewOf(db, c), u, c, now, pick).writes), name) == NameTaken(db, name)
  {
    var after := Apply(db, Plan(env, ViewOf(db, c), u, c, now, pick).writes);
    match c {
      case Evaluate(_, _, _, _) => EvaluateEffect(env, db, u, c, now, pick);
      case SetKillSwitch(_, _, _) => SwitchEffect(env, db, u, c, now, pick);
      case AddAccount(_, _, _, _, _) =>
        AccountEffect(env, db, u, c, now, pick);
        forall a | a in db.accounts
          ensures a in after.accounts && after.accounts[a] == db.accounts[a]
        {
        }
      case PostState(_, _) => StateEffect(env, db, u, c, now, pick);
    }
    if NameTaken(db, name) {
      var a :| a in db.accounts && db.accounts[a].name == name;
      assert a in after.accounts && after.accounts[a].name == name;
    }
  }

  /** An unchanged part of the tables is an unchanged view. */
  lemma SameView(db: Db, after: Db, c: Call)
    requires c.Evaluate? || c.SetKillSwitch? ==> after.gate == db.gate
    requires c.Evaluate? || c.PostState? ==> SameAccount(db, after, c.accountId)
    requires c.AddAccount? ==> NameTaken(after, c.name) == NameTaken(db, c.name)
    requires c.Evaluate? && ViewOf(db, c).previous.Some? ==> ViewOf(db, c).stored.Some?
    ensures ViewOf(after, c) == ViewOf(db, c)
  {
  }

  /** Another session's commit leaves what `t` has read as it was. */
  lemma CommitKeepsLocal(env: Env, db0: Db, calls: seq<Call>, m: Machine, u: Id, t: Id)
    requires Inv(env, db0, calls, m) && IsFresh(db0) && u < |calls| && t < |calls| && u != t && m.pcs[u].Staged?
    ensures var after := Apply(m.db, m.pcs[u].planned.writes);
            && Local(env, calls[t], t, ViewOf(after, calls[t]), m.pcs[t])
            && Owns(calls[t], t, after.gate, m.locks, m.pcs[t])
  {
    HistoriesAreHealthy(env, db0, calls, m.hist);
    var used, db, pc := Ids(m.hist), m.db, m.pcs[t];
    var cu, ct, now, pick := calls[u], calls[t], m.pcs[u].now, m.pcs[u].pick;
    SessionOf(env, calls, m, u);
    SessionOf(env, calls, m, t);
    var after := Apply(db, Plan(env, ViewOf(db, cu), u, cu, now, pick).writes);
    assert u !in db.accounts by {
      assert Logged(m, u);
      assert u in db.accounts ==> AccountOk(env, calls, used, u, db.accounts[u]);
    }
    GateStable(env, db, u, cu, now, pick);
    if (ct.Evaluate? || ct.SetKillSwitch?) && (pc.GateRead? || PastAccount(pc)) {
      assert after.gate == db.gate;
    }
    if (ct.Evaluate? || ct.PostState?) && PastAccount(pc) {
      LocalAccountKnown(env, ct, t, db, pc);
      AccountStable(env, db, u, cu, now, pick, ct.accountId);
    }
    if ct.AddAccount? && pc.Staged? {
      NameStable(env, db, u, cu, now, pick, ct.name);
    }
    LocalIsStable(env, ct, t, db, after, pc, m, calls, used);
  }

  lemma LocalAccountKnown(env: Env, c: Call, t: Id, db: Db, pc: Pc)
    requires (c.Evaluate? || c.PostState?) && PastAccount(pc) && Local(env, c, t, ViewOf(db, c), pc)
    ensures c.accountId in db.accounts
  {
  }

  lemma LocalIsStable(env: Env, c: Call, t: Id, db: Db, after: Db, pc: Pc, m: Machine, calls: seq<Call>, used: set<Id>)
    requires Local(env, c, t, ViewOf(db, c), pc) && Healthy(env, calls, used, db)
    requires (c.Evaluate? || c.SetKillSwitch?) && (pc.GateRead? || PastAccount(pc)) ==> after.gate == db.gate
    requires (c.Evaluate? || c.PostState?) && PastAccount(pc) ==> SameAccount(db, after, c.accountId)
    requires c.AddAccount? && pc.Staged? ==> NameTaken(after, c.name) == NameTaken(db, c.name)
    ensures Local(env, c, t, ViewOf(after, c), pc)
  {
    if PastAccount(pc) {
      if c.Evaluate? && FindSignal(db.signals, c.accountId, c.requestKey).Some? {
        DecisionOfSignal(env, calls, used, db, c.accountId, c.requestKey);
      }
      SameView(db, after, c);
    }
  }

  /** A commit carries out the atomic transaction. */
  lemma CommitKeepsInv(env: Env, db0: Db, calls: seq<Call>, m: Machine, u: Id)
    requires Inv(env, db0, calls, m) && IsFresh(db0) && u < |calls| && m.pcs[u].Staged?
    ensures Inv(env, db0, calls, Commit(m, u, m.pcs[u].now, m.pcs[u].pick, m.pcs[u].planned))
  {
    var now, pick, p := m.pcs[u].now, m.pcs[u].pick, m.pcs[u].planned;
    var r := Commit(m, u, now, pick, p);
    SessionOf(env, calls, m, u);
    LogGrows(env, db0, calls, m, r, Entry(u, now, pick));
    LocksStay(calls, m, r, u);
    forall t: Id | t < |calls|
      ensures SessionOk(env, calls, r, t)
    {
      if t != u {
        CommitKeepsLocal(env, db0, calls, m, u, t);
        OwnLocksStay(calls[t], t, r.db.gate, m.locks, r.locks, r.pcs[t]);
      }
    }
  }

  lemma OwnLocksStay(c: Call, t: Id, gate: Option<KillSwitch>, locks: map<Lock, Id>, after: map<Lock, Id>, pc: Pc)
    requires Owns(c, t, gate, locks, pc) && forall l | Holds(locks, l, t) :: Holds(after, l, t)
    ensures Owns(c, t, gate, after, pc)
  {
  }

  // ---- every action --------------------------------------------------------

  lemma EvaluateStartsKeepInv(env: Env, db0: Db, calls: seq<Call>, m: Machine, t: Id, pick: Option<Snapshot>)
    requires Inv(env, db0, calls, m) && t < |calls| && calls[t].Evaluate?
    requires m.pcs[t].Start? || m.pcs[t].GateRead?
    ensures Inv(env, db0, calls, AdvanceEvaluate(env, calls[t], m, t, pick))
  {
    var c, v := calls[t], ViewOf(m.db, calls[t]);
    SessionOf(env, calls, m, t);
    match m.pcs[t] {
      case Start =>
        if m.db.gate.None? {
          GotoKeepsInv(env, db0, calls, m, t, GateRead(None));
        } else if GateRow !in m.locks {
          TakeKeepsInv(env, db0, calls, m, t, GateRow, GateRead(m.db.gate));
        }
      case GateRead(g) =>
        if c.accountId !in m.db.accounts {
          FailKeepsInv(env, db0, calls, m, t, AccountNotFound);
        } else if AccountLock(c.accountId) !in m.locks {
          TakeKeepsInv(env, db0, calls, m, t, AccountLock(c.accountId), AccountRead(g, m.db.accounts[c.accountId]));
        }
    }
  }

  lemma KeyLookupKeepsInv(env: Env, db0: Db, calls: seq<Call>, m: Machine, t: Id, pick: Option<Snapshot>)
    requires Inv(env, db0, calls, m) && t < |calls| && calls[t].Evaluate? && m.pcs[t].AccountRead?
    ensures Inv(env, db0, calls, AdvanceEvaluate(env, calls[t], m, t, pick))
  {
    var c, v := calls[t], ViewOf(m.db, calls[t]);
    SessionOf(env, calls, m, t);
    var AccountRead(g, a) := m.pcs[t];
    var previous := FindSignal(m.db.signals, c.accountId, c.requestKey);
    if previous.None? {
      GotoKeepsInv(env, db0, calls, m, t, KeyUnused(g, a));
    } else if !SameDocuments(previous.value, c) {
      FailKeepsInv(env, db0, calls, m, t, KeyReused);
    } else {
      GotoKeepsInv(env, db0, calls, m, t, PreviousFound(previous.value));
    }
  }

  lemma ReplayKeepsInv(env: Env, db0: Db, calls: seq<Call>, m: Machine, t: Id, pick: Option<Snapshot>)
    requires Inv(env, db0, calls, m) && t < |calls| && calls[t].Evaluate? && m.pcs[t].PreviousFound? && IsFresh(db0)
    ensures Inv(env, db0, calls, AdvanceEvaluate(env, calls[t], m, t, pick))
  {
    var c, v := calls[t], ViewOf(m.db, calls[t]);
    SessionOf(env, calls, m, t);
    KeysHaveDecisions(env, db0, calls, m.hist, c.accountId, c.requestKey);
    var stored := FindDecision(m.db.decisions, m.pcs[t].previous.id);
    GotoKeepsInv(env, db0, calls, m, t, Staged(m.clock, None, Planned([], Evaluated(stored.value.result))));
  }

  lemma SnapshotQueryKeepsInv(env: Env, db0: Db, calls: seq<Call>, m: Machine, t: Id, pick: Option<Snapshot>)
    requires Inv(env, db0, calls, m) && t < |calls| && calls[t].Evaluate? && m.pcs[t].KeyUnused?
    ensures Inv(env, db0, calls, AdvanceEvaluate(env, calls[t], m, t, pick))
  {
    var c, v := calls[t], ViewOf(m.db, calls[t]);
    SessionOf(env, calls, m, t);
    var KeyUnused(g, a) := m.pcs[t];
    if IsLatest(SnapshotsOf(m.db, c.accountId), pick) {
      if pick.None? {
        FailKeepsInv(env, db0, calls, m, t, NoSnapshot);
      } else {
        GotoKeepsInv(env, db0, calls, m, t, SnapshotRead(g, a, pick.value));
      }
    }
  }

  lemma DecisionKeepsInv(env: Env, db0: Db, calls: seq<Call>, m: Machine, t: Id, pick: Option<Snapshot>)
    requires Inv(env, db0, calls, m) && t < |calls| && calls[t].Evaluate? && m.pcs[t].SnapshotRead?
    ensures Inv(env, db0, calls, AdvanceEvaluate(env, calls[t], m, t, pick))
  {
    var c, v := calls[t], ViewOf(m.db, calls[t]);
    SessionOf(env, calls, m, t);
    var SnapshotRead(g, a, s) := m.pcs[t];
    var f := FactsFor(g, a, s, c.signal.value, c.market.value, m.clock);
    GotoKeepsInv(env, db0, calls, m, t, Decided(m.clock, Some(s), Record(t, c, a, s, Combined(env, f))));
  }

  lemma FlushKeepsInv(env: Env, db0: Db, calls: seq<Call>, m: Machine, t: Id, pick: Option<Snapshot>)
    requires Inv(env, db0, calls, m) && t < |calls| && calls[t].Evaluate? && m.pcs[t].Decided?
    ensures Inv(env, db0, calls, AdvanceEvaluate(env, calls[t], m, t, pick))
  {
    var c, v := calls[t], ViewOf(m.db, calls[t]);
    SessionOf(env, calls, m, t);
    var Decided(now, s, p) := m.pcs[t];
    if KeyEntry(c.accountId, c.requestKey) !in m.locks {
      TakeKeepsInv(env, db0, calls, m, t, KeyEntry(c.accountId, c.requestKey), Staged(now, s, p));
    }
  }

  lemma EvaluateKeepsInv(env: Env, db0: Db, calls: seq<Call>, m: Machine, t: Id, pick: Option<Snapshot>)
    requires Inv(env, db0, calls, m) && IsFresh(db0) && t < |calls| && calls[t].Evaluate?
    ensures Inv(env, db0, calls, AdvanceEvaluate(env, calls[t], m, t, pick))
  {
    match m.pcs[t] {
      case Start => EvaluateStartsKeepInv(env, db0, calls, m, t, pick);
      case GateRead(_) => EvaluateStartsKeepInv(env, db0, calls, m, t, pick);
      case AccountRead(_, _) => KeyLookupKeepsInv(env, db0, calls, m, t, pick);
      case PreviousFound(_) => ReplayKeepsInv(env, db0, calls, m, t, pick);
      case KeyUnused(_, _) => SnapshotQueryKeepsInv(env, db0, calls, m, t, pick);
      case SnapshotRead(_, _, _) => DecisionKeepsInv(env, db0, calls, m, t, pick);
      case Decided(_, _, _) => FlushKeepsInv(env, db0, calls, m, t, pick);
      case _ =>
    }
  }

  lemma SwitchKeepsInv(env: Env, db0: Db, calls: seq<Call>, m: Machine, t: Id)
    requires Inv(env, db0, calls, m) && t < |calls| && calls[t].SetKillSwitch?
    ensures Inv(env, db0, calls, AdvanceSwitch(calls[t], m, t))
  {
    var c, v := calls[t], ViewOf(m.db, calls[t]);
    SessionOf(env, calls, m, t);
    match m.pcs[t] {
      case Start =>
        if m.db.gate.None? {
          FailKeepsInv(env, db0, calls, m, t, SwitchMissing);
        } else if GateRow !in m.locks {
          TakeKeepsInv(env, db0, calls, m, t, GateRow, GateRead(m.db.gate));
        }
      case GateRead(g) =>
        GotoKeepsInv(env, db0, calls, m, t, Staged(m.clock, None, PlanSwitch(v, c, m.clock)));
      case _ =>
    }
  }

  lemma AccountStartKeepsInv(env: Env, db0: Db, calls: seq<Call>, m: Machine, t: Id)
    requires Inv(env, db0, calls, m) && t < |calls| && calls[t].AddAccount? && m.pcs[t].Start?
    ensures Inv(env, db0, calls, AdvanceAccount(env, calls[t], m, t))
  {
    var c := calls[t];
    SessionOf(env, calls, m, t);
    if !env.zoneKnown(c.rules.zone) {
      FailKeepsInv(env, db0, calls, m, t, UnknownZone);
    } else {
      GotoKeepsInv(env, db0, calls, m, t, ZoneChecked);
    }
  }

  lemma NameKeepsInv(env: Env, db0: Db, calls: seq<Call>, m: Machine, t: Id)
    requires Inv(env, db0, calls, m) && t < |calls| && calls[t].AddAccount? && m.pcs[t].ZoneChecked?
    ensures Inv(env, db0, calls, AdvanceAccount(env, calls[t], m, t))
  {
    var c, v := calls[t], ViewOf(m.db, calls[t]);
    SessionOf(env, calls, m, t);
    if NameEntry(c.name) !in m.locks {
      if NameTaken(m.db, c.name) {
        FailKeepsInv(env, db0, calls, m, t, DuplicateRecord);
      } else {
        TakeKeepsInv(env, db0, calls, m, t, NameEntry(c.name), Staged(m.clock, None, PlanAccount(env, v, t, c)));
      }
    }
  }

  lemma AccountKeepsInv(env: Env, db0: Db, calls: seq<Call>, m: Machine, t: Id)
    requires Inv(env, db0, calls, m) && t < |calls| && calls[t].AddAccount?
    ensures Inv(env, db0, calls, AdvanceAccount(env, calls[t], m, t))
  {
    match m.pcs[t] {
      case Start => AccountStartKeepsInv(env, db0, calls, m, t);
      case ZoneChecked => NameKeepsInv(env, db0, calls, m, t);
      case _ =>
    }
  }

  lemma StateKeepsInv(env: Env, db0: Db, calls: seq<Call>, m: Machine, t: Id)
    requires Inv(env, db0, calls, m) && t < |calls| && calls[t].PostState?
    ensures Inv(env, db0, calls, AdvanceState(calls[t], m, t))
  {
    var c, v := calls[t], ViewOf(m.db, calls[t]);
    SessionOf(env, calls, m, t);
    match m.pcs[t] {
      case Start =>
        if c.accountId !in m.db.accounts {
          FailKeepsInv(env, db0, calls, m, t, AccountNotFound);
        } else if AccountLock(c.accountId) !in m.locks {
          TakeKeepsInv(env, db0, calls, m, t, AccountLock(c.accountId), AccountRead(None, m.db.accounts[c.accountId]));
        }
      case AccountRead(_, a) =>
        if c.body.initialBalance != a.initialBalance {
          FailKeepsInv(env, db0, calls, m, t, BalanceChanged);
        } else if m.clock < c.body.asOf || m.clock - c.body.asOf > SNAPSHOT_MAX_AGE {
          FailKeepsInv(env, db0, calls, m, t, SnapshotNotCurrent);
        } else {
          GotoKeepsInv(env, db0, calls, m, t, Staged(m.clock, None, PlanState(v, t, c, m.clock)));
        }
      case _ =>
    }
  }

  lemma AdvanceKeepsInv(env: Env, db0: Db, calls: seq<Call>, m: Machine, t: Id, pick: Option<Snapshot>)
    requires Inv(env, db0, calls, m) && IsFresh(db0) && t < |calls|
    ensures Inv(env, db0, calls, Advance(env, calls, m, t, pick))
  {
    if m.pcs[t].Staged? {
      CommitKeepsInv(env, db0, calls, m, t);
    } else if m.pcs[t].Refused? {
      RollbackKeepsInv(env, db0, calls, m, t, pick);
    } else {
      RunningKeepsInv(env, db0, calls, m, t, pick);
    }
  }

  lemma RollbackKeepsInv(env: Env, db0: Db, calls: seq<Call>, m: Machine, t: Id, pick: Option<Snapshot>)
    requires Inv(env, db0, calls, m) && t < |calls| && m.pcs[t].Refused?
    ensures Inv(env, db0, calls, Advance(env, calls, m, t, pick))
  {
    LeaveKeepsInv(env, db0, calls, m, t, Done(Failed(m.pcs[t].error)));
  }

  lemma RunningKeepsInv(env: Env, db0: Db, calls: seq<Call>, m: Machine, t: Id, pick: Option<Snapshot>)
    requires Inv(env, db0, calls, m) && IsFresh(db0) && t < |calls| && !m.pcs[t].Staged? && !m.pcs[t].Refused?
    ensures Inv(env, db0, calls, Advance(env, calls, m, t, pick))
  {
    var c := calls[t];
    if c.Evaluate? {
      EvaluateKeepsInv(env, db0, calls, m, t, pick);
    } else if c.SetKillSwitch? {
      SwitchKeepsInv(env, db0, calls, m, t);
    } else if c.AddAccount? {
      AccountKeepsInv(env, db0, calls, m, t);
    } else {
      StateKeepsInv(env, db0, calls, m, t);
    }
  }

  lemma ClockKeepsInv(env: Env, db0: Db, calls: seq<Call>, m: Machine, r: Machine)
    requires Inv(env, db0, calls, m) && r == m.(clock := r.clock)
    ensures Inv(env, db0, calls, r)
  {
    LogUnchanged(env, db0, calls, m, r);
    forall t: Id | t < |calls|
      ensures SessionOk(env, calls, r, t)
    {
      assert SessionOk(env, calls, m, t);
    }
    forall l | l in r.locks
      ensures LockOk(calls, r, l)
    {
      assert LockOk(calls, m, l);
    }
  }

  lemma TickKeepsInv(env: Env, db0: Db, calls: seq<Call>, m: Machine, a: Action)
    requires Inv(env, db0, calls, m) && a.Tick?
    ensures Inv(env, db0, calls, Do(env, calls, m, a))
  {
    ClockKeepsInv(env, db0, calls, m, m.(clock := m.clock + a.d));
  }

  lemma DoKeepsInv(env: Env, db0: Db, calls: seq<Call>, m: Machine, a: Action)
    requires Inv(env, db0, calls, m) && IsFresh(db0)
    ensures Inv(env, db0, calls, Do(env, calls, m, a))
  {
    if a.Tick? {
      TickKeepsInv(env, db0, calls, m, a);
    } else if a.Step? {
      StepKeepsInv(env, db0, calls, m, a);
    } else {
      CrashKeepsInv(env, db0, calls, m, a);
    }
  }

  lemma StepKeepsInv(env: Env, db0: Db, calls: seq<Call>, m: Machine, a: Action)
    requires Inv(env, db0, calls, m) && IsFresh(db0) && a.Step?
    ensures Inv(env, db0, calls, Do(env, calls, m, a))
  {
    if a.t < |calls| {
      AdvanceKeepsInv(env, db0, calls, m, a.t, a.pick);
    }
  }

  lemma CrashKeepsInv(env: Env, db0: Db, calls: seq<Call>, m: Machine, a: Action)
    requires Inv(env, db0, calls, m) && a.Crash?
    ensures Inv(env, db0, calls, Do(env, calls, m, a))
  {
    if a.t < |calls| && !Settled(m.pcs[a.t]) && !Finished(m.pcs[a.t]) {
      LeaveKeepsInv(env, db0, calls, m, a.t, Crashed);
    }
  }

  /** The invariant holds after every schedule. */
  lemma {:induction false} InvHolds(env: Env, db0: Db, calls: seq<Call>, clock: Instant, acts: seq<Action>)
    requires IsFresh(db0)
    ensures Inv(env, db0, calls, Exec(env, calls, Init(calls, db0, clock), acts))
  {
    if acts != [] {
      var n := |acts| - 1;
      InvHolds(env, db0, calls, clock, acts[..n]);
      DoKeepsInv(env, db0, calls, Exec(env, calls, Init(calls, db0, clock), acts[..n]), acts[n]);
    }
  }
}
