/** Nothing gets stuck: locks are taken in one order, so waiting never goes round in a
    circle; some unfinished session can always move; and every schedule does a bounded
    amount of work. */
module Progress {
  import opened Contracts
  import opened Database
  import opened Transactions
  import opened Ledger
  import opened Interleaving
  import opened Refinement
  import opened RunTheorems

  /** The lock the next step of a session needs. */
  function Wanted(c: Call, db: Db, pc: Pc): Option<Lock> {
    match c
    case Evaluate(a, k, _, _) =>
      (match pc
       case Start => if db.gate.Some? then Some(GateRow) else None
       case GateRead(_) => if a in db.accounts then Some(AccountLock(a)) else None
       case Decided(_, _, _) => Some(KeyEntry(a, k))
       case _ => None)
    case SetKillSwitch(_, _, _) => if pc.Start? && db.gate.Some? then Some(GateRow) else None
    case AddAccount(name, _, _, _, _) => if pc.ZoneChecked? then Some(NameEntry(name)) else None
    case PostState(a, _) => if pc.Start? && a in db.accounts then Some(AccountLock(a)) else None
  }

  function WantedBy(calls: seq<Call>, m: Machine, t: Id): Option<Lock>
    requires t < |calls| == |m.pcs|
  {
    Wanted(calls[t], m.db, m.pcs[t])
  }

  predicate WaitsFor(calls: seq<Call>, m: Machine, t: Id, u: Id)
    requires |calls| == |m.pcs|
  {
    && t < |calls| && u < |calls|
    && WantedBy(calls, m, t).Some?
    && Holds(m.locks, WantedBy(calls, m, t).value, u)
  }

  /** The lock order: switch, then account (a new name stands alone), then request key. */
  function Rank(l: Lock): nat {
    match l
    case GateRow => 0
    case AccountLock(_) => 1
    case NameEntry(_) => 1
    case KeyEntry(_, _) => 2
  }

  /** A holder of `l` only still wants locks of higher rank. */
  lemma HolderClimbs(c: Call, u: Id, db: Db, locks: map<Lock, Id>, pc: Pc, l: Lock)
    requires Justified(c, u, locks, pc, l) && Rank(l) < 2
    ensures !Finished(pc)
    ensures Wanted(c, db, pc).Some? ==> Rank(l) < Rank(Wanted(c, db, pc).value)
  {
  }

  lemma WantsNoOwnLock(calls: seq<Call>, m: Machine, t: Id, u: Id)
    requires |m.pcs| == |calls| && WaitsFor(calls, m, t, u) && LocksOk(calls, m)
    ensures Rank(WantedBy(calls, m, t).value) < 2 ==> t != u
    ensures !m.pcs[t].Refused?
  {
    var l := WantedBy(calls, m, t).value;
    assert LockOk(calls, m, l);
    if Rank(l) < 2 {
      HolderClimbs(calls[u], u, m.db, m.locks, m.pcs[u], l);
    }
  }

  /** Whoever is waited for holds a lower lock than any it still wants; in particular
      nobody waits for itself. */
  lemma WaitingClimbs(env: Env, db0: Db, calls: seq<Call>, m: Machine, t: Id, u: Id)
    requires Inv(env, db0, calls, m) && WaitsFor(calls, m, t, u)
    ensures t != u
    ensures !Finished(m.pcs[u]) && !m.pcs[t].Refused?
    ensures WantedBy(calls, m, u).Some? ==> Rank(WantedBy(calls, m, t).value) < Rank(WantedBy(calls, m, u).value)
    ensures Rank(WantedBy(calls, m, t).value) < 2
  {
    var l := WantedBy(calls, m, t).value;
    KeyIndexNeverBlocks(env, db0, calls, m, t);
    assert Rank(l) < 2;
    WantsNoOwnLock(calls, m, t, u);
    assert LockOk(calls, m, l);
    HolderClimbs(calls[u], u, m.db, m.locks, m.pcs[u], l);
  }

  /** The unique-key index never makes an evaluation wait: whoever could hold the entry
      would also hold the account. */
  lemma KeyIndexNeverBlocks(env: Env, db0: Db, calls: seq<Call>, m: Machine, t: Id)
    requires Inv(env, db0, calls, m) && t < |calls|
    ensures calls[t].Evaluate? && m.pcs[t].Decided? ==> KeyEntry(calls[t].accountId, calls[t].requestKey) !in m.locks
  {
    var c := calls[t];
    SessionOf(env, calls, m, t);
    if c.Evaluate? && KeyEntry(c.accountId, c.requestKey) in m.locks {
      assert LockOk(calls, m, KeyEntry(c.accountId, c.requestKey));
    }
  }

  /** A chain of sessions each waiting for the next. */
  ghost predicate WaitChain(calls: seq<Call>, m: Machine, path: seq<Id>)
    requires |calls| == |m.pcs|
  {
    forall i | 0 <= i < |path| - 1 :: WaitsFor(calls, m, path[i], path[i + 1])
  }

  /** One wait, seen by its ranks: what `u` still wants is above what `t` wants of it. */
  predicate Climbs(calls: seq<Call>, m: Machine, t: Id, u: Id)
    requires |calls| == |m.pcs|
  {
    && t < |calls| && u < |calls| && WantedBy(calls, m, t).Some?
    && (WantedBy(calls, m, u).Some? ==> Rank(WantedBy(calls, m, t).value) < Rank(WantedBy(calls, m, u).value))
  }

  lemma {:induction false} ChainsClimb(calls: seq<Call>, m: Machine, path: seq<Id>, i: nat, j: nat)
    requires |calls| == |m.pcs| && i < j < |path| - 1
    requires forall k | 0 <= k < |path| - 1 :: Climbs(calls, m, path[k], path[k + 1])
    ensures path[i] < |calls| && path[j] < |calls|
    ensures WantedBy(calls, m, path[i]).Some? && WantedBy(calls, m, path[j]).Some?
    ensures Rank(WantedBy(calls, m, path[i]).value) + (j - i) <= Rank(WantedBy(calls, m, path[j]).value)
    decreases j
  {
    assert Climbs(calls, m, path[i], path[i + 1]);
    assert Climbs(calls, m, path[j - 1], path[j - 1 + 1]) && Climbs(calls, m, path[j], path[j + 1]);
    if i < j - 1 {
      ChainsClimb(calls, m, path, i, j - 1);
    }
  }

  /** Deadlock freedom: after any schedule, chains of waiting sessions are at most three
      long and never come back to where they started. */
  lemma NoDeadlock(env: Env, db0: Db, calls: seq<Call>, clock: Instant, acts: seq<Action>, path: seq<Id>)
    requires IsFresh(db0) && |path| >= 2 && WaitChain(calls, RunOf(env, db0, calls, clock, acts), path)
    ensures |path| <= 3
    ensures path[0] != path[|path| - 1]
  {
    InvHolds(env, db0, calls, clock, acts);
    var m, n := RunOf(env, db0, calls, clock, acts), |path|;
    assert WaitsFor(calls, m, path[0], path[1]) && WaitsFor(calls, m, path[n - 2], path[n - 1]);
    WaitingClimbs(env, db0, calls, m, path[n - 2], path[n - 1]);
    if n > 2 {
      forall k | 0 <= k < n - 1
        ensures Climbs(calls, m, path[k], path[k + 1])
      {
        assert WaitsFor(calls, m, path[k], path[k + 1]);
        WaitingClimbs(env, db0, calls, m, path[k], path[k + 1]);
      }
      ChainsClimb(calls, m, path, 0, n - 2);
    }
  }

  // ---- work ----------------------------------------------------------------

  /** An upper bound on the steps a session still has to make. */
  function Work(pc: Pc): nat {
    match pc
    case Start => 8
    case GateRead(_) => 7
    case AccountRead(_, _) => 6
    case KeyUnused(_, _) => 5
    case PreviousFound(_) => 5
    case SnapshotRead(_, _, _) => 4
    case Decided(_, _, _) => 3
    case ZoneChecked => 3
    case Staged(_, _, _) => 2
    case Refused(_) => 1
    case Done(_) => 0
    case Crashed => 0
  }

  function TotalWork(pcs: seq<Pc>): nat {
    if pcs == [] then 0 else Work(pcs[0]) + TotalWork(pcs[1..])
  }

  lemma {:induction false} WorkAt(pcs: seq<Pc>, t: nat, pc: Pc)
    requires t < |pcs|
    ensures TotalWork(pcs[t := pc]) == TotalWork(pcs) - Work(pcs[t]) + Work(pc)
  {
    if t == 0 {
      assert pcs[0 := pc][1..] == pcs[1..];
    } else {
      assert pcs[t := pc][1..] == pcs[1..][t - 1 := pc];
      WorkAt(pcs[1..], t - 1, pc);
    }
  }

  lemma {:induction false} NoWorkMeansFinished(pcs: seq<Pc>)
    ensures TotalWork(pcs) == 0 <==> forall t | 0 <= t < |pcs| :: Finished(pcs[t])
    ensures TotalWork(pcs) <= 8 * |pcs|
  {
    if pcs != [] {
      NoWorkMeansFinished(pcs[1..]);
      assert (forall t | 0 <= t < |pcs| :: Finished(pcs[t])) <==>
             Finished(pcs[0]) && forall t | 0 <= t < |pcs[1..]| :: Finished(pcs[1..][t]);
    }
  }

  /** Nothing has changed, or only session `t` has moved, and onward. */
  ghost predicate MovesOn(m: Machine, r: Machine, t: Id)
    requires t < |m.pcs|
  {
    r == m || (|r.pcs| == |m.pcs| && r.pcs == m.pcs[t := r.pcs[t]] && Work(r.pcs[t]) < Work(m.pcs[t]))
  }

  /** Up to the look at the key. */
  predicate IsEarly(pc: Pc) {
    pc.Start? || pc.GateRead? || pc.AccountRead?
  }

  lemma EarlyWorks(env: Env, c: Call, m: Machine, t: Id, pick: Option<Snapshot>)
    requires t < |m.pcs| && c.Evaluate? && IsEarly(m.pcs[t])
    ensures MovesOn(m, AdvanceEvaluate(env, c, m, t, pick), t)
  {
  }

  lemma LateWorks(env: Env, c: Call, m: Machine, t: Id, pick: Option<Snapshot>)
    requires t < |m.pcs| && c.Evaluate? && !IsEarly(m.pcs[t])
    ensures MovesOn(m, AdvanceEvaluate(env, c, m, t, pick), t)
  {
  }

  lemma EvaluateWorks(env: Env, c: Call, m: Machine, t: Id, pick: Option<Snapshot>)
    requires t < |m.pcs| && c.Evaluate?
    ensures MovesOn(m, AdvanceEvaluate(env, c, m, t, pick), t)
  {
    if IsEarly(m.pcs[t]) {
      EarlyWorks(env, c, m, t, pick);
    } else {
      LateWorks(env, c, m, t, pick);
    }
  }

  lemma OthersWork(env: Env, c: Call, m: Machine, t: Id)
    requires t < |m.pcs|
    ensures c.SetKillSwitch? ==> MovesOn(m, AdvanceSwitch(c, m, t), t)
    ensures c.AddAccount? ==> MovesOn(m, AdvanceAccount(env, c, m, t), t)
    ensures c.PostState? ==> MovesOn(m, AdvanceState(c, m, t), t)
  {
  }

  lemma AdvanceWorks(env: Env, calls: seq<Call>, m: Machine, t: Id, pick: Option<Snapshot>)
    requires t < |m.pcs| == |calls|
    ensures MovesOn(m, Advance(env, calls, m, t, pick), t)
  {
    if calls[t].Evaluate? {
      EvaluateWorks(env, calls[t], m, t, pick);
    } else {
      OthersWork(env, calls[t], m, t);
    }
  }

  lemma DoWorks(env: Env, calls: seq<Call>, m: Machine, a: Action)
    requires |m.pcs| == |calls|
    ensures var r := Do(env, calls, m, a);
            if a.Tick? || r == m then r.pcs == m.pcs else TotalWork(r.pcs) < TotalWork(m.pcs)
  {
    var r := Do(env, calls, m, a);
    if !a.Tick? && r != m {
      if a.Step? {
        AdvanceWorks(env, calls, m, a.t, a.pick);
        WorkAt(m.pcs, a.t, r.pcs[a.t]);
      } else {
        WorkAt(m.pcs, a.t, Crashed);
      }
    }
  }

  /** The actions of a schedule that did something other than let time pass. */
  ghost function Moves(env: Env, calls: seq<Call>, m: Machine, acts: seq<Action>): nat
    requires |m.pcs| == |calls|
  {
    if acts == [] then 0
    else
      var n := |acts| - 1;
      var before := Exec(env, calls, m, acts[..n]);
      Moves(env, calls, m, acts[..n]) + if !acts[n].Tick? && Do(env, calls, before, acts[n]) != before then 1 else 0
  }

  lemma {:induction false} MovesAreBounded(env: Env, calls: seq<Call>, m: Machine, acts: seq<Action>)
    requires |m.pcs| == |calls|
    ensures Moves(env, calls, m, acts) + TotalWork(Exec(env, calls, m, acts).pcs) <= TotalWork(m.pcs)
  {
    if acts != [] {
      var n := |acts| - 1;
      MovesAreBounded(env, calls, m, acts[..n]);
      DoWorks(env, calls, Exec(env, calls, m, acts[..n]), acts[n]);
    }
  }

  /** Termination: no schedule makes more than eight effective steps per request. */
  lemma EveryScheduleIsBounded(env: Env, db0: Db, calls: seq<Call>, clock: Instant, acts: seq<Action>)
    ensures Moves(env, calls, Init(calls, db0, clock), acts) <= 8 * |calls|
  {
    MovesAreBounded(env, calls, Init(calls, db0, clock), acts);
    NoWorkMeansFinished(Init(calls, db0, clock).pcs);
  }

  // ---- some session can always move ----------------------------------------

  predicate Blocked(calls: seq<Call>, m: Machine, t: Id)
    requires t < |calls| == |m.pcs|
  {
    && !m.pcs[t].Staged? && !m.pcs[t].Refused?
    && WantedBy(calls, m, t).Some? && WantedBy(calls, m, t).value in m.locks
  }

  /** An unfinished session that waits for no lock can make its next step. */
  lemma UnblockedCanMove(env: Env, db0: Db, calls: seq<Call>, m: Machine, t: Id) returns (pick: Option<Snapshot>)
    requires Inv(env, db0, calls, m) && t < |calls| && !Finished(m.pcs[t]) && !Blocked(calls, m, t)
    ensures TotalWork(Do(env, calls, m, Step(t, pick)).pcs) < TotalWork(m.pcs)
  {
    var c, pc := calls[t], m.pcs[t];
    SessionOf(env, calls, m, t);
    pick := None;
    if c.Evaluate? && pc.KeyUnused? {
      pick := LatestExists(SnapshotsOf(m.db, c.accountId));
    }
    AdvanceWorks(env, calls, m, t, pick);
    var r := Advance(env, calls, m, t, pick);
    assert r.pcs[t] != pc by {
      UnblockedMoves(env, calls, m, t, pick);
    }
    WorkAt(m.pcs, t, r.pcs[t]);
  }

  lemma UnblockedMoves(env: Env, calls: seq<Call>, m: Machine, t: Id, pick: Option<Snapshot>)
    requires t < |m.pcs| == |calls| && !Finished(m.pcs[t]) && !Blocked(calls, m, t)
    requires Local(env, calls[t], t, ViewOf(m.db, calls[t]), m.pcs[t])
    requires calls[t].Evaluate? && m.pcs[t].KeyUnused? ==> IsLatest(SnapshotsOf(m.db, calls[t].accountId), pick)
    ensures Advance(env, calls, m, t, pick).pcs[t] != m.pcs[t]
  {
  }

  /** Following the lock holders from any unfinished session leads to one that can move. */
  lemma {:induction false} SomeoneCanMove(env: Env, db0: Db, calls: seq<Call>, m: Machine, t: Id)
    returns (u: Id, pick: Option<Snapshot>)
    requires Inv(env, db0, calls, m) && t < |calls| && !Finished(m.pcs[t])
    ensures u < |calls| && TotalWork(Do(env, calls, m, Step(u, pick)).pcs) < TotalWork(m.pcs)
    decreases if Blocked(calls, m, t) then 3 - Rank(WantedBy(calls, m, t).value) else 0
  {
    if Blocked(calls, m, t) {
      var holder := m.locks[WantedBy(calls, m, t).value];
      assert LockOk(calls, m, WantedBy(calls, m, t).value);
      assert WaitsFor(calls, m, t, holder);
      WaitingClimbs(env, db0, calls, m, t, holder);
      u, pick := SomeoneCanMove(env, db0, calls, m, holder);
    } else {
      u := t;
      pick := UnblockedCanMove(env, db0, calls, m, t);
    }
  }

  lemma {:induction false} CanFinish(env: Env, db0: Db, calls: seq<Call>, m: Machine) returns (rest: seq<Action>)
    requires Inv(env, db0, calls, m) && IsFresh(db0)
    ensures |rest| <= TotalWork(m.pcs) && forall a | a in rest :: a.Step?
    ensures TotalWork(Exec(env, calls, m, rest).pcs) == 0
    decreases TotalWork(m.pcs)
  {
    NoWorkMeansFinished(m.pcs);
    if t: Id :| t < |calls| && !Finished(m.pcs[t]) {
      var u, pick := SomeoneCanMove(env, db0, calls, m, t);
      var a := Step(u, pick);
      var next := Do(env, calls, m, a);
      DoKeepsInv(env, db0, calls, m, a);
      var more := CanFinish(env, db0, calls, next);
      rest := [a] + more;
      assert Exec(env, calls, m, [a]) == next by {
        assert [a][..0] == [];
      }
      ExecConcat(env, calls, m, [a], more);
    } else {
      rest := [];
    }
  }

  /** From wherever a schedule has led, stepping can bring every session to its end, in no
      more steps than the work left. */
  lemma EveryRunCanFinish(env: Env, db0: Db, calls: seq<Call>, clock: Instant, acts: seq<Action>)
    returns (rest: seq<Action>)
    requires IsFresh(db0)
    ensures |rest| <= TotalWork(RunOf(env, db0, calls, clock, acts).pcs) && forall a | a in rest :: a.Step?
    ensures forall t | 0 <= t < |calls| :: Finished(RunOf(env, db0, calls, clock, acts + rest).pcs[t])
  {
    InvHolds(env, db0, calls, clock, acts);
    rest := CanFinish(env, db0, calls, RunOf(env, db0, calls, clock, acts));
    ExecConcat(env, calls, Init(calls, db0, clock), acts, rest);
    NoWorkMeansFinished(RunOf(env, db0, calls, clock, acts + rest).pcs);
  }
}
