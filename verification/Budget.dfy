/** Time budgets and process states: what a dispatch grants, and what every step keeps. */
module Budget {
  import opened Program
  import opened Scan
  import opened KernelState
  import opened Partition
  import opened Placement

  predicate SameCode(p: Proc, p': Proc) {
    p.code == p'.code && p.segId == p'.segId && p.pc == p'.pc
  }

  /** The scheduler in one view, for every process: who is dispatched and with what budget, who is parked in which
      state, and that nothing else changes. */
  lemma ScheduleEffect(k: KState, flag: Flag, id: Id)
    requires Partitioned(k) && Known(k.q) && id in k.q.procs
    ensures var q, s := k.q, Schedule(k.q, flag);
            var p, p' := q.procs[id], s.procs[id];
            && SameCode(p, p')
            && (s.cur == Some(id) ==>
                  && q.cur != Some(id) && p'.state == RUNNING
                  && (if q.high != [] then q.high[0] == id && p'.remaining == 1000
                      else q.low != [] && q.low[0] == id && p'.remaining == Max(0, Min(2000, p.remaining + 2000))))
            && (q.cur == Some(id) ==>
                  && s.cur != Some(id) && p'.remaining == p.remaining
                  && p'.state == (if flag == NONE then p.state else if flag == QUANTUM_COMPLETED then READY else BLOCKED))
            && (s.cur != Some(id) && q.cur != Some(id) ==> p' == p)
  {
    assert PartitionedAt(k, id);
    OccursIn(k.q.high, id);
    OccursIn(k.q.low, id);
    OccursIn(k.q.blocked, id);
  }

  /** Budgets stay below the larger quantum, states match places, and a process waiting for the disk is so deep in
      debt that the low queue's quantum cannot lift it above zero. */
  ghost predicate Budgeted(k: KState) {
    && Known(k.q)
    && (forall id | id in k.q.procs :: k.q.procs[id].remaining <= 2000)
    && (k.q.cur.Some? ==> k.q.procs[k.q.cur.value].state == RUNNING)
    && (forall id | id in k.q.blocked :: k.q.procs[id].state == BLOCKED)
    && (forall r | r in k.disk.pending :: r.proc in k.q.procs && k.q.procs[r.proc].remaining <= -3000)
    && (forall r | r in k.disk.pending :: 0 <= r.track <= TRACK_LIMIT)
    && InRange(k.disk.arm)
  }

  /** The next process comes from the queues, where its budget is renewed; the one that had the CPU is gone from it. */
  lemma ScheduleBudget(k: KState, flag: Flag)
    requires Partitioned(k) && Budgeted(k)
    ensures var s := Schedule(k.q, flag);
            && Known(s)
            && (forall id | id in s.procs :: s.procs[id].remaining <= 2000)
            && (s.cur.Some? ==> s.procs[s.cur.value].state == RUNNING)
            && (forall id | id in s.blocked :: s.procs[id].state == BLOCKED)
            && (forall r | r in k.disk.pending :: r.proc in s.procs && s.procs[r.proc].remaining <= -3000)
  {
    hide Schedule;
    var q, s := k.q, Schedule(k.q, flag);
    SchedulePlaces(q, flag, 0);
    forall id | id in q.procs
      ensures id in s.procs && s.procs[id].remaining <= 2000
      ensures s.cur == Some(id) ==> s.procs[id].state == RUNNING
      ensures id in s.blocked ==> s.procs[id].state == BLOCKED
    {
      ScheduleEffect(k, flag, id);
      SchedulePlaces(q, flag, id);
      assert PartitionedAt(k, id);
      OccursIn(s.blocked, id);
      OccursIn(q.blocked, id);
    }
    forall r | r in k.disk.pending
      ensures r.proc in s.procs && s.procs[r.proc].remaining <= -3000
    {
      ScheduleEffect(k, flag, r.proc);
      assert PartitionedAt(k, r.proc);
      RequestsIn(k.disk.pending, r.proc);
      OccursIn(q.high, r.proc);
      OccursIn(q.low, r.proc);
    }
    forall id
      ensures s.cur == Some(id) || id in s.high || id in s.low || id in s.blocked ==> id in s.procs
    {
      SchedulePlaces(q, flag, id);
      assert PartitionedAt(k, id);
      OccursIn(s.high, id);
      OccursIn(s.low, id);
      OccursIn(s.blocked, id);
    }
  }

  lemma ChargePositive(a: Arm, track: int)
    requires InRange(a) && 0 <= track <= TRACK_LIMIT
    ensures Charge(a, track) >= OPERATION_TIME
  {
  }

  lemma UnblockKnown(q: Sched, id: Id, toHigh: bool)
    requires Known(q)
    ensures var u := Unblock(q, id, toHigh);
            && Known(u) && u.procs == q.procs && u.cur == q.cur && (forall x | x in u.blocked :: x in q.blocked)
  {
    forall x
      ensures x in Remove(q.blocked, id) ==> x in q.blocked
    {
      OccursRemove(q.blocked, id, x);
      OccursIn(q.blocked, x);
      OccursIn(Remove(q.blocked, id), x);
    }
  }

  /** A request pays 200 exactly when it does not put the process to sleep. */
  lemma PRequestBudget(k: KState, i: nat)
    requires Partitioned(k) && Budgeted(k) && k.q.cur.Some? && i < |k.sems|
    ensures var id, k' := k.q.cur.value, PRequest(k, i);
            && Budgeted(k') && id in k'.q.procs
            && (k.sems[i].S <= 0 <==> k'.q.procs[id].state == BLOCKED)
            && (k.sems[i].S <= 0 ==> k'.q.cur != k.q.cur && k'.q.procs[id].remaining == k.q.procs[id].remaining)
            && (k.sems[i].S > 0 ==> k'.q == k.q)
  {
    ScheduleBudget(k, SEMAPHORE_BLOCKED);
    ScheduleEffect(k, SEMAPHORE_BLOCKED, k.q.cur.value);
  }

  lemma SetRemainingBudget(k: KState, id: Id, r: int)
    requires Budgeted(k) && id in k.q.procs && r <= 2000 && forall req | req in k.disk.pending :: req.proc != id
    ensures Budgeted(k.(q := SetRemaining(k.q, id, r)))
  {
  }

  lemma VRequestBudget(k: KState, i: nat)
    requires Budgeted(k) && i < |k.sems| && (k.sems[i].S < 0 ==> k.sems[i].waiters != [])
    ensures Budgeted(VRequest(k, i)) && VRequest(k, i).q.procs == k.q.procs && VRequest(k, i).q.cur == k.q.cur
  {
    if k.sems[i].S < 0 {
      UnblockKnown(k.q, k.sems[i].waiters[0], true);
    }
  }

  lemma DiskOpBudget(k: KState, track: int, read: bool)
    requires Partitioned(k) && Budgeted(k) && k.q.cur.Some? && k.q.cur.value in k.files.open && 0 <= track <= TRACK_LIMIT
    ensures Budgeted(DiskOp(k, track, read))
  {
    ScheduleBudget(k, IO_REQUESTED);
    ScheduleEffect(k, IO_REQUESTED, k.q.cur.value);
    ChargePositive(k.disk.arm, track);
    CurIsNowhereElse(k);
  }

  lemma PrintOpBudget(k: KState, duration: int)
    requires Partitioned(k) && Budgeted(k) && k.q.cur.Some? && 0 <= duration
    ensures Budgeted(PrintOp(k, duration))
  {
    hide Schedule;
    var id := k.q.cur.value;
    SchedulePlaces(k.q, IO_REQUESTED, id);
    ScheduleBudget(k, IO_REQUESTED);
    ScheduleEffect(k, IO_REQUESTED, id);
    CurIsNowhereElse(k);
    var q := Schedule(k.q, IO_REQUESTED);
    UnblockKnown(SetRemaining(q, id, q.procs[id].remaining - duration), id, false);
  }

  lemma EvalBudget(k: KState, instr: Instr)
    requires Partitioned(k) && Linked(k) && Budgeted(k) && k.q.cur.Some? && Answerable(k, instr) && ValidInstr(instr)
    ensures Budgeted(Eval(k, instr))
  {
    hide Partitioned, DiskOp, PrintOp;
    var id := k.q.cur.value;
    CurIsNowhereElse(k);
    match instr
    case Exec(v) => SetRemainingBudget(k, id, k.q.procs[id].remaining - v);
    case SemP(s) =>
      PRequestBudget(k, SemIndex(k.sems, s));
      var k' := PRequest(k, SemIndex(k.sems, s));
      if k'.q.procs[id].state != BLOCKED {
        SetRemainingBudget(k', id, Max(0, k'.q.procs[id].remaining - 200));
      }
    case SemV(s) =>
      VRequestBudget(k, SemIndex(k.sems, s));
      var k' := VRequest(k, SemIndex(k.sems, s));
      SetRemainingBudget(k', id, Max(0, k'.q.procs[id].remaining - 200));
    case Read(t) => DiskOpBudget(k, t, true);
    case Write(t) => DiskOpBudget(k, t, false);
    case Print(d) => PrintOpBudget(k, d);
  }

  lemma FinishBudget(k: KState)
    requires Partitioned(k) && Linked(k) && Budgeted(k) && k.q.cur.Some? && Finish(k).Running?
    ensures Budgeted(Finish(k).k)
  {
    var id := k.q.cur.value;
    var q := Schedule(k.q, NONE);
    PurgeNothing(k);
    ScheduleBudget(k, NONE);
    CurIsNowhereElse(k);
    SchedulePlaces(k.q, NONE, id);
    assert PartitionedAt(k, id);
    OccursIn(q.high, id);
    OccursIn(q.low, id);
    OccursIn(q.blocked, id);
  }

  lemma {:induction false} UnblockAllKnown(q: Sched, ids: seq<Id>)
    requires Known(q)
    ensures var u := UnblockAll(q, ids);
            && Known(u) && u.procs == q.procs && u.cur == q.cur && (forall x | x in u.blocked :: x in q.blocked)
    decreases |ids|
  {
    if ids != [] {
      UnblockKnown(q, ids[0], false);
      UnblockAllKnown(Unblock(q, ids[0], false), ids[1..]);
    }
  }

  lemma {:induction false} NotOnSubset(pending: seq<Request>, track: int, r: Request)
    ensures r in NotOn(pending, track) <==> r in pending && r.track != track
  {
    if pending != [] {
      NotOnSubset(pending[1..], track, r);
    }
  }

  lemma TickBudget(k: KState)
    requires Budgeted(k)
    ensures Budgeted(DiskTick(k))
  {
    UnblockAllKnown(k.q, Served(k.disk.pending, k.disk.arm.track));
    forall r
      ensures r in NotOn(k.disk.pending, k.disk.arm.track) ==> r in k.disk.pending
    {
      NotOnSubset(k.disk.pending, k.disk.arm.track, r);
    }
  }

  lemma PlacedBudget(k: KState, k': KState, id: Id, p: Proc, priority: int)
    requires Budgeted(k) && id !in k.q.procs && id !in k.q.blocked && p.remaining == 0
    requires k'.disk == k.disk && k'.q == Placed(k.q.(procs := k.q.procs[id := p]), id, priority)
    ensures Budgeted(k')
  {
    hide InRange;
  }

  lemma CreateBudget(k: KState, p: Prog)
    requires Partitioned(k) && Budgeted(k) && k.nextId !in k.q.procs && Create(k, p).Running?
    ensures Budgeted(Create(k, p).k)
  {
    assert PartitionedAt(k, k.nextId);
    OccursIn(k.q.blocked, k.nextId);
    hide Partitioned, PartitionedAt, Places, RegisterAll, Registered, Load, NewSeg, Budgeted, Placed;
    PlacedBudget(k, Create(k, p).k, k.nextId, Proc(p.code, p.segId, 0, 0, READY), p.priority);
  }
}
