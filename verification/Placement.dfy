/** How each kernel operation keeps the partition of the processes. */
module Placement {
  import opened Program
  import opened Scan
  import opened KernelState
  import opened Partition

  /** The partition leaves no dangling reference. */
  lemma PartitionLinks(k: KState)
    requires Partitioned(k) && k.files.open.Keys == k.q.procs.Keys
    ensures Linked(k)
  {
    var q := k.q;
    forall id | q.cur == Some(id) || id in q.high || id in q.low || id in q.blocked
      ensures id in q.procs
    {
      assert PartitionedAt(k, id);
      OccursIn(q.high, id);
      OccursIn(q.low, id);
      OccursIn(q.blocked, id);
    }
    forall r | r in k.disk.pending
      ensures r.proc in q.procs
    {
      assert PartitionedAt(k, r.proc);
      RequestsIn(k.disk.pending, r.proc);
    }
    forall i, id | 0 <= i < |k.sems| && id in k.sems[i].waiters
      ensures id in q.procs
    {
      assert PartitionedAt(k, id);
      OccursIn(k.sems[i].waiters, id);
      WaitsAtLeast(k.sems, i, id);
    }
  }

  /** What is on the CPU is queued nowhere, waits for nothing, and has no request. */
  lemma CurIsNowhereElse(k: KState)
    requires Partitioned(k) && k.q.cur.Some?
    ensures var id := k.q.cur.value;
            && id !in k.q.high && id !in k.q.low && id !in k.q.blocked
            && (forall i | 0 <= i < |k.sems| :: id !in k.sems[i].waiters)
            && (forall r | r in k.disk.pending :: r.proc != id)
  {
    var id := k.q.cur.value;
    assert PartitionedAt(k, id);
    OccursIn(k.q.high, id);
    OccursIn(k.q.low, id);
    OccursIn(k.q.blocked, id);
    RequestsIn(k.disk.pending, id);
    forall i | 0 <= i < |k.sems|
      ensures id !in k.sems[i].waiters
    {
      WaitsAtLeast(k.sems, i, id);
      OccursIn(k.sems[i].waiters, id);
    }
  }

  lemma SchedulePart(k: KState, flag: Flag, x: Id)
    requires Known(k.q) && PartitionedAt(k, x)
    requires flag == QUANTUM_COMPLETED || k.q.cur.None?
    ensures PartitionedAt(k.(q := Schedule(k.q, flag)), x)
  {
    SchedulePlaces(k.q, flag, x);
  }

  lemma PRequestPart(k: KState, i: nat, x: Id)
    requires Known(k.q) && k.q.cur.Some? && i < |k.sems| && PartitionedAt(k, x)
    ensures PartitionedAt(PRequest(k, i), x)
  {
    hide Schedule, Places;
    var sem := k.sems[i];
    var id := k.q.cur.value;
    SchedulePlaces(k.q, SEMAPHORE_BLOCKED, x);
    OccursAppend(k.q.blocked, [id], x);
    OccursAppend(sem.waiters, [id], x);
    WaitsUpdate(k.sems, i, Sem(sem.name, sem.S - 1, sem.waiters + [id]), x);
    WaitsUpdate(k.sems, i, sem.(S := sem.S - 1), x);
  }

  lemma VRequestPart(k: KState, i: nat, x: Id)
    requires i < |k.sems| && (k.sems[i].S < 0 ==> k.sems[i].waiters != [])
    requires Partitioned(k)
    ensures PartitionedAt(VRequest(k, i), x)
  {
    var sem := k.sems[i];
    assert PartitionedAt(k, x);
    WaitsUpdate(k.sems, i, sem.(S := sem.S + 1), x);
    if sem.S + 1 <= 0 {
      var head := sem.waiters[0];
      WaitsUpdate(k.sems, i, Sem(sem.name, sem.S + 1, sem.waiters[1..]), x);
      assert PartitionedAt(k, head);
      WaitsAtLeast(k.sems, i, head);
      OccursIn(k.q.blocked, head);
      UnblockPlaces(k.q, head, true, x);
    }
  }

  lemma DiskOpPart(k: KState, track: int, read: bool, x: Id)
    requires Known(k.q) && k.q.cur.Some? && k.q.cur.value in k.files.open && PartitionedAt(k, x)
    ensures PartitionedAt(DiskOp(k, track, read), x)
  {
    var id := k.q.cur.value;
    SchedulePlaces(k.q, IO_REQUESTED, x);
    OccursAppend(k.q.blocked, [id], x);
    RequestsAppend(k.disk.pending, Request(id, track, read, Charge(k.disk.arm, track)), x);
  }

  lemma PrintOpPart(k: KState, duration: int, x: Id)
    requires Partitioned(k) && Known(k.q) && k.q.cur.Some?
    ensures PartitionedAt(PrintOp(k, duration), x)
  {
    var id := k.q.cur.value;
    assert PartitionedAt(k, x);
    SchedulePlaces(k.q, IO_REQUESTED, x);
    OccursAppend(k.q.blocked, [id], x);
    var q := Schedule(k.q, IO_REQUESTED);
    UnblockPlaces(SetRemaining(q, id, q.procs[id].remaining - duration), id, false, x);
  }

  lemma {:induction false} RemoveLast(s: seq<Id>, x: Id)
    requires x !in s
    ensures Remove(s + [x], x) == s
  {
    if s != [] {
      RemoveLast(s[1..], x);
      assert (s + [x])[1..] == s[1..] + [x];
    }
  }

  /** Over the whole call a print only charges its process and sends it to the end of the low queue. */
  lemma PrintEffect(k: KState, duration: int)
    requires Partitioned(k) && Known(k.q) && k.q.cur.Some?
    ensures var id, q, u := k.q.cur.value, Schedule(k.q, IO_REQUESTED), PrintOp(k, duration).q;
            && u.blocked == k.q.blocked && u.low == q.low + [id] && u.high == q.high && u.cur == q.cur
            && u.procs[id].remaining == k.q.procs[id].remaining - duration
  {
    CurIsNowhereElse(k);
    SchedulePlaces(k.q, IO_REQUESTED, 0);
    RemoveLast(k.q.blocked, k.q.cur.value);
  }

  lemma EvalPart(k: KState, instr: Instr, x: Id)
    requires Partitioned(k) && Linked(k) && k.q.cur.Some? && Answerable(k, instr)
    ensures PartitionedAt(Eval(k, instr), x)
  {
    assert PartitionedAt(k, x);
    match instr
    case Exec(_) =>
    case SemP(s) => PRequestPart(k, SemIndex(k.sems, s), x);
    case SemV(s) => VRequestPart(k, SemIndex(k.sems, s), x);
    case Read(t) => DiskOpPart(k, t, true, x);
    case Write(t) => DiskOpPart(k, t, false, x);
    case Print(d) => PrintOpPart(k, d, x);
  }

  lemma {:induction false} RemoveAbsent(s: seq<Id>, x: Id)
    requires x !in s
    ensures Remove(s, x) == s
  {
    if s != [] {
      RemoveAbsent(s[1..], x);
    }
  }

  /** The rescheduling that starts a teardown already leaves the process in no queue. */
  lemma PurgeNothing(k: KState)
    requires Partitioned(k) && Known(k.q) && k.q.cur.Some?
    ensures var q := Schedule(k.q, NONE); Purge(q, k.q.cur.value) == q
  {
    var id := k.q.cur.value;
    var q := Schedule(k.q, NONE);
    assert PartitionedAt(k, id);
    SchedulePlaces(k.q, NONE, id);
    OccursIn(q.high, id);
    OccursIn(q.low, id);
    OccursIn(q.blocked, id);
    RemoveAbsent(q.blocked, id);
  }

  lemma FinishPart(k: KState, x: Id)
    requires Partitioned(k) && Linked(k) && k.q.cur.Some? && Finish(k).Running?
    ensures PartitionedAt(Finish(k).k, x)
  {
    var id := k.q.cur.value;
    assert PartitionedAt(k, x) && PartitionedAt(k, id);
    PurgeNothing(k);
    SchedulePlaces(k.q, NONE, x);
    OccursRemove(k.table, id, x);
    OccursIn(k.table, id);
  }

  lemma {:induction false} UnblockAllPlaces(q: Sched, ids: seq<Id>)
    requires forall x :: Occurs(ids, x) <= Occurs(q.blocked, x)
    ensures forall x :: Places(UnblockAll(q, ids), x) == Places(q, x)
    ensures forall x :: Occurs(UnblockAll(q, ids).blocked, x) == Occurs(q.blocked, x) - Occurs(ids, x)
    ensures UnblockAll(q, ids).procs == q.procs
    decreases |ids|
  {
    if ids != [] {
      assert Occurs(ids, ids[0]) <= Occurs(q.blocked, ids[0]);
      OccursIn(q.blocked, ids[0]);
      var next := Unblock(q, ids[0], false);
      forall x
        ensures Occurs(ids[1..], x) <= Occurs(next.blocked, x) && Places(next, x) == Places(q, x)
        ensures Occurs(next.blocked, x) - Occurs(ids[1..], x) == Occurs(q.blocked, x) - Occurs(ids, x)
      {
        UnblockPlaces(q, ids[0], false, x);
        assert Occurs(ids, x) <= Occurs(q.blocked, x);
      }
      UnblockAllPlaces(next, ids[1..]);
    }
  }

  lemma TickPart(k: KState, x: Id)
    requires Partitioned(k)
    ensures PartitionedAt(DiskTick(k), x)
  {
    var ids := Served(k.disk.pending, k.disk.arm.track);
    forall y
      ensures Occurs(ids, y) <= Occurs(k.q.blocked, y)
    {
      assert PartitionedAt(k, y);
      RequestsSplit(k.disk.pending, k.disk.arm.track, y);
    }
    UnblockAllPlaces(k.q, ids);
    RequestsSplit(k.disk.pending, k.disk.arm.track, x);
    assert PartitionedAt(k, x);
  }

  lemma {:induction false} RegisterAllWaits(sems: seq<Sem>, names: seq<string>, x: Id)
    ensures Waits(RegisterAll(sems, names), x) == Waits(sems, x)
    decreases |names|
  {
    if names != [] {
      WaitsAppend(sems, Sem(names[0], 1, []), x);
      RegisterAllWaits(Register(sems, names[0]), names[1..], x);
    }
  }

  lemma CreatePart(k: KState, p: Prog, x: Id)
    requires Partitioned(k) && k.nextId !in k.q.procs && Create(k, p).Running?
    ensures PartitionedAt(Create(k, p).k, x)
  {
    hide RegisterAll, Registered, Load, NewSeg;
    assert PartitionedAt(k, x);
    OccursAppend(k.table, [k.nextId], x);
    OccursAppend(k.q.high, [k.nextId], x);
    OccursAppend(k.q.low, [k.nextId], x);
    RegisterAllWaits(k.sems, p.sems, x);
  }

  // ------------------------------------------------------------ how many are blocked

  /** The count of waiters that the terminal shows. */
  function WaiterCount(sems: seq<Sem>): nat {
    if sems == [] then 0 else |sems[0].waiters| + WaiterCount(sems[1..])
  }

  function AllWaiters(sems: seq<Sem>): seq<Id> {
    if sems == [] then [] else sems[0].waiters + AllWaiters(sems[1..])
  }

  function Requesters(pending: seq<Request>): seq<Id> {
    if pending == [] then [] else [pending[0].proc] + Requesters(pending[1..])
  }

  lemma {:induction false} AllWaitersOccur(sems: seq<Sem>, x: Id)
    ensures |AllWaiters(sems)| == WaiterCount(sems) && Occurs(AllWaiters(sems), x) == Waits(sems, x)
  {
    if sems != [] {
      OccursAppend(sems[0].waiters, AllWaiters(sems[1..]), x);
      AllWaitersOccur(sems[1..], x);
    }
  }

  lemma {:induction false} RequestersOccur(pending: seq<Request>, x: Id)
    ensures |Requesters(pending)| == |pending| && Occurs(Requesters(pending), x) == Requests(pending, x)
  {
    if pending != [] {
      RequestersOccur(pending[1..], x);
    }
  }

  lemma {:induction false} RemoveShortens(s: seq<Id>, x: Id)
    ensures |Remove(s, x)| == if x in s then |s| - 1 else |s|
  {
    if s != [] && s[0] != x {
      RemoveShortens(s[1..], x);
    }
  }

  lemma OccursSomewhere(s: seq<Id>)
    ensures s != [] ==> exists x :: Occurs(s, x) > 0
  {
    if s != [] {
      assert Occurs(s, s[0]) > 0;
    }
  }

  lemma {:induction false} SameLength(s: seq<Id>, t: seq<Id>)
    requires forall x :: Occurs(s, x) == Occurs(t, x)
    ensures |s| == |t|
    decreases |s|
  {
    if s == [] {
      assert forall x :: Occurs(s, x) == 0;
      OccursSomewhere(t);
    } else {
      assert Occurs(s, s[0]) == Occurs(t, s[0]);
      OccursIn(t, s[0]);
      RemoveShortens(t, s[0]);
      forall x
        ensures Occurs(s[1..], x) == Occurs(Remove(t, s[0]), x)
      {
        assert Occurs(s, x) == Occurs(t, x);
        OccursRemove(t, s[0], x);
      }
      SameLength(s[1..], Remove(t, s[0]));
    }
  }

  /** As many processes are blocked as wait for semaphores or for the disk. */
  lemma BlockedCount(k: KState)
    requires Partitioned(k)
    ensures |k.q.blocked| == WaiterCount(k.sems) + |k.disk.pending|
  {
    var waiting := AllWaiters(k.sems) + Requesters(k.disk.pending);
    forall x
      ensures Occurs(k.q.blocked, x) == Occurs(waiting, x)
    {
      assert PartitionedAt(k, x);
      AllWaitersOccur(k.sems, x);
      RequestersOccur(k.disk.pending, x);
      OccursAppend(AllWaiters(k.sems), Requesters(k.disk.pending), x);
    }
    SameLength(k.q.blocked, waiting);
    AllWaitersOccur(k.sems, 0);
    RequestersOccur(k.disk.pending, 0);
  }
}
