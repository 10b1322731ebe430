/** Termination: a driver that alternates one CPU step and one disk turn finishes every process. */
module Termination {
  import opened Program
  import opened Scan
  import opened KernelState
  import opened Partition
  import opened Semaphores
  import opened Runs
  import opened Steps
  import opened Deadlock

  // ------------------------------------------------------------ the work left

  /** Instructions not executed yet, and the teardown. */
  function Left(p: Proc): nat {
    if p.pc <= |p.code| then |p.code| - p.pc + 1 else 1
  }

  function WorkOf(procs: map<Id, Proc>, id: Id): nat {
    if id in procs then Left(procs[id]) else 0
  }

  function Work(table: seq<Id>, procs: map<Id, Proc>): nat {
    if table == [] then 0 else WorkOf(procs, table[0]) + Work(table[1..], procs)
  }

  lemma {:induction false} WorkSame(table: seq<Id>, procs: map<Id, Proc>, procs': map<Id, Proc>)
    requires forall id | id in table :: WorkOf(procs, id) == WorkOf(procs', id)
    ensures Work(table, procs) == Work(table, procs')
  {
    if table != [] {
      WorkSame(table[1..], procs, procs');
    }
  }

  lemma {:induction false} WorkOnce(table: seq<Id>, procs: map<Id, Proc>, procs': map<Id, Proc>, id: Id)
    requires Occurs(table, id) == 1
    requires forall x | x in table && x != id :: WorkOf(procs, x) == WorkOf(procs', x)
    ensures Work(table, procs') == Work(table, procs) - WorkOf(procs, id) + WorkOf(procs', id)
  {
    if table[0] == id {
      OccursIn(table[1..], id);
      WorkSame(table[1..], procs, procs');
    } else {
      WorkOnce(table[1..], procs, procs', id);
    }
  }

  lemma {:induction false} WorkRemove(table: seq<Id>, procs: map<Id, Proc>, id: Id)
    requires id in table
    ensures Work(Remove(table, id), procs) == Work(table, procs) - WorkOf(procs, id)
  {
    if table[0] != id {
      WorkRemove(table[1..], procs, id);
    }
  }

  // ------------------------------------------------------------ the measure

  /** Rounds until somebody is ready, when the CPU is idle. */
  function IdleRounds(k: KState): nat
    requires InRange(k.disk.arm) && forall r | r in k.disk.pending :: 0 <= r.track <= TRACK_LIMIT
  {
    if Ready(k.q) then 1
    else if k.disk.pending != [] then 2 + Delay(k.disk.arm, k.disk.pending[0].track)
    else 0
  }

  /** CPU steps until the next instruction or teardown. */
  function Phase(k: KState): nat
    requires Known(k.q) && InRange(k.disk.arm) && forall r | r in k.disk.pending :: 0 <= r.track <= TRACK_LIMIT
  {
    if k.q.cur.None? then (if k.atTest then 1 else 0) + IdleRounds(k)
    else
      var p := k.q.procs[k.q.cur.value];
      if !k.atTest || p.pc >= |p.code| then 0 else if p.remaining > 0 then 1 else 2
  }

  ghost function Measure(k: KState): nat
    requires Inv(k)
  {
    404 * Work(k.table, k.q.procs) + Phase(k)
  }

  lemma MeasurePositive(k: KState)
    requires Inv(k) && k.table != []
    ensures Measure(k) > 0
  {
    assert PartitionedAt(k, k.table[0]);
  }

  lemma PhaseBound(k: KState)
    requires Inv(k)
    ensures Phase(k) < 404
  {
    if k.disk.pending != [] {
      ServiceBound(k.disk.arm, k.disk.pending[0].track);
    }
  }

  /** The CPU is idle until the disk has served somebody. */
  predicate WaitsForDisk(k: KState) {
    !k.atTest && k.q.cur.None? && !Ready(k.q) && k.disk.pending != []
  }

  // ------------------------------------------------------------ the CPU step

  lemma ExecuteWork(k: KState)
    requires Inv(k) && CanFetch(k) && Linked(k) && ExecuteOne(k).Running?
    ensures var k' := ExecuteOne(k).k; k'.table == k.table && Work(k'.table, k'.q.procs) < Work(k.table, k.q.procs)
  {
    hide Eval, ExecuteOne;
    var k', id := ExecuteOne(k).k, k.q.cur.value;
    FetchReady(k);
    ExecuteIs(k);
    EvalSems(Fetch(k), Current(k));
    forall x
      ensures x != id ==> WorkOf(k.q.procs, x) == WorkOf(k'.q.procs, x)
    {
      ExecuteCode(k, x);
    }
    ExecuteCode(k, id);
    assert PartitionedAt(k, id);
    WorkOnce(k.table, k.q.procs, k'.q.procs, id);
  }

  lemma FinishWork(k: KState)
    requires Inv(k) && k.q.cur.Some? && Linked(k) && Finish(k).Running?
    ensures var k' := Finish(k).k; Work(k'.table, k'.q.procs) < Work(k.table, k.q.procs)
  {
    var k', id := Finish(k).k, k.q.cur.value;
    FinishRuns(k);
    FinishInv(k);
    assert PartitionedAt(k, id) && PartitionedAt(k', id);
    OccursIn(k.table, id);
    WorkRemove(k.table, k.q.procs, id);
    forall x | x in k'.table
      ensures WorkOf(k.q.procs, x) == WorkOf(k'.q.procs, x)
    {
      OccursIn(k'.table, x);
      assert PartitionedAt(k', x);
      FinishedCode(k, x);
    }
    WorkSame(k'.table, k.q.procs, k'.q.procs);
  }

  lemma ScheduleWork(k: KState, flag: Flag)
    requires Known(k.q)
    ensures Work(k.table, Schedule(k.q, flag).procs) == Work(k.table, k.q.procs)
  {
    forall x
      ensures WorkOf(k.q.procs, x) == WorkOf(Schedule(k.q, flag).procs, x)
    {
      ScheduledCode(k, flag, x);
    }
    WorkSame(k.table, k.q.procs, Schedule(k.q, flag).procs);
  }

  /** Whoever had the CPU for its whole quantum goes to the high queue; the CPU goes to the next, if there is one. */
  lemma SchedulePhase(k: KState)
    requires Inv(k) && !k.atTest
    ensures k.q.cur.None? && Ready(k.q) ==> Schedule(k.q, NONE).cur.Some?
    ensures k.q.cur.None? && !Ready(k.q) ==> Schedule(k.q, NONE) == k.q
    ensures k.q.cur.Some? ==>
              Schedule(k.q, QUANTUM_COMPLETED).cur.Some? || Ready(Schedule(k.q, QUANTUM_COMPLETED))
  {
  }

  lemma CpuHeadMeasure(k: KState)
    requires Inv(k) && !k.atTest && !Stuck(k) && Linked(k) && CpuStep(k, true).Running? && Inv(CpuStep(k, true).k)
    ensures var k' := CpuStep(k, true).k;
            Measure(k') < Measure(k) || (WaitsForDisk(k) && k' == k)
  {
    var k' := CpuStep(k, true).k;
    PhaseBound(k');
    if k.q.cur.None? {
      ScheduleWork(k, NONE);
      SchedulePhase(k);
    } else {
      CpuStepInv(k, true);
      ExecuteWork(k);
    }
  }

  lemma CpuTestMeasure(k: KState)
    requires Inv(k) && k.atTest && Linked(k) && CpuStep(k, true).Running? && Inv(CpuStep(k, true).k)
    ensures Measure(CpuStep(k, true).k) < Measure(k)
  {
    var back := k.(atTest := false);
    PhaseBound(CpuStep(k, true).k);
    ControlInv(k, false);
    if k.q.cur.Some? {
      var p := k.q.procs[k.q.cur.value];
      if p.pc >= |p.code| {
        FinishInv(back);
        FinishWork(back);
      } else if p.remaining <= 0 {
        ScheduleWork(back, QUANTUM_COMPLETED);
        SchedulePhase(back);
      }
    }
  }

  // ------------------------------------------------------------ the disk turn

  lemma {:induction false} ServedAppear(q: Sched, ids: seq<Id>)
    requires forall x :: Occurs(ids, x) <= Occurs(q.blocked, x)
    ensures var u := UnblockAll(q, ids); u.low == q.low + ids && u.high == q.high && u.cur == q.cur && u.procs == q.procs
    decreases |ids|
  {
    if ids == [] {
      assert q.low + ids == q.low;
    } else {
      assert Occurs(ids, ids[0]) <= Occurs(q.blocked, ids[0]);
      OccursIn(q.blocked, ids[0]);
      var next := Unblock(q, ids[0], false);
      forall x
        ensures Occurs(ids[1..], x) <= Occurs(next.blocked, x)
      {
        UnblockPlaces(q, ids[0], false, x);
        assert Occurs(ids, x) <= Occurs(q.blocked, x);
      }
      ServedAppear(next, ids[1..]);
      assert q.low + [ids[0]] + ids[1..] == q.low + ids;
    }
  }

  /** s without any of gone, in order. */
  function Without(s: seq<Id>, gone: seq<Id>): seq<Id> {
    if s == [] then [] else (if s[0] in gone then [] else [s[0]]) + Without(s[1..], gone)
  }

  lemma {:induction false} WithoutNobody(s: seq<Id>)
    ensures Without(s, []) == s
  {
    if s != [] {
      WithoutNobody(s[1..]);
    }
  }

  lemma {:induction false} WithoutAbsent(s: seq<Id>, x: Id, gone: seq<Id>)
    requires x !in s
    ensures Without(s, [x] + gone) == Without(s, gone)
  {
    if s != [] {
      WithoutAbsent(s[1..], x, gone);
    }
  }

  lemma {:induction false} WithoutFirst(s: seq<Id>, x: Id, gone: seq<Id>)
    requires Occurs(s, x) == 1
    ensures Without(Remove(s, x), gone) == Without(s, [x] + gone)
  {
    if s[0] == x {
      OccursIn(s[1..], x);
      WithoutAbsent(s[1..], x, gone);
    } else {
      WithoutFirst(s[1..], x, gone);
    }
  }

  lemma {:induction false} ServedLeave(q: Sched, ids: seq<Id>)
    requires forall x :: Occurs(ids, x) <= Occurs(q.blocked, x) <= 1
    ensures UnblockAll(q, ids).blocked == Without(q.blocked, ids)
    decreases |ids|
  {
    if ids == [] {
      WithoutNobody(q.blocked);
    } else {
      assert Occurs(ids, ids[0]) <= Occurs(q.blocked, ids[0]) <= 1;
      OccursIn(q.blocked, ids[0]);
      var next := Unblock(q, ids[0], false);
      forall x
        ensures Occurs(ids[1..], x) <= Occurs(next.blocked, x) <= 1
      {
        UnblockPlaces(q, ids[0], false, x);
        assert Occurs(ids, x) <= Occurs(q.blocked, x) <= 1;
      }
      ServedLeave(next, ids[1..]);
      WithoutFirst(q.blocked, ids[0], ids[1..]);
      assert [ids[0]] + ids[1..] == ids;
    }
  }

  /** A disk turn puts those it serves at the end of the low queue, in the order of their requests, takes exactly them
      out of the blocked queue, and touches nothing else of the scheduler. */
  lemma TickServes(k: KState)
    requires Inv(k)
    ensures var u := DiskTick(k).q;
            && u.low == k.q.low + Served(k.disk.pending, k.disk.arm.track)
            && u.blocked == Without(k.q.blocked, Served(k.disk.pending, k.disk.arm.track))
            && u.high == k.q.high && u.cur == k.q.cur && u.procs == k.q.procs
  {
    var ids := Served(k.disk.pending, k.disk.arm.track);
    forall y
      ensures Occurs(ids, y) <= Occurs(k.q.blocked, y) <= 1
    {
      assert PartitionedAt(k, y);
      RequestsSplit(k.disk.pending, k.disk.arm.track, y);
    }
    ServedAppear(k.q, ids);
    ServedLeave(k.q, ids);
  }

  lemma {:induction false} NobodyServed(pending: seq<Request>, track: int)
    requires Served(pending, track) == []
    ensures NotOn(pending, track) == pending && forall r | r in pending :: r.track != track
  {
    if pending != [] {
      NobodyServed(pending[1..], track);
    }
  }

  lemma TickMeasure(k: KState)
    requires Inv(k) && Inv(DiskTick(k))
    ensures Measure(DiskTick(k)) <= Measure(k)
    ensures WaitsForDisk(k) ==> Measure(DiskTick(k)) < Measure(k)
  {
    TickServes(k);
    hide UnblockAll;
    if k.q.cur.None? && !Ready(k.q) && k.disk.pending != [] {
      if Served(k.disk.pending, k.disk.arm.track) == [] {
        NobodyServed(k.disk.pending, k.disk.arm.track);
        assert k.disk.pending[0] in k.disk.pending;
        DelayStep(k.disk.arm, k.disk.pending[0].track);
      }
    }
  }

  // ------------------------------------------------------------ rounds

  /** n rounds of the driver. */
  function Driver(n: nat): seq<Label> {
    if n == 0 then [] else [Cpu(true), Tick] + Driver(n - 1)
  }

  lemma DriverUnfold(k: KState, n: nat)
    requires n > 0 && Inv(k)
    ensures Linked(k)
    ensures CpuStep(k, true).Running? && Inv(CpuStep(k, true).k) ==>
              RunFrom(k, Driver(n)) == RunFrom(DiskTick(CpuStep(k, true).k), Driver(n - 1))
    ensures !CpuStep(k, true).Running? ==> RunFrom(k, Driver(n)) == CpuStep(k, true)
  {
    InvLinked(k);
    var ls := Driver(n);
    assert ls[0] == Cpu(true) && ls[1..][0] == Tick && ls[1..][1..] == Driver(n - 1);
    if CpuStep(k, true).Running? && Inv(CpuStep(k, true).k) {
      InvLinked(CpuStep(k, true).k);
    }
  }

  /** A round that does not overrun a program decreases the measure. */
  lemma RoundDecreases(k: KState)
    requires Inv(k) && !Stuck(k) && Linked(k) && CpuStep(k, true).Running?
    ensures Inv(CpuStep(k, true).k) && Inv(DiskTick(CpuStep(k, true).k))
    ensures Measure(DiskTick(CpuStep(k, true).k)) < Measure(k)
  {
    CpuStepInv(k, true);
    var k' := CpuStep(k, true).k;
    TickInv(k');
    if k.atTest {
      CpuTestMeasure(k);
    } else {
      CpuHeadMeasure(k);
    }
    TickMeasure(k');
  }
}
