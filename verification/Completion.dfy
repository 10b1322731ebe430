/** How runs of the driver end: everybody finishes, and everything is given back. */
module Completion {
  import opened Program
  import opened KernelState
  import opened Partition
  import opened Semaphores
  import opened FileCounts
  import opened SegmentFacts
  import opened Runs
  import opened Steps
  import opened CodeBounds
  import opened Mutex
  import opened Deadlock
  import opened Termination

  lemma NoProcesses(k: KState)
    requires Inv(k)
    ensures k.table == [] <==> k.q.procs == map[]
  {
    if k.table != [] {
      assert PartitionedAt(k, k.table[0]);
    } else {
      forall id
        ensures id !in k.q.procs
      {
        assert PartitionedAt(k, id);
      }
    }
  }

  /** What a step without a creation keeps. */
  lemma StepKeeps(k: KState, l: Label, rank: string -> int)
    requires Inv(k) && !l.Spawn? && Next(k, l).Running? && MutexInv(k) && AllOrdered(k, rank)
    ensures Inv(Next(k, l).k) && MutexInv(Next(k, l).k) && AllOrdered(Next(k, l).k, rank)
  {
    NextInv(k, l);
    StepMutex(k, l);
    StepOrdered(k, l, rank);
  }

  /** The driver ends: with a program fetched past its end, or with no process left. */
  lemma {:induction false} DriverEnds(k: KState, rank: string -> int) returns (n: nat)
    requires Inv(k) && MutexInv(k) && AllOrdered(k, rank)
    ensures var o := RunFrom(k, Driver(n)); o.Overrun? || (o.Running? && o.k.table == [])
    ensures n <= Measure(k)
    decreases Measure(k)
  {
    hide Inv, MutexInv, CpuStep, Stuck, Measure;
    NoProcesses(k);
    if k.table == [] {
      n := 0;
    } else {
      NoDeadlock(k, rank);
      MeasurePositive(k);
      DriverUnfold(k, 1);
      CpuStepInv(k, true);
      if CpuStep(k, true).Running? {
        var k1 := CpuStep(k, true).k;
        RoundDecreases(k);
        StepKeeps(k, Cpu(true), rank);
        InvLinked(k1);
        StepKeeps(k1, Tick, rank);
        n := DriverEnds(DiskTick(k1), rank);
        n := n + 1;
        DriverUnfold(k, n);
      } else {
        n := 1;
      }
    }
  }

  // ------------------------------------------------------------ everybody finishes

  lemma {:induction false} DriverSpawnsNothing(n: nat)
    ensures forall p :: Spawn(p) !in Driver(n)
  {
    if n > 0 {
      DriverSpawnsNothing(n - 1);
    }
  }

  lemma {:induction false} NoSpawnAllowed(k: KState, ls: seq<Label>)
    requires forall p :: Spawn(p) !in ls
    ensures AllAllowed(k, ls)
    decreases |ls|
  {
    if ls != [] {
      assert ls[0] in ls;
      if Next(k, ls[0]).Running? {
        NoSpawnAllowed(Next(k, ls[0]).k, ls[1..]);
      }
    }
  }

  /** Nothing is left behind: no queue entry, request, open file or segment, the whole memory free, and every
      semaphore at its initial value. */
  ghost predicate AllReturned(k: KState) {
    && k.q.procs == map[] && k.q.cur.None? && k.q.high == k.q.low == k.q.blocked == []
    && k.disk.pending == [] && k.files.inodes == []
    && k.segs.list == [] && k.segs.remaining == MAX_MEM_SIZE
    && forall i | 0 <= i < |k.sems| :: k.sems[i].S == 1 && k.sems[i].waiters == []
  }

  lemma OccursHead(s: seq<Id>)
    ensures s != [] ==> Occurs(s, s[0]) > 0
  {
  }

  lemma QueuesEmpty(k: KState)
    requires Inv(k) && k.q.procs == map[]
    ensures k.q.cur.None? && k.q.high == k.q.low == k.q.blocked == []
  {
    forall x
      ensures Places(k.q, x) == 0
      ensures Occurs(k.q.high, x) == 0 && Occurs(k.q.low, x) == 0 && Occurs(k.q.blocked, x) == 0
    {
      assert PartitionedAt(k, x);
    }
    OccursHead(k.q.high);
    OccursHead(k.q.low);
    OccursHead(k.q.blocked);
  }

  lemma PendingHead(pending: seq<Request>)
    ensures pending != [] ==> pending[0] in pending
  {
  }

  lemma EmptyReturned(k: KState)
    requires Inv(k) && MutexInv(k) && k.table == []
    ensures AllReturned(k)
  {
    NoProcesses(k);
    InvLinked(k);
    NobodyNothing(k.files);
    QueuesEmpty(k);
    assert k.segs.list != [] ==> Owned(k.q.procs, k.segs.list[0].id);
    PendingHead(k.disk.pending);
    forall i | 0 <= i < |k.sems|
      ensures k.sems[i].S == 1 && k.sems[i].waiters == []
    {
      assert ValueOk(k, i) && SemOk(k.sems[i]);
      assert Inside(k.q.procs, k.sems[i].name) == {};
    }
  }

  /** From every state of every run of disciplined, commonly ordered programs that end on the CPU, the driver finishes
      every process, and everything they used is given back. */
  lemma EverybodyFinishes(ls: seq<Label>, rank: string -> int) returns (n: nat)
    requires AllAllowed(Init(), ls) && RunFrom(Init(), ls).Running?
    requires forall p | Spawn(p) in ls :: Disciplined(p.code) && Ordered(p.code, rank) && EndsOnCpu(p.code)
    ensures var o := RunFrom(RunFrom(Init(), ls).k, Driver(n)); o.Running? && AllReturned(o.k)
  {
    var k := RunFrom(Init(), ls).k;
    InvInit();
    RunMutex(Init(), ls);
    RunOrdered(Init(), ls, rank);
    RunAllCodeLeft(Init(), ls);
    RunEnding(Init(), ls);
    n := DriverEnds(k, rank);
    DriverSpawnsNothing(n);
    NoSpawnAllowed(k, Driver(n));
    EndingNeverOverruns(k, Driver(n));
    RunMutex(k, Driver(n));
    EmptyReturned(RunFrom(k, Driver(n)).k);
  }

  ghost predicate AllEndOnCpu(k: KState) {
    forall id | id in k.q.procs :: EndsOnCpu(k.q.procs[id].code)
  }

  lemma StepEnding(k: KState, l: Label)
    requires Inv(k) && Allowed(k, l) && Next(k, l).Running? && AllEndOnCpu(k) && (l.Spawn? ==> EndsOnCpu(l.prog.code))
    ensures AllEndOnCpu(Next(k, l).k)
  {
    forall id | id in Next(k, l).k.q.procs
      ensures EndsOnCpu(Next(k, l).k.q.procs[id].code)
    {
      StepNew(k, l, id);
      if id in k.q.procs {
        StepCode(k, l, id);
      }
    }
  }

  lemma {:induction false} RunEnding(k: KState, ls: seq<Label>)
    requires Inv(k) && AllEndOnCpu(k) && AllAllowed(k, ls) && RunFrom(k, ls).Running?
    requires forall p | Spawn(p) in ls :: EndsOnCpu(p.code)
    ensures AllEndOnCpu(RunFrom(k, ls).k)
    decreases |ls|
  {
    if ls != [] {
      NextInv(k, ls[0]);
      StepEnding(k, ls[0]);
      assert forall p | Spawn(p) in ls[1..] :: Spawn(p) in ls;
      RunEnding(Next(k, ls[0]).k, ls[1..]);
    }
  }

  lemma {:induction false} EndingNeverOverruns(k: KState, ls: seq<Label>)
    requires Inv(k) && AllCodeLeft(k) && AllEndOnCpu(k) && AllAllowed(k, ls)
    requires forall p | Spawn(p) in ls :: EndsOnCpu(p.code)
    ensures !RunFrom(k, ls).Overrun?
    decreases |ls|
  {
    if ls != [] {
      NextInv(k, ls[0]);
      InvLinked(k);
      assert k.q.cur.Some? ==> CodeLeft(k, k.q.cur.value);
      if Next(k, ls[0]).Running? {
        StepCodeLeft(k, ls[0]);
        StepEnding(k, ls[0]);
        assert forall p | Spawn(p) in ls[1..] :: Spawn(p) in ls;
        EndingNeverOverruns(Next(k, ls[0]).k, ls[1..]);
      } else if ls[0].Cpu? {
        CpuStepInv(k, ls[0].gate);
      }
    }
  }
}
