/** Termination under any clock: not only the driver, but every schedule finishes everybody as long as the disk turns,
    the CPU steps, and the gate of a CPU that has something to execute does not stay closed. */
module Fairness {
  import opened Program
  import opened Scan
  import opened KernelState
  import opened Partition
  import opened Runs
  import opened Steps
  import opened CodeBounds
  import opened Mutex
  import opened Deadlock
  import opened Termination
  import opened Completion

  // ------------------------------------------------------------ fair rounds

  function CpuSteps(ls: seq<Label>): nat {
    if ls == [] then 0 else (if ls[0].Cpu? then 1 else 0) + CpuSteps(ls[1..])
  }

  /** The CPU loop stands at its head with a process to execute. */
  predicate Loaded(k: KState) {
    !k.atTest && k.q.cur.Some?
  }

  /** Somewhere in the round the gate opens on a loaded CPU. */
  predicate Opens(k: KState, ls: seq<Label>)
    decreases |ls|
  {
    ls != [] && (Executes(k, ls[0]) || (Next(k, ls[0]).Running? && Opens(Next(k, ls[0]).k, ls[1..])))
  }

  /** No step of the CPU in the round finds it loaded. */
  predicate Unloaded(k: KState, ls: seq<Label>)
    decreases |ls|
  {
    ls != [] ==> (ls[0].Cpu? ==> !Loaded(k)) && (Next(k, ls[0]).Running? ==> Unloaded(Next(k, ls[0]).k, ls[1..]))
  }

  /** A round creates nothing, turns the disk, and steps the CPU three times at least; and unless its gate has opened
      on a loaded CPU, the CPU has not been loaded. In between the steps come in any order and number. */
  ghost predicate Fair(k: KState, ls: seq<Label>) {
    && (forall p :: Spawn(p) !in ls) && Tick in ls && CpuSteps(ls) >= 3
    && (Opens(k, ls) || Unloaded(k, ls))
  }

  function WorkIn(k: KState): nat {
    Work(k.table, k.q.procs)
  }

  /** Somebody has the CPU or is ready for it. */
  predicate Busy(k: KState) {
    k.q.cur.Some? || Ready(k.q)
  }

  /** Turns until the disk serves somebody, while nobody is busy. */
  function Wait(k: KState): nat
    requires InRange(k.disk.arm) && forall r | r in k.disk.pending :: 0 <= r.track <= TRACK_LIMIT
  {
    if Busy(k) || k.disk.pending == [] then 0 else 1 + Delay(k.disk.arm, k.disk.pending[0].track)
  }

  lemma WaitBound(k: KState)
    requires Inv(k)
    ensures Wait(k) <= 401
  {
    if k.disk.pending != [] {
      assert k.disk.pending[0] in k.disk.pending;
      ServiceBound(k.disk.arm, k.disk.pending[0].track);
    }
  }

  // ------------------------------------------------------------ single steps

  /** A turn of the disk spends no work; it makes somebody busy, or brings the arm nearer. */
  lemma TurnSteps(k: KState)
    requires Inv(k) && Inv(DiskTick(k))
    ensures var k' := DiskTick(k);
            && WorkIn(k') == WorkIn(k) && k'.atTest == k.atTest && k'.q.cur == k.q.cur
            && (Busy(k) ==> Busy(k') && (k.q.high + k.q.low != [] ==> k'.q.high + k'.q.low != []))
            && (!Busy(k) && k.disk.pending != [] ==>
                  Wait(k') < Wait(k) && (!Busy(k') ==> k'.disk.pending != []))
  {
    TickServes(k);
    if !Busy(k) && k.disk.pending != [] && Served(k.disk.pending, k.disk.arm.track) == [] {
      NobodyServed(k.disk.pending, k.disk.arm.track);
      assert k.disk.pending[0] in k.disk.pending;
      DelayStep(k.disk.arm, k.disk.pending[0].track);
    }
  }

  /** A step of a CPU that is not loaded tears a process down, or spends no work: it gets a ready process on the CPU,
      or leaves an idle CPU as it is. */
  lemma UnloadedSteps(k: KState, gate: bool)
    requires Inv(k) && Linked(k) && !Loaded(k)
    ensures CpuStep(k, gate).Running?
    ensures var k' := CpuStep(k, gate).k;
            WorkIn(k') < WorkIn(k)
            || (WorkIn(k') == WorkIn(k) && !k'.atTest && k'.disk == k.disk && (Busy(k') <==> Busy(k))
                && (!k.atTest && Busy(k) ==> k'.q.cur.Some?))
  {
    CpuStepInv(k, gate);
    var back := k.(atTest := false);
    ControlInv(k, false);
    if k.q.cur.Some? {
      if k.q.procs[k.q.cur.value].pc >= |k.q.procs[k.q.cur.value].code| {
        FinishWork(back);
      } else {
        ScheduleWork(back, QUANTUM_COMPLETED);
        SchedulePhase(back);
      }
    } else if !k.atTest {
      ScheduleWork(k, NONE);
      SchedulePhase(k);
    }
  }

  lemma StepWork(k: KState, l: Label)
    requires Inv(k) && !l.Spawn? && Next(k, l).Running?
    ensures WorkIn(Next(k, l).k) <= WorkIn(k)
    ensures Executes(k, l) ==> WorkIn(Next(k, l).k) < WorkIn(k)
  {
    InvLinked(k);
    NextInv(k, l);
    if l == Tick {
      TurnSteps(k);
    } else if !Loaded(k) {
      UnloadedSteps(k, l.gate);
    } else if l.gate {
      CpuStepInv(k, true);
      ExecuteWork(k);
    }
  }

  // ------------------------------------------------------------ rounds

  ghost predicate SpawnsNothing(ls: seq<Label>) {
    forall p :: Spawn(p) !in ls
  }

  lemma SpawnsNothingRest(ls: seq<Label>)
    requires ls != [] && SpawnsNothing(ls)
    ensures !ls[0].Spawn? && SpawnsNothing(ls[1..])
  {
    assert ls[0] in ls;
    assert forall l | l in ls[1..] :: l in ls;
  }

  lemma {:induction false} RoundWork(k: KState, ls: seq<Label>)
    requires Inv(k) && SpawnsNothing(ls) && RunFrom(k, ls).Running?
    ensures Inv(RunFrom(k, ls).k) && WorkIn(RunFrom(k, ls).k) <= WorkIn(k)
    ensures Opens(k, ls) ==> WorkIn(RunFrom(k, ls).k) < WorkIn(k)
    decreases |ls|
  {
    hide Inv, Next, WorkIn, Executes;
    if ls != [] {
      SpawnsNothingRest(ls);
      NextKeeps(k, ls[0]);
      StepWork(k, ls[0]);
      RoundWork(Next(k, ls[0]).k, ls[1..]);
    }
  }

  lemma NextKeeps(k: KState, l: Label)
    requires Inv(k) && !l.Spawn?
    ensures Next(k, l).Running? ==> Inv(Next(k, l).k)
  {
    NextInv(k, l);
  }

  /** Steps of the CPU until a busy system is loaded, at most. */
  function Slack(k: KState): nat {
    if k.atTest then 2 else if k.q.cur.Some? then 0 else 1
  }

  lemma BusyStep(k: KState, l: Label)
    requires Inv(k) && !l.Spawn? && Next(k, l).Running? && Busy(k) && (l.Cpu? ==> !Loaded(k))
    ensures var k' := Next(k, l).k;
            WorkIn(k') < WorkIn(k)
            || (WorkIn(k') == WorkIn(k) && Busy(k') && (if l.Cpu? then 1 else 0) + Slack(k') <= Slack(k))
  {
    InvLinked(k);
    NextInv(k, l);
    if l == Tick {
      TurnSteps(k);
    } else {
      UnloadedSteps(k, l.gate);
    }
  }

  /** A busy system that stays unloaded tears a process down, or takes very few steps of the CPU. */
  lemma {:induction false} BusyRound(k: KState, ls: seq<Label>)
    requires Inv(k) && SpawnsNothing(ls) && RunFrom(k, ls).Running? && Unloaded(k, ls) && Busy(k)
    ensures WorkIn(RunFrom(k, ls).k) < WorkIn(k) || (Busy(RunFrom(k, ls).k) && CpuSteps(ls) <= Slack(k))
    decreases |ls|
  {
    hide Inv, Next, WorkIn, Loaded, Busy, Slack;
    if ls != [] {
      SpawnsNothingRest(ls);
      NextKeeps(k, ls[0]);
      BusyStep(k, ls[0]);
      var k1 := Next(k, ls[0]).k;
      RoundWork(k1, ls[1..]);
      if WorkIn(k1) == WorkIn(k) {
        BusyRound(k1, ls[1..]);
      }
    }
  }

  lemma IdleStep(k: KState, l: Label)
    requires Inv(k) && !l.Spawn? && Next(k, l).Running? && !Busy(k) && k.disk.pending != []
    ensures Inv(Next(k, l).k)
    ensures var k' := Next(k, l).k;
            WorkIn(k') < WorkIn(k)
            || (WorkIn(k') == WorkIn(k) && Wait(k') <= Wait(k) && (l == Tick ==> Wait(k') < Wait(k))
                && (!Busy(k') ==> k'.disk.pending != []) && (Busy(k') ==> l == Tick))
  {
    InvLinked(k);
    NextInv(k, l);
    if l == Tick {
      TurnSteps(k);
    } else {
      UnloadedSteps(k, l.gate);
    }
  }

  lemma WaitPositive(k: KState)
    requires Inv(k)
    ensures !Busy(k) && k.disk.pending != [] ==> Wait(k) > 0
    ensures Busy(k) ==> Wait(k) == 0
  {
  }

  /** While nobody is busy, every turn of the disk brings the next service nearer. */
  lemma {:induction false} IdleRound(k: KState, ls: seq<Label>)
    requires Inv(k) && SpawnsNothing(ls) && RunFrom(k, ls).Running? && Unloaded(k, ls)
    requires !Busy(k) && k.disk.pending != []
    ensures Inv(RunFrom(k, ls).k)
    ensures WorkIn(RunFrom(k, ls).k) < WorkIn(k)
            || (Wait(RunFrom(k, ls).k) <= Wait(k) && (Tick in ls ==> Wait(RunFrom(k, ls).k) < Wait(k)))
    decreases |ls|
  {
    RoundWork(k, ls);
    hide Inv, Next, WorkIn, Loaded, Busy, Wait;
    if ls != [] {
      SpawnsNothingRest(ls);
      IdleStep(k, ls[0]);
      var k1 := Next(k, ls[0]).k;
      RoundWork(k1, ls[1..]);
      WaitPositive(k);
      WaitPositive(RunFrom(k, ls).k);
      if WorkIn(k1) < WorkIn(k) {
      } else if Busy(k1) {
        BusyRound(k1, ls[1..]);
      } else {
        IdleRound(k1, ls[1..]);
        assert Tick in ls ==> ls[0] == Tick || Tick in ls[1..];
      }
    }
  }

  ghost function Rank(k: KState): nat
    requires Inv(k)
  {
    402 * WorkIn(k) + Wait(k)
  }

  /** Every fair round brings the end nearer, from every state that is not stuck. */
  lemma FairRoundDecreases(k: KState, ls: seq<Label>)
    requires Inv(k) && !Stuck(k) && Fair(k, ls) && RunFrom(k, ls).Running?
    ensures Inv(RunFrom(k, ls).k) && Rank(RunFrom(k, ls).k) < Rank(k)
  {
    var k' := RunFrom(k, ls).k;
    assert SpawnsNothing(ls);
    RoundWork(k, ls);
    WaitBound(k');
    hide Inv, RunFrom, WorkIn, Opens, Unloaded;
    if !Opens(k, ls) {
      if Busy(k) {
        BusyRound(k, ls);
      } else {
        IdleRound(k, ls);
      }
    }
  }

  // ------------------------------------------------------------ everybody finishes

  /** Disciplined programs with one common order that end on the CPU, on their way. */
  ghost predicate Promising(k: KState, rank: string -> int) {
    Inv(k) && MutexInv(k) && AllOrdered(k, rank) && AllCodeLeft(k) && AllEndOnCpu(k)
  }

  lemma PromisingStep(k: KState, l: Label, rank: string -> int)
    requires Promising(k, rank) && !l.Spawn?
    ensures Next(k, l).Running? && Promising(Next(k, l).k, rank)
  {
    InvLinked(k);
    NextInv(k, l);
    if l.Cpu? {
      CpuStepInv(k, l.gate);
      assert k.q.cur.Some? ==> CodeLeft(k, k.q.cur.value);
    }
    StepKeeps(k, l, rank);
    StepCodeLeft(k, l);
    StepEnding(k, l);
  }

  lemma {:induction false} PromisingRound(k: KState, ls: seq<Label>, rank: string -> int)
    requires Promising(k, rank) && SpawnsNothing(ls)
    ensures RunFrom(k, ls).Running? && Promising(RunFrom(k, ls).k, rank)
    decreases |ls|
  {
    if ls != [] {
      SpawnsNothingRest(ls);
      PromisingStep(k, ls[0], rank);
      PromisingRound(Next(k, ls[0]).k, ls[1..], rank);
    }
  }

  lemma CpuStepsMore(l: Label, ls: seq<Label>)
    ensures CpuSteps([l] + ls) == CpuSteps(ls) + if l.Cpu? then 1 else 0
  {
    assert ([l] + ls)[1..] == ls;
  }

  /** With its gate always open, three steps of the CPU and a turn of the disk are a fair round from any state. */
  lemma OpenGateIsFair(k: KState)
    ensures Fair(k, [Cpu(true), Cpu(true), Cpu(true), Tick])
  {
    var round := [Cpu(true), Cpu(true), Cpu(true), Tick];
    CpuStepsMore(Cpu(true), [Tick]);
    CpuStepsMore(Cpu(true), [Cpu(true)] + [Tick]);
    CpuStepsMore(Cpu(true), [Cpu(true)] + ([Cpu(true)] + [Tick]));
    assert round == [Cpu(true)] + ([Cpu(true)] + ([Cpu(true)] + [Tick]));
    assert round[3] == Tick;
    OpensOrUnloaded(k, round);
  }

  lemma {:induction false} OpensOrUnloaded(k: KState, ls: seq<Label>)
    requires forall l | l in ls && l.Cpu? :: l.gate
    ensures Opens(k, ls) || Unloaded(k, ls)
    decreases |ls|
  {
    if ls != [] {
      assert ls[0] in ls;
      assert forall l | l in ls[1..] :: l in ls;
      if Next(k, ls[0]).Running? {
        OpensOrUnloaded(Next(k, ls[0]).k, ls[1..]);
      }
    }
  }

  function Flat(rounds: seq<seq<Label>>): seq<Label> {
    if rounds == [] then [] else rounds[0] + Flat(rounds[1..])
  }

  ghost predicate FairFrom(k: KState, rounds: seq<seq<Label>>)
    decreases |rounds|
  {
    rounds != [] ==> Fair(k, rounds[0])
                     && (RunFrom(k, rounds[0]).Running? ==> FairFrom(RunFrom(k, rounds[0]).k, rounds[1..]))
  }

  /** No work is left exactly when nobody is, and then there is nothing to wait for. */
  lemma NothingLeft(k: KState)
    requires Inv(k) && MutexInv(k)
    ensures k.table == [] ==> Rank(k) == 0
    ensures k.table != [] ==> WorkIn(k) > 0
  {
    if k.table == [] {
      EmptyReturned(k);
    } else {
      assert PartitionedAt(k, k.table[0]);
    }
  }

  lemma OneRound(k: KState, ls: seq<Label>, rank: string -> int)
    requires Promising(k, rank) && Fair(k, ls)
    ensures RunFrom(k, ls).Running? && Promising(RunFrom(k, ls).k, rank) && AllAllowed(k, ls)
    ensures Rank(RunFrom(k, ls).k) <= Max(0, Rank(k) - 1)
  {
    assert SpawnsNothing(ls);
    PromisingRound(k, ls, rank);
    NoSpawnAllowed(k, ls);
    var k' := RunFrom(k, ls).k;
    hide Inv, RunFrom, Stuck, Rank, MutexInv, AllOrdered;
    NothingLeft(k);
    NothingLeft(k');
    NoProcesses(k);
    if k.table == [] {
      RoundWork(k, ls);
      EmptyWork(k);
    } else {
      NoDeadlock(k, rank);
      FairRoundDecreases(k, ls);
    }
  }

  lemma EmptyWork(k: KState)
    ensures k.table == [] ==> WorkIn(k) == 0
  {
  }

  lemma {:induction false} FairRoundsEnd(k: KState, rounds: seq<seq<Label>>, rank: string -> int)
    requires Promising(k, rank) && FairFrom(k, rounds) && |rounds| >= Rank(k)
    ensures RunFrom(k, Flat(rounds)).Running? && AllReturned(RunFrom(k, Flat(rounds)).k)
    ensures AllAllowed(k, Flat(rounds))
    decreases |rounds|
  {
    hide Inv, Fair, AllReturned, MutexInv;
    if rounds == [] {
      NothingLeft(k);
      EmptyReturned(k);
    } else {
      OneRound(k, rounds[0], rank);
      var k' := RunFrom(k, rounds[0]).k;
      FairRoundsEnd(k', rounds[1..], rank);
      RunAppend(k, rounds[0], Flat(rounds[1..]));
    }
  }

  /** From every state of every run of disciplined, commonly ordered programs that end on the CPU, every schedule of
      enough fair rounds finishes everybody, and everything they used is given back. */
  lemma EverybodyFinishesFairly(ls: seq<Label>, rounds: seq<seq<Label>>, rank: string -> int)
    requires AllAllowed(Init(), ls) && RunFrom(Init(), ls).Running?
    requires forall p | Spawn(p) in ls :: Disciplined(p.code) && Ordered(p.code, rank) && EndsOnCpu(p.code)
    ensures var k := RunFrom(Init(), ls).k;
            && Inv(k)
            && (FairFrom(k, rounds) && |rounds| >= Rank(k) ==>
                  RunFrom(k, Flat(rounds)).Running? && AllReturned(RunFrom(k, Flat(rounds)).k))
  {
    var k := RunFrom(Init(), ls).k;
    InvInit();
    RunMutex(Init(), ls);
    RunOrdered(Init(), ls, rank);
    RunAllCodeLeft(Init(), ls);
    RunEnding(Init(), ls);
    if FairFrom(k, rounds) && |rounds| >= Rank(k) {
      FairRoundsEnd(k, rounds, rank);
    }
  }
}
