/** Exactly which programs the CPU can fetch past their end, in some run of some mix of programs. */
module Overruns {
  import opened Program
  import opened KernelState
  import opened Partition
  import opened Placement
  import opened Budget
  import opened Semaphores
  import opened Runs
  import opened Steps
  import opened CodeBounds
  import opened Deadlock
  import opened Termination
  import opened Histories

  // ------------------------------------------------------------ what is left of a program

  /** Requests of x from instruction i on. */
  function Wants(code: seq<Instr>, i: nat, x: string): nat
    requires i <= |code|
    decreases |code| - i
  {
    if i == |code| then 0 else (if code[i] == SemP(x) then 1 else 0) + Wants(code, i + 1, x)
  }

  /** Releases of x from instruction i on, before the next request of x. */
  function Gives(code: seq<Instr>, i: nat, x: string): nat
    requires i <= |code|
    decreases |code| - i
  {
    if i == |code| || code[i] == SemP(x) then 0 else (if code[i] == SemV(x) then 1 else 0) + Gives(code, i + 1, x)
  }

  function Last(code: seq<Instr>): Instr
    requires code != []
  {
    code[|code| - 1]
  }

  // ------------------------------------------------------------ the game

  /** Semaphores are tuned to process id: if its program ends with a request of x, every request of x puts it to
      sleep; a request of another semaphore never does. */
  predicate Tuned(k: KState, id: Id, x: string)
    requires id in k.q.procs
  {
    var p, sem := k.q.procs[id], SemOf(k.sems, x);
    && p.code != [] && p.pc <= |p.code|
    && if Last(p.code) != SemP(x) then sem.S >= Wants(p.code, p.pc, x)
       else if id in sem.waiters then sem.S == -1
       else sem.S + Gives(p.code, p.pc, x) == 0
  }

  /** A process whose one request of the last semaphore of the program lies behind it. */
  predicate Follower(code: seq<Instr>, p: Proc)
    requires code != []
  {
    Last(code).SemP? && p.code == [Last(code), Exec(0)] && p.pc >= 1
  }

  /** Process id runs the program, in company of followers only, and has slept only past instruction from. */
  ghost predicate Game(k: KState, id: Id, code: seq<Instr>, from: nat) {
    && Inv(k) && AllCodeLeft(k)
    && code != [] && MayBlock(Last(code))
    && id in k.q.procs && k.q.procs[id].code == code && from <= k.q.procs[id].pc <= |code|
    && (k.q.procs[id].pc == |code| ==> !(k.atTest && k.q.cur == Some(id)))
    && (forall x :: Tuned(k, id, x))
    && (forall x :: id in SemOf(k.sems, x).waiters ==> from < k.q.procs[id].pc)
    && (forall w | w in k.q.procs && w != id :: Follower(code, k.q.procs[w]))
  }

  /** What is on the CPU waits for no semaphore. */
  lemma CurWaitsNot(k: KState, x: string)
    requires Inv(k) && k.q.cur.Some?
    ensures k.q.cur.value !in SemOf(k.sems, x).waiters
  {
    CurIsNowhereElse(k);
  }

  lemma SemOfOk(k: KState, x: string)
    requires Inv(k)
    ensures |SemOf(k.sems, x).waiters| == Max(0, -SemOf(k.sems, x).S)
    ensures forall w | w in SemOf(k.sems, x).waiters ::
              w in k.q.procs && JustFetched(k.q.procs[w], SemP(x))
  {
    if Registered(k.sems, x) {
      assert SemOk(k.sems[SemIndex(k.sems, x)]);
    }
  }

  lemma TunedStep(k: KState, l: Label, id: Id, x: string)
    requires Inv(k) && (l == Cpu(true) || l == Tick) && Next(k, l).Running? && id in k.q.procs && Tuned(k, id, x)
    requires Executes(k, l) && k.q.cur != Some(id) ==> CanFetch(k) && Current(k).Exec?
    requires id in Next(k, l).k.q.procs
    ensures Tuned(Next(k, l).k, id, x)
    ensures id in SemOf(Next(k, l).k.sems, x).waiters ==>
              id in SemOf(k.sems, x).waiters || k.q.procs[id].pc < Next(k, l).k.q.procs[id].pc
  {
    hide Inv, Next, Linked;
    StepCode(k, l, id);
    StepSems(k, l);
    SemOfOk(k, x);
    if Executes(k, l) {
      CurWaitsNot(k, x);
      ExecuteSemOf(k, l, x);
    }
  }

  /** Who executes in the game: the process itself, or a follower that only computes. */
  lemma GameExecutes(k: KState, id: Id, code: seq<Instr>, from: nat)
    requires Game(k, id, code, from) && Executes(k, Cpu(true)) && Next(k, Cpu(true)).Running?
    ensures CanFetch(k) && (k.q.cur != Some(id) ==> Current(k).Exec?)
  {
    InvLinked(k);
    CpuStepInv(k, true);
  }

  /** The last instruction takes the process off the CPU. */
  lemma LastLeaves(k: KState, id: Id, code: seq<Instr>, from: nat)
    requires Game(k, id, code, from) && Executes(k, Cpu(true)) && Next(k, Cpu(true)).Running?
    requires k.q.cur == Some(id) && k.q.procs[id].pc == |code| - 1
    ensures Next(k, Cpu(true)).k.q.cur != Some(id)
  {
    GameExecutes(k, id, code, from);
    assert Current(k) == Last(code);
    if Last(code).SemP? {
      RequestLeaves(k, Last(code).sem);
    } else {
      InputLeaves(k);
    }
  }

  lemma RequestLeaves(k: KState, x: string)
    requires Inv(k) && Executes(k, Cpu(true)) && CanFetch(k) && Next(k, Cpu(true)).Running? && Current(k) == SemP(x)
    requires Tuned(k, k.q.cur.value, x) && Last(k.q.procs[k.q.cur.value].code) == SemP(x)
    ensures Next(k, Cpu(true)).k.q.cur != k.q.cur
  {
    CurWaitsNot(k, x);
    WhoSleeps(k, Cpu(true), x);
    NextInv(k, Cpu(true));
    if Next(k, Cpu(true)).k.q.cur == k.q.cur {
      CurIsNowhereElse(Next(k, Cpu(true)).k);
    }
  }

  lemma InputLeaves(k: KState)
    requires Inv(k) && Executes(k, Cpu(true)) && CanFetch(k) && Next(k, Cpu(true)).Running?
    requires Current(k).Read? || Current(k).Write? || Current(k).Print?
    ensures Next(k, Cpu(true)).k.q.cur != k.q.cur
  {
    hide Inv;
    InvLinked(k);
    FetchReady(k);
    ExecuteIs(k);
    ScheduleEffect(Fetch(k), IO_REQUESTED, k.q.cur.value);
  }

  /** Only an executed instruction brings the CPU before the closing test. */
  lemma TestAfterExecuting(k: KState, l: Label)
    requires Inv(k) && (l == Cpu(true) || l == Tick) && Next(k, l).Running? && !Executes(k, l)
    ensures Next(k, l).k.atTest ==> k.atTest && Next(k, l).k.q.cur == k.q.cur
  {
    InvLinked(k);
    if l == Tick {
      UnblockAllKnown(k.q, Served(k.disk.pending, k.disk.arm.track));
    } else if k.atTest && k.q.cur.Some? {
      ControlInv(k, false);
      FinishRuns(k.(atTest := false));
    }
  }

  lemma FollowersStep(k: KState, l: Label, id: Id, code: seq<Instr>, from: nat, w: Id)
    requires Game(k, id, code, from) && (l == Cpu(true) || l == Tick) && Next(k, l).Running?
    requires w in Next(k, l).k.q.procs && w != id
    ensures Follower(code, Next(k, l).k.q.procs[w])
  {
    StepNew(k, l, w);
    StepCode(k, l, w);
  }

  lemma StaysInGame(k: KState, l: Label, id: Id, code: seq<Instr>, from: nat)
    requires Game(k, id, code, from) && (l == Cpu(true) || l == Tick) && Next(k, l).Running?
    ensures id in Next(k, l).k.q.procs && Next(k, l).k.q.procs[id].code == code
    ensures k.q.procs[id].pc <= Next(k, l).k.q.procs[id].pc <= |code|
    ensures Next(k, l).k.q.procs[id].pc == |code| ==> !(Next(k, l).k.atTest && Next(k, l).k.q.cur == Some(id))
  {
    StepCode(k, l, id);
    if Executes(k, l) {
      GameExecutes(k, id, code, from);
      if k.q.cur == Some(id) && k.q.procs[id].pc == |code| - 1 {
        LastLeaves(k, id, code, from);
      }
    } else {
      TestAfterExecuting(k, l);
    }
  }

  lemma GameStep(k: KState, l: Label, id: Id, code: seq<Instr>, from: nat)
    requires Game(k, id, code, from) && (l == Cpu(true) || l == Tick) && Next(k, l).Running?
    ensures Game(Next(k, l).k, id, code, from)
  {
    hide Inv, Next;
    var k' := Next(k, l).k;
    NextInv(k, l);
    StepCodeLeft(k, l);
    StaysInGame(k, l, id, code, from);
    if Executes(k, l) {
      GameExecutes(k, id, code, from);
    }
    forall x
      ensures Tuned(k', id, x) && (id in SemOf(k'.sems, x).waiters ==> from < k'.q.procs[id].pc)
    {
      assert Tuned(k, id, x);
      TunedStep(k, l, id, x);
    }
    forall w | w in k'.q.procs && w != id
      ensures Follower(code, k'.q.procs[w])
    {
      FollowersStep(k, l, id, code, from, w);
    }
  }

  // ------------------------------------------------------------ runs

  lemma RunOne(k: KState, l: Label)
    requires Allowed(k, l)
    ensures AllAllowed(k, [l]) && RunFrom(k, [l]) == Next(k, l)
  {
  }

  lemma RunTwo(k: KState, l: Label, l': Label)
    requires Allowed(k, l) && Next(k, l).Running? && Allowed(Next(k, l).k, l')
    ensures AllAllowed(k, [l, l']) && RunFrom(k, [l, l']) == Next(Next(k, l).k, l')
  {
    assert [l, l'][1..] == [l'];
    RunOne(Next(k, l).k, l');
  }

  /** The run from k leads to o. */
  ghost predicate Leads(k: KState, ls: seq<Label>, o: Outcome) {
    AllAllowed(k, ls) && RunFrom(k, ls) == o
  }

  lemma LeadsOn(k: KState, a: seq<Label>, k': KState, b: seq<Label>, o: Outcome)
    requires Leads(k, a, Running(k')) && Leads(k', b, o)
    ensures Leads(k, a + b, o)
  {
    RunAppend(k, a, b);
  }

  /** A step of the CPU that does not run in the game is the fetch past the end of the program. */
  lemma GameOverruns(k: KState, id: Id, code: seq<Instr>, from: nat)
    requires Game(k, id, code, from) && !Next(k, Cpu(true)).Running?
    ensures Next(k, Cpu(true)) == Overrun(code)
  {
    InvLinked(k);
    CpuStepInv(k, true);
    ExecuteOverruns(k);
    assert CodeLeft(k, k.q.cur.value);
  }

  /** The game goes on until the program is overrun or everybody sleeps. */
  lemma {:induction false} GameRuns(k: KState, id: Id, code: seq<Instr>, from: nat)
    returns (ls: seq<Label>, o: Outcome)
    requires Game(k, id, code, from)
    ensures Leads(k, ls, o)
    ensures o == Overrun(code) || (o.Running? && Game(o.k, id, code, from) && Stuck(o.k))
    decreases Measure(k)
  {
    if Stuck(k) {
      ls, o := [], Running(k);
    } else {
      InvLinked(k);
      RunOne(k, Cpu(true));
      o := Next(k, Cpu(true));
      ls := [Cpu(true)];
      if o.Running? {
        RoundDecreases(k);
        GameStep(k, Cpu(true), id, code, from);
        var k1 := o.k;
        InvLinked(k1);
        GameStep(k1, Tick, id, code, from);
        RunTwo(k, Cpu(true), Tick);
        var k2 := DiskTick(k1);
        var rest;
        rest, o := GameRuns(k2, id, code, from);
        ls := [Cpu(true), Tick] + rest;
        LeadsOn(k, [Cpu(true), Tick], k2, rest, o);
      } else {
        GameOverruns(k, id, code, from);
      }
    }
  }

  /** Nobody can be scheduled, and the CPU loop is at its head. */
  ghost predicate Quiet(k: KState) {
    Inv(k) && AllCodeLeft(k) && Stuck(k) && !k.atTest
  }

  /** In a stuck state one step brings the CPU loop to its head. */
  lemma Settle(k: KState) returns (ls: seq<Label>)
    requires Inv(k) && AllCodeLeft(k) && Stuck(k)
    ensures Leads(k, ls, Running(k.(atTest := false))) && Quiet(k.(atTest := false))
  {
    ls := [];
    if k.atTest {
      InvLinked(k);
      ls := [Cpu(true)];
      RunOne(k, Cpu(true));
      NextInv(k, Cpu(true));
      StepCodeLeft(k, Cpu(true));
    } else {
      assert k.(atTest := false) == k;
    }
  }

  /** When everybody sleeps in the game, the process alone is left, asleep on the semaphore of its last instruction. */
  lemma AsleepAlone(k: KState, id: Id, code: seq<Instr>, from: nat)
    requires Game(k, id, code, from) && Stuck(k)
    ensures Last(code).SemP?
    ensures var sem := SemOf(k.sems, Last(code).sem); sem.S == -1 && sem.waiters == [id]
    ensures from < k.q.procs[id].pc && k.q.procs.Keys == {id}
  {
    var x := SleepsOn(k, id);
    assert Tuned(k, id, x);
    SemOfOk(k, x);
    var sem := SemOf(k.sems, x);
    assert sem.waiters == [id];
    forall w | w in k.q.procs
      ensures w == id
    {
      var y := SleepsOn(k, w);
      SemOfOk(k, y);
    }
  }

  lemma SleepsOn(k: KState, id: Id) returns (x: string)
    requires Inv(k) && Stuck(k) && id in k.q.procs
    ensures id in SemOf(k.sems, x).waiters
  {
    var j := StuckWaits(k, id);
    x := k.sems[j].name;
    SemIndexOf(k.sems, j);
  }

  // ------------------------------------------------------------ visits of short programs

  predicate SameSem(k: KState, k': KState, x: string) {
    && SemOf(k'.sems, x).S == SemOf(k.sems, x).S
    && SemOf(k'.sems, x).waiters == SemOf(k.sems, x).waiters
  }

  /** The processes of k are still where they were in their programs. */
  ghost predicate Untouched(k: KState, k': KState) {
    forall w | w in k.q.procs :: w in k'.q.procs ==> SameCode(k.q.procs[w], k'.q.procs[w])
  }

  /** Nothing waits but for semaphores, except perhaps one process on the CPU. */
  predicate Idle(k: KState) {
    !k.atTest && !Ready(k.q) && k.disk.pending == []
  }

  /** Program p has come into the quiet system k and has the CPU. */
  ghost predicate Arrived(k: KState, k': KState, p: Prog) {
    && Inv(k') && AllCodeLeft(k') && Idle(k') && k'.q.cur == Some(k.nextId)
    && k.nextId !in k.q.procs && k'.q.procs.Keys == k.q.procs.Keys + {k.nextId}
    && k'.q.procs[k.nextId].code == p.code && k'.q.procs[k.nextId].segId == p.segId && k'.q.procs[k.nextId].pc == 0
    && Untouched(k, k') && forall x :: SameSem(k, k', x)
  }

  lemma CreatedSems(k: KState, p: Prog)
    requires Inv(k) && Create(k, p).Running?
    ensures forall x :: SameSem(k, Create(k, p).k, x)
  {
    forall x
      ensures SameSem(k, Create(k, p).k, x)
    {
      RegisteredKept(k.sems, p.sems, x);
    }
  }

  lemma Spawned(k: KState, p: Prog)
    requires Quiet(k) && Allowed(k, Spawn(p)) && Create(k, p).Running?
    ensures Next(k, Spawn(p)) == Create(k, p)
    ensures var k1 := Create(k, p).k;
            && Inv(k1) && AllCodeLeft(k1) && !k1.atTest && k1.disk.pending == [] && k1.q.cur == None
            && k.nextId !in k.q.procs && k1.q.procs.Keys == k.q.procs.Keys + {k.nextId}
            && k1.q.high + k1.q.low == [k.nextId]
            && k1.q.procs[k.nextId] == Proc(p.code, p.segId, 0, 0, READY) && Untouched(k, k1)
  {
    InvLinked(k);
    NextInv(k, Spawn(p));
    StepCodeLeft(k, Spawn(p));
  }

  lemma Dispatched(k1: KState, id: Id)
    requires Inv(k1) && AllCodeLeft(k1) && !k1.atTest && k1.disk.pending == [] && k1.q.cur == None
    requires k1.q.high + k1.q.low == [id]
    ensures Next(k1, Cpu(true)).Running?
    ensures var k2 := Next(k1, Cpu(true)).k;
            && Inv(k2) && AllCodeLeft(k2) && Idle(k2) && k2.q.cur == Some(id) && k2.sems == k1.sems
            && k2.q.procs.Keys == k1.q.procs.Keys && Untouched(k1, k2)
  {
    hide Inv, AllCodeLeft, Linked;
    InvLinked(k1);
    NextInv(k1, Cpu(true));
    StepCodeLeft(k1, Cpu(true));
    assert k1.q.high == [id] || k1.q.low == [id];
    SchedulePlaces(k1.q, NONE, id);
    forall w | w in k1.q.procs
      ensures SameCode(k1.q.procs[w], Schedule(k1.q, NONE).procs[w])
    {
      ScheduleCode(k1.q, NONE, w);
    }
  }

  lemma Arrive(k: KState, p: Prog) returns (ls: seq<Label>, k': KState)
    requires Quiet(k) && Allowed(k, Spawn(p)) && Create(k, p).Running?
    ensures Leads(k, ls, Running(k')) && Arrived(k, k', p)
  {
    hide Inv, AllCodeLeft, Create, Next, Allowed;
    Spawned(k, p);
    CreatedSems(k, p);
    var k1 := Create(k, p).k;
    Dispatched(k1, k.nextId);
    ls, k' := [Spawn(p), Cpu(true)], Next(k1, Cpu(true)).k;
    CpuAllowed(k1);
    RunTwo(k, Spawn(p), Cpu(true));
    forall x
      ensures SameSem(k, k', x)
    {
      assert SameSem(k, k1, x);
    }
  }

  lemma CpuAllowed(k: KState)
    ensures Allowed(k, Cpu(true))
  {
  }

  /** One instruction, as far as programs and other semaphores are concerned. */
  lemma Executed1(k: KState)
    requires Inv(k) && AllCodeLeft(k) && Executes(k, Cpu(true)) && CanFetch(k)
    ensures Next(k, Cpu(true)).Running?
    ensures var k' := Next(k, Cpu(true)).k;
            && Inv(k') && AllCodeLeft(k') && k'.atTest
            && k'.q.procs.Keys == k.q.procs.Keys
            && (forall w | w in k.q.procs ::
                  && k'.q.procs[w].code == k.q.procs[w].code && k'.q.procs[w].segId == k.q.procs[w].segId
                  && k'.q.procs[w].pc == k.q.procs[w].pc + (if k.q.cur == Some(w) then 1 else 0))
  {
    InvLinked(k);
    NextInv(k, Cpu(true));
    CpuStepInv(k, true);
    StepCodeLeft(k, Cpu(true));
    ExecuteCode(k, k.q.cur.value);
    forall w | w in k.q.procs
      ensures w in Next(k, Cpu(true)).k.q.procs
      ensures var p, p' := k.q.procs[w], Next(k, Cpu(true)).k.q.procs[w];
              p'.code == p.code && p'.segId == p.segId && p'.pc == p.pc + (if k.q.cur == Some(w) then 1 else 0)
    {
      ExecuteCode(k, w);
    }
  }

  lemma OtherSems(k: KState, x: string)
    requires Inv(k) && Executes(k, Cpu(true)) && CanFetch(k) && Next(k, Cpu(true)).Running?
    requires Current(k) == SemP(x) || Current(k) == SemV(x)
    ensures forall y | y != x :: SameSem(k, Next(k, Cpu(true)).k, y)
  {
    forall y | y != x
      ensures SameSem(k, Next(k, Cpu(true)).k, y)
    {
      ExecuteSemOf(k, Cpu(true), y);
    }
  }

  /** Alone with sleepers, the CPU is idle after a request that cannot be granted. */
  lemma NobodyElse(k: KState, x: string)
    requires Inv(k) && Idle(k) && Executes(k, Cpu(true)) && CanFetch(k) && Next(k, Cpu(true)).Running?
    requires Current(k) == SemP(x) && SemOf(k.sems, x).S <= 0
    ensures Stuck(Next(k, Cpu(true)).k)
  {
    hide Inv;
    InvLinked(k);
    FetchReady(k);
    ExecuteIs(k);
  }

  /** A request that cannot be granted leaves a quiet system with one more sleeper. */
  lemma FallsAsleep(k: KState, x: string) returns (ls: seq<Label>, k': KState)
    requires Inv(k) && AllCodeLeft(k) && Idle(k) && k.q.cur.Some? && CanFetch(k)
    requires Current(k) == SemP(x) && SemOf(k.sems, x).S <= 0
    ensures Leads(k, ls, Running(k')) && Quiet(k')
    ensures SemOf(k'.sems, x).S == SemOf(k.sems, x).S - 1
    ensures SemOf(k'.sems, x).waiters == SemOf(k.sems, x).waiters + [k.q.cur.value]
    ensures forall y | y != x :: SameSem(k, k', y)
    ensures k'.q.procs.Keys == k.q.procs.Keys
    ensures forall w | w in k.q.procs ::
              && k'.q.procs[w].code == k.q.procs[w].code && k'.q.procs[w].segId == k.q.procs[w].segId
              && k'.q.procs[w].pc == k.q.procs[w].pc + (if k.q.cur == Some(w) then 1 else 0)
  {
    hide Inv, AllCodeLeft, Next;
    Executed1(k);
    OtherSems(k, x);
    ExecuteSemOf(k, Cpu(true), x);
    NobodyElse(k, x);
    var k1 := Next(k, Cpu(true)).k;
    CpuAllowed(k);
    RunOne(k, Cpu(true));
    var rest := Settle(k1);
    ls, k' := [Cpu(true)] + rest, k1.(atTest := false);
    LeadsOn(k, [Cpu(true)], k1, rest, Running(k'));
    forall y | y != x
      ensures SameSem(k, k', y)
    {
      assert SameSem(k, k1, y);
    }
  }

  /** A request that is granted and a release leave the process on the CPU; a release wakes the first waiter. */
  predicate Granted(k: KState, instr: Instr, x: string) {
    instr == SemV(x) || (instr == SemP(x) && SemOf(k.sems, x).S > 0)
  }

  /** Who is woken by the instruction, if anybody waits. */
  function Wakes(k: KState, instr: Instr, x: string): seq<Id> {
    var waiters := SemOf(k.sems, x).waiters;
    if instr == SemV(x) && waiters != [] then [waiters[0]] else []
  }

  lemma GrantedQueues(k: KState, instr: Instr, x: string)
    requires Inv(k) && Idle(k) && Executes(k, Cpu(true)) && CanFetch(k) && Next(k, Cpu(true)).Running?
    requires Current(k) == instr && Granted(k, instr, x)
    ensures var k' := Next(k, Cpu(true)).k;
            && k'.q.cur == k.q.cur && k'.q.high == Wakes(k, instr, x) && k'.q.low == [] && k'.disk.pending == []
  {
    hide Inv;
    InvLinked(k);
    SemOfOk(k, x);
    FetchReady(k);
    ExecuteIs(k);
    if instr == SemV(x) {
      WhoWakes(k, Cpu(true), x);
    }
  }

  /** The teardown of the process on the CPU gives the CPU to the only one that is ready. */
  lemma TornDown(k: KState, next: seq<Id>)
    requires Inv(k) && AllCodeLeft(k) && k.atTest && k.q.cur.Some? && !CanFetch(k)
    requires |next| <= 1 && k.q.high == next && k.q.low == [] && k.disk.pending == []
    ensures Next(k, Cpu(true)).Running?
    ensures var k' := Next(k, Cpu(true)).k;
            && Inv(k') && AllCodeLeft(k') && Idle(k') && k'.sems == k.sems
            && k'.q.cur == (if next == [] then None else Some(next[0]))
            && k'.q.procs.Keys == k.q.procs.Keys - {k.q.cur.value}
  {
    InvLinked(k);
    NextInv(k, Cpu(true));
    StepCodeLeft(k, Cpu(true));
    CpuStepInv(k, true);
    ControlInv(k, false);
    FinishRuns(k.(atTest := false));
    SchedulePlaces(k.q, NONE, 0);
  }

  /** A program of one such instruction executes it and is gone. */
  lemma Departs(k: KState, instr: Instr, x: string) returns (ls: seq<Label>, k': KState)
    requires Inv(k) && AllCodeLeft(k) && Idle(k) && k.q.cur.Some? && CanFetch(k)
    requires k.q.procs[k.q.cur.value].code == [instr] && Granted(k, instr, x)
    ensures Leads(k, ls, Running(k'))
    ensures Inv(k') && AllCodeLeft(k') && Idle(k')
    ensures k'.q.cur == if Wakes(k, instr, x) == [] then None else Some(Wakes(k, instr, x)[0])
    ensures k'.q.procs.Keys == k.q.procs.Keys - {k.q.cur.value}
    ensures forall w | w in k'.q.procs :: SameCode(k.q.procs[w], k'.q.procs[w])
    ensures SemOf(k'.sems, x).S == SemOf(k.sems, x).S - Delta(instr, x)
    ensures SemOf(k'.sems, x).waiters == SemOf(k.sems, x).waiters[|Wakes(k, instr, x)|..]
    ensures forall y | y != x :: SameSem(k, k', y)
  {
    hide Inv, AllCodeLeft, Next;
    Executed1(k);
    OtherSems(k, x);
    ExecuteSemOf(k, Cpu(true), x);
    SemOfOk(k, x);
    GrantedQueues(k, instr, x);
    var k1, gone := Next(k, Cpu(true)).k, k.q.cur.value;
    assert gone in k.q.procs && k1.q.procs[gone].code == [instr] && k1.q.procs[gone].pc == 1;
    TornDown(k1, Wakes(k, instr, x));
    ls, k' := [Cpu(true), Cpu(true)], Next(k1, Cpu(true)).k;
    CpuAllowed(k);
    CpuAllowed(k1);
    RunTwo(k, Cpu(true), Cpu(true));
    forall w | w in k'.q.procs
      ensures SameCode(k.q.procs[w], k'.q.procs[w])
    {
      StepCode(k1, Cpu(true), w);
    }
    forall y | y != x
      ensures SameSem(k, k', y)
    {
      assert SameSem(k, k1, y);
    }
  }

  lemma {:induction false} Above(s: set<int>) returns (bound: int)
    ensures forall x | x in s :: x < bound
    decreases |s|
  {
    bound := 0;
    if s != {} {
      var y := Inhabited(s);
      var b := Above(s - {y});
      bound := if b > y then b else y + 1;
      forall x | x in s
        ensures x < bound
      {
        assert x == y || x in s - {y};
      }
    }
  }

  /** A short program on one semaphore, with a segment id that is not in use and differs from one to be kept free. */
  lemma ShortProgram(k: KState, code: seq<Instr>, x: string, keep: int) returns (p: Prog)
    requires Inv(k) && code != [] && forall i | 0 <= i < |code| :: code[i] in {SemP(x), SemV(x), Exec(0)}
    ensures p.code == code && p.segId != keep && Allowed(k, Spawn(p)) && Create(k, p).Running?
  {
    var ids := set id | id in k.q.procs :: k.q.procs[id].segId;
    var bound := Above(ids);
    p := Prog(if bound > keep then bound else keep + 1, 0, 0, [x], code);
    forall id | id in k.q.procs
      ensures k.q.procs[id].segId != p.segId
    {
      assert k.q.procs[id].segId in ids;
    }
    CreateRuns(k, p);
    RegisterAllHas(k.sems, [x], x);
  }

  /** A visitor asks for the semaphore and falls asleep on it. */
  lemma Visitor(k: KState, x: string, keep: int) returns (ls: seq<Label>, k': KState)
    requires Quiet(k) && SemOf(k.sems, x).S <= 0
    ensures Leads(k, ls, Running(k')) && Quiet(k')
    ensures SemOf(k'.sems, x).S == SemOf(k.sems, x).S - 1
    ensures SemOf(k'.sems, x).waiters == SemOf(k.sems, x).waiters + [k.nextId]
    ensures forall y | y != x :: SameSem(k, k', y)
    ensures k.nextId !in k.q.procs && k'.q.procs.Keys == k.q.procs.Keys + {k.nextId}
    ensures Untouched(k, k')
    ensures Visiting(k'.q.procs[k.nextId], x, keep)
  {
    hide Inv, AllCodeLeft, Allowed, Create;
    var p := ShortProgram(k, [SemP(x), Exec(0)], x, keep);
    var a, k1 := Arrive(k, p);
    assert SameSem(k, k1, x);
    var b;
    b, k' := FallsAsleep(k1, x);
    ls := a + b;
    LeadsOn(k, a, k1, b, Running(k'));
    forall y | y != x
      ensures SameSem(k, k', y)
    {
      assert SameSem(k, k1, y) && SameSem(k1, k', y);
    }
  }

  /** A process that has asked for x and has only to wake up and compute. */
  predicate Visiting(p: Proc, x: string, keep: int) {
    p.code == [SemP(x), Exec(0)] && p.pc == 1 && p.segId != keep
  }

  /** A helper executes its one instruction on the semaphore and is gone. */
  lemma Helper(k: KState, instr: Instr, x: string, keep: int) returns (ls: seq<Label>, k': KState)
    requires Quiet(k) && Granted(k, instr, x)
    ensures Leads(k, ls, Running(k'))
    ensures Inv(k') && AllCodeLeft(k') && Idle(k')
    ensures k'.q.cur == if Wakes(k, instr, x) == [] then None else Some(Wakes(k, instr, x)[0])
    ensures k'.q.procs.Keys == k.q.procs.Keys && Untouched(k, k')
    ensures SemOf(k'.sems, x).S == SemOf(k.sems, x).S - Delta(instr, x)
    ensures SemOf(k'.sems, x).waiters == SemOf(k.sems, x).waiters[|Wakes(k, instr, x)|..]
    ensures forall y | y != x :: SameSem(k, k', y)
  {
    hide Inv, AllCodeLeft, Allowed, Create;
    var p := ShortProgram(k, [instr], x, keep);
    var a, k1 := Arrive(k, p);
    assert SameSem(k, k1, x);
    var b;
    b, k' := Departs(k1, instr, x);
    ls := a + b;
    LeadsOn(k, a, k1, b, Running(k'));
    forall y | y != x
      ensures SameSem(k, k', y)
    {
      assert SameSem(k, k1, y) && SameSem(k1, k', y);
    }
  }

  lemma {:induction false} Visitors(k: KState, x: string, n: nat, keep: int) returns (ls: seq<Label>, k': KState)
    requires Quiet(k) && SemOf(k.sems, x).S <= 0
    ensures Leads(k, ls, Running(k')) && Quiet(k')
    ensures SemOf(k'.sems, x).S == SemOf(k.sems, x).S - n
    ensures SemOf(k.sems, x).waiters <= SemOf(k'.sems, x).waiters
    ensures forall y | y != x :: SameSem(k, k', y)
    ensures k.q.procs.Keys <= k'.q.procs.Keys && Untouched(k, k')
    ensures forall w | w in k'.q.procs :: w in k.q.procs || Visiting(k'.q.procs[w], x, keep)
    decreases n
  {
    hide Quiet;
    ls, k' := [], k;
    if n > 0 {
      var a, k1 := Visitor(k, x, keep);
      var b;
      b, k' := Visitors(k1, x, n - 1, keep);
      ls := a + b;
      LeadsOn(k, a, k1, b, Running(k'));
      forall y | y != x
        ensures SameSem(k, k', y)
      {
        assert SameSem(k, k1, y) && SameSem(k1, k', y);
      }
    }
  }

  // ------------------------------------------------------------ waking the program up

  lemma AwakeInGame(k: KState, k': KState, id: Id, code: seq<Instr>, from: nat)
    requires Game(k, id, code, from) && k.q.procs[id].pc < |code| && Last(code).SemP?
    requires Inv(k') && AllCodeLeft(k') && !k'.atTest && k'.q.cur == Some(id) && Untouched(k, k')
    requires SemOf(k'.sems, Last(code).sem).S + Gives(code, k.q.procs[id].pc, Last(code).sem) == 0
    requires forall y | y != Last(code).sem :: SameSem(k, k', y)
    requires id in k'.q.procs
    requires forall w | w in k'.q.procs && w != id :: Visiting(k'.q.procs[w], Last(code).sem, 0)
    ensures Game(k', id, code, k.q.procs[id].pc)
  {
    hide Inv, AllCodeLeft;
    forall y
      ensures Tuned(k', id, y) && id !in SemOf(k'.sems, y).waiters
    {
      CurWaitsNot(k', y);
      assert Tuned(k, id, y);
      assert y != Last(code).sem ==> SameSem(k, k', y);
    }
  }

  /** The only process, asleep, is followed by n visitors and then woken. */
  lemma Wake(k: KState, id: Id, x: string, n: nat) returns (ls: seq<Label>, k': KState)
    requires Quiet(k) && SemOf(k.sems, x).S == -1 && SemOf(k.sems, x).waiters == [id] && k.q.procs.Keys == {id}
    ensures Leads(k, ls, Running(k')) && Inv(k') && AllCodeLeft(k') && !k'.atTest && k'.q.cur == Some(id)
    ensures id in k'.q.procs && Untouched(k, k')
    ensures forall w | w in k'.q.procs && w != id :: Visiting(k'.q.procs[w], x, 0)
    ensures SemOf(k'.sems, x).S + n == 0
    ensures forall y | y != x :: SameSem(k, k', y)
  {
    hide Inv, AllCodeLeft;
    var a, k1 := Visitors(k, x, n, 0);
    var b;
    b, k' := Helper(k1, SemV(x), x, 0);
    ls := a + b;
    LeadsOn(k, a, k1, b, Running(k'));
    forall y | y != x
      ensures SameSem(k, k', y)
    {
      assert SameSem(k, k1, y) && SameSem(k1, k', y);
    }
  }

  /** Asleep, the program is followed by as many visitors as it will release the semaphore before its next request,
      and is then woken: it has the CPU, and the game starts again further on. */
  lemma Rewake(k: KState, id: Id, code: seq<Instr>, from: nat) returns (ls: seq<Label>, k': KState)
    requires Game(k, id, code, from) && Quiet(k)
    ensures Leads(k, ls, Running(k')) && Inv(k') && !k'.atTest && k'.q.cur == Some(id)
    ensures id in k'.q.procs && SameCode(k.q.procs[id], k'.q.procs[id]) && from < k.q.procs[id].pc
    ensures k.q.procs[id].pc < |code| ==> Game(k', id, code, k.q.procs[id].pc)
  {
    AsleepAlone(k, id, code, from);
    hide Inv, AllCodeLeft, SemOf, Tuned, Leads;
    ls, k' := Wake(k, id, Last(code).sem, Gives(code, k.q.procs[id].pc, Last(code).sem));
    if k.q.procs[id].pc < |code| {
      AwakeInGame(k, k', id, code, from);
    }
  }

  lemma SettledGame(k: KState, id: Id, code: seq<Instr>, from: nat)
    requires Game(k, id, code, from) && Quiet(k.(atTest := false))
    ensures Game(k.(atTest := false), id, code, from)
  {
    hide Inv, AllCodeLeft;
    var k' := k.(atTest := false);
    forall x
      ensures Tuned(k', id, x) && (id in SemOf(k'.sems, x).waiters ==> from < k'.q.procs[id].pc)
    {
      assert Tuned(k, id, x);
    }
  }

  lemma PastTheEnd(k: KState, id: Id, code: seq<Instr>)
    requires Inv(k) && !k.atTest && k.q.cur == Some(id) && id in k.q.procs
    requires k.q.procs[id].code == code && k.q.procs[id].pc == |code|
    ensures Leads(k, [Cpu(true)], Overrun(code))
  {
    ExecuteOverruns(k);
    RunOne(k, Cpu(true));
  }

  /** The game always ends with the program fetched past its end. */
  lemma {:induction false} GameIsLost(k: KState, id: Id, code: seq<Instr>, from: nat) returns (ls: seq<Label>)
    requires Game(k, id, code, from) && from <= |code|
    ensures Leads(k, ls, Overrun(code))
    decreases |code| - from
  {
    hide Inv, AllCodeLeft, Tuned, Stuck, Leads;
    var o;
    ls, o := GameRuns(k, id, code, from);
    if o != Overrun(code) {
      var k1 := o.k;
      var b := Settle(k1);
      var k2 := k1.(atTest := false);
      SettledGame(k1, id, code, from);
      var c, k3 := Rewake(k2, id, code, from);
      var m := k3.q.procs[id].pc;
      var d;
      if m == |code| {
        PastTheEnd(k3, id, code);
        d := [Cpu(true)];
      } else {
        d := GameIsLost(k3, id, code, m);
      }
      LeadsOn(k2, c, k3, d, Overrun(code));
      LeadsOn(k1, b, k2, c + d, Overrun(code));
      LeadsOn(k, ls, k1, b + (c + d), Overrun(code));
      ls := ls + (b + (c + d));
    }
  }

  // ------------------------------------------------------------ from the start

  /** Helpers release every semaphore but that of the last instruction as often as the program requests it. */
  lemma {:induction false} Supply(k: KState, code: seq<Instr>, i: nat) returns (ls: seq<Label>, k': KState)
    requires Quiet(k) && k.q.procs == map[] && code != [] && i <= |code|
    requires forall x :: SemOf(k.sems, x).S >= 1
    ensures Leads(k, ls, Running(k')) && Quiet(k') && k'.q.procs == map[]
    ensures forall x :: SemOf(k'.sems, x).S >= 1
    ensures forall x | Last(code) != SemP(x) :: SemOf(k'.sems, x).S >= Wants(code, i, x)
    ensures forall x | Last(code) == SemP(x) :: SemOf(k'.sems, x).S == SemOf(k.sems, x).S
    decreases |code| - i
  {
    hide Inv, AllCodeLeft;
    if i == |code| {
      ls, k' := [], k;
      NoStep(k);
    } else {
      ls, k' := Supply(k, code, i + 1);
      if code[i].SemP? && code[i] != Last(code) {
        var y, k1 := code[i].sem, k';
        SemOfOk(k1, y);
        var b;
        b, k' := Helper(k1, SemV(y), y, 0);
        LeadsOn(k, ls, k1, b, Running(k'));
        ls := ls + b;
        forall x | x != y
          ensures SemOf(k'.sems, x).S == SemOf(k1.sems, x).S
        {
          assert SameSem(k1, k', x);
        }
      }
    }
  }

  lemma NoStep(k: KState)
    ensures Leads(k, [], Running(k))
  {
  }

  /** A semaphore with value 1 and nobody in the system is brought to 1 less than the requests before its value. */
  lemma Starve(k: KState, x: string, n: nat, keep: int) returns (ls: seq<Label>, k': KState)
    requires Quiet(k) && k.q.procs == map[] && SemOf(k.sems, x).S == 1
    ensures Leads(k, ls, Running(k')) && Quiet(k')
    ensures SemOf(k'.sems, x).S + n == 0
    ensures forall y | y != x :: SameSem(k, k', y)
    ensures forall w | w in k'.q.procs :: Visiting(k'.q.procs[w], x, keep)
  {
    hide Inv, AllCodeLeft;
    var a, k1 := Helper(k, SemP(x), x, keep);
    var b;
    b, k' := Visitors(k1, x, n, keep);
    ls := a + b;
    LeadsOn(k, a, k1, b, Running(k'));
    forall y | y != x
      ensures SameSem(k, k', y)
    {
      assert SameSem(k, k1, y) && SameSem(k1, k', y);
    }
  }

  /** The semaphores are tuned to a program that starts now. */
  ghost predicate Prepared(k: KState, code: seq<Instr>, keep: int)
    requires code != []
  {
    && Quiet(k)
    && (forall x | Last(code) != SemP(x) :: SemOf(k.sems, x).S >= Wants(code, 0, x))
    && (forall x | Last(code) == SemP(x) :: SemOf(k.sems, x).S + Gives(code, 0, x) == 0)
    && (forall w | w in k.q.procs :: Last(code).SemP? && Visiting(k.q.procs[w], Last(code).sem, keep))
  }

  lemma Prepare(code: seq<Instr>, keep: int) returns (ls: seq<Label>, k: KState)
    requires code != []
    ensures Leads(Init(), ls, Running(k)) && Prepared(k, code, keep)
  {
    InvInit();
    hide Inv;
    ls, k := Supply(Init(), code, 0);
    if Last(code).SemP? {
      var x, k1 := Last(code).sem, k;
      var b;
      b, k := Starve(k1, x, Gives(code, 0, x), keep);
      LeadsOn(Init(), ls, k1, b, Running(k));
      ls := ls + b;
      forall y | Last(code) != SemP(y)
        ensures SemOf(k.sems, y).S >= Wants(code, 0, y)
      {
        assert SameSem(k1, k, y);
      }
    }
  }

  lemma CreateAnywhere(k: KState, p: Prog)
    requires Create(Init(), p).Running?
    ensures Create(k, p).Running?
  {
    CreateRuns(Init(), p);
    CreateRuns(k, p);
    forall i | 0 <= i < |p.code|
      ensures Uses(p.code[i], RegisterAll(k.sems, p.sems))
    {
      assert Uses(p.code[i], RegisterAll([], p.sems));
      if p.code[i].SemP? || p.code[i].SemV? {
        RegisterAllHas([], p.sems, p.code[i].sem);
        RegisterAllHas(k.sems, p.sems, p.code[i].sem);
      }
    }
  }

  lemma TunedAtStart(k: KState, k': KState, id: Id, code: seq<Instr>, keep: int, x: string)
    requires code != [] && Prepared(k, code, keep) && id !in k.q.procs && SameSem(k, k', x)
    requires id in k'.q.procs && k'.q.procs[id].code == code && k'.q.procs[id].pc == 0
    ensures Tuned(k', id, x) && id !in SemOf(k'.sems, x).waiters
  {
    SemOfOk(k, x);
  }

  lemma GameStarts(k: KState, p: Prog)
    requires ValidProg(p) && MayBlock(Last(p.code)) && Prepared(k, p.code, p.segId) && Create(k, p).Running?
    ensures Allowed(k, Spawn(p)) && Next(k, Spawn(p)) == Create(k, p)
    ensures Game(Create(k, p).k, k.nextId, p.code, 0)
  {
    hide Inv, AllCodeLeft, Create, SemOf, Tuned;
    Spawned(k, p);
    CreatedSems(k, p);
    var k', id := Create(k, p).k, k.nextId;
    forall x
      ensures Tuned(k', id, x) && id !in SemOf(k'.sems, x).waiters
    {
      TunedAtStart(k, k', id, p.code, p.segId, x);
    }
  }

  /** Every program whose last instruction may take it off the CPU is fetched past its end in some run of some mix. */
  lemma SomeRunOverruns(p: Prog) returns (ls: seq<Label>)
    requires ValidProg(p) && Create(Init(), p).Running? && MayBlock(Last(p.code))
    ensures AllAllowed(Init(), ls) && RunFrom(Init(), ls) == Overrun(p.code)
  {
    var a, k := Prepare(p.code, p.segId);
    CreateAnywhere(k, p);
    hide Inv, Create, Next;
    GameStarts(k, p);
    var k' := Next(k, Spawn(p)).k;
    RunOne(k, Spawn(p));
    var b := GameIsLost(k', k.nextId, p.code, 0);
    LeadsOn(k, [Spawn(p)], k', b, Overrun(p.code));
    LeadsOn(Init(), a, k, [Spawn(p)] + b, Overrun(p.code));
    ls := a + ([Spawn(p)] + b);
  }

  /** Exactly which programs the CPU can fetch past their end, in some run of some mix of programs: those whose last
      instruction is a read, a write, a print or a request. */
  lemma OverrunExactly(p: Prog)
    requires ValidProg(p) && Create(Init(), p).Running?
    ensures (exists ls :: AllAllowed(Init(), ls) && RunFrom(Init(), ls) == Overrun(p.code))
            <==> MayBlock(p.code[|p.code| - 1])
  {
    if MayBlock(Last(p.code)) {
      var ls := SomeRunOverruns(p);
    } else {
      forall ls | AllAllowed(Init(), ls)
        ensures RunFrom(Init(), ls) != Overrun(p.code)
      {
        NoOverrun(ls);
      }
    }
  }
}
