/** What whole runs look like from one semaphore, from one process waiting for the disk, and from the memory account. */
module Histories {
  import opened Program
  import opened KernelState
  import opened Partition
  import opened Placement
  import opened Budget
  import opened Semaphores
  import opened SegmentFacts
  import opened Runs
  import opened Steps
  import opened Termination

  // ------------------------------------------------------------ one semaphore

  /** The semaphore of that name; as it will be registered, if it is not yet. */
  function SemOf(sems: seq<Sem>, s: string): Sem {
    if Registered(sems, s) then sems[SemIndex(sems, s)] else Sem(s, 1, [])
  }

  predicate Does(k: KState, l: Label, instr: Instr) {
    Executes(k, l) && CanFetch(k) && Current(k) == instr
  }

  /** The process that this step puts to sleep on s: it requests s and is blocked afterwards. */
  function Slept(k: KState, l: Label, s: string): seq<Id>
    requires Next(k, l).Running?
  {
    if Does(k, l, SemP(s)) && k.q.cur.value in Next(k, l).k.q.blocked then [k.q.cur.value] else []
  }

  /** The processes that this step's release of s adds to the high queue. */
  function Woken(k: KState, l: Label, s: string): seq<Id>
    requires Next(k, l).Running?
  {
    if Does(k, l, SemV(s)) && |k.q.high| <= |Next(k, l).k.q.high| then Next(k, l).k.q.high[|k.q.high|..] else []
  }

  function DoneDelta(k: KState, l: Label, s: string): int {
    if Does(k, l, SemP(s)) then 1 else if Does(k, l, SemV(s)) then -1 else 0
  }

  lemma RegisteredKept(sems: seq<Sem>, names: seq<string>, s: string)
    requires SemsOk(sems)
    ensures SemOf(RegisterAll(sems, names), s).S == SemOf(sems, s).S
    ensures SemOf(RegisterAll(sems, names), s).waiters == SemOf(sems, s).waiters
  {
    var r := RegisterAll(sems, names);
    RegisterAllOk(sems, names);
    if Registered(sems, s) {
      SemIndexKept(sems, r, s);
    } else if Registered(r, s) {
      assert SemIndex(r, s) >= |sems|;
    }
  }

  lemma ExecuteSemOf(k: KState, l: Label, s: string)
    requires Inv(k) && Executes(k, l) && Next(k, l).Running?
    ensures var sem, sem' := SemOf(k.sems, s), SemOf(Next(k, l).k.sems, s);
            && sem'.S == sem.S - DoneDelta(k, l, s)
            && sem'.waiters == (if Does(k, l, SemP(s)) && sem.S <= 0 then sem.waiters + [k.q.cur.value]
                                else if Does(k, l, SemV(s)) && sem.S < 0 && sem.waiters != [] then sem.waiters[1..]
                                else sem.waiters)
  {
    InvLinked(k);
    StepSems(k, l);
    assert ProcOk(k.q.procs[k.q.cur.value], k.sems);
    assert Uses(Current(k), k.sems);
    AlwaysAnswerable(k, Current(k));
    SemsAfterOk(k.sems, Current(k), k.q.cur.value);
    NamesFixIndex(k.sems, Next(k, l).k.sems, s);
  }

  lemma {:induction false} NamesFixIndex(sems: seq<Sem>, sems': seq<Sem>, s: string)
    requires SameNames(sems, sems') && |sems| == |sems'|
    ensures SemIndex(sems', s) == SemIndex(sems, s)
  {
    if sems != [] && sems[0].name != s {
      assert SameNames(sems[1..], sems'[1..]);
      NamesFixIndex(sems[1..], sems'[1..], s);
    }
  }

  /** A request blocks its process exactly when the semaphore has no value left. */
  lemma WhoSleeps(k: KState, l: Label, s: string)
    requires Inv(k) && Next(k, l).Running? && Does(k, l, SemP(s))
    ensures k.q.cur.value in Next(k, l).k.q.blocked <==> SemOf(k.sems, s).S <= 0
  {
    InvLinked(k);
    FetchReady(k);
    ExecuteIs(k);
    CurIsNowhereElse(k);
    SchedulePlaces(Fetch(k).q, SEMAPHORE_BLOCKED, 0);
  }

  /** A request costs its process 200, never below zero, exactly when it does not put the process to sleep. */
  lemma RequestPays(k: KState, l: Label, s: string)
    requires Inv(k) && Next(k, l).Running? && Does(k, l, SemP(s))
    ensures var id, k' := k.q.cur.value, Next(k, l).k;
            && id in k.q.procs && id in k'.q.procs
            && k'.q.procs[id].remaining == if id in k'.q.blocked then k.q.procs[id].remaining
                                           else Max(0, k.q.procs[id].remaining - 200)
  {
    InvLinked(k);
    WhoSleeps(k, l, s);
    FetchReady(k);
    ExecuteIs(k);
    PRequestBudget(Fetch(k), SemIndex(k.sems, s));
  }

  /** A release wakes the first waiter exactly when somebody waits. */
  lemma WhoWakes(k: KState, l: Label, s: string)
    requires Inv(k) && Next(k, l).Running? && Does(k, l, SemV(s))
    ensures var sem := SemOf(k.sems, s);
            && (sem.S < 0 ==> sem.waiters != [] && Next(k, l).k.q.high == k.q.high + [sem.waiters[0]])
            && (sem.S >= 0 ==> Next(k, l).k.q.high == k.q.high)
  {
    InvLinked(k);
    FetchReady(k);
    ExecuteIs(k);
    var i := SemIndex(k.sems, s);
    assert SemOk(k.sems[i]);
    if k.sems[i].S < 0 {
      var head := k.sems[i].waiters[0];
      assert PartitionedAt(k, head);
      OccursIn(k.sems[i].waiters, head);
      WaitsAtLeast(k.sems, i, head);
      OccursIn(k.q.blocked, head);
    }
  }

  ghost predicate Continues(k: KState, l: Label, s: string)
    requires Next(k, l).Running?
  {
    var sem, sem' := SemOf(k.sems, s), SemOf(Next(k, l).k.sems, s);
    sem.waiters + Slept(k, l, s) == Woken(k, l, s) + sem'.waiters && sem'.S == sem.S - DoneDelta(k, l, s)
  }

  lemma RequestContinues(k: KState, l: Label, s: string)
    requires Inv(k) && Next(k, l).Running? && Does(k, l, SemP(s))
    ensures Continues(k, l, s)
  {
    ExecuteSemOf(k, l, s);
    WhoSleeps(k, l, s);
    var waiters := SemOf(k.sems, s).waiters;
    assert waiters + [] == [] + waiters;
    assert waiters + [k.q.cur.value] == [] + (waiters + [k.q.cur.value]);
    hide Inv, Next, SemOf, Executes, CanFetch, Current;
  }

  lemma ReleaseContinues(k: KState, l: Label, s: string)
    requires Inv(k) && Next(k, l).Running? && Does(k, l, SemV(s))
    ensures Continues(k, l, s)
  {
    hide Inv, Next, SemOf, Executes, CanFetch, Current;
    ExecuteSemOf(k, l, s);
    WhoWakes(k, l, s);
    var waiters := SemOf(k.sems, s).waiters;
    assert waiters + [] == [] + waiters;
    if waiters != [] {
      assert waiters == [waiters[0]] + waiters[1..];
    }
  }

  /** One step: sleepers join at the back, the woken leave from the front, and the value counts. */
  lemma StepHistory(k: KState, l: Label, s: string)
    requires Inv(k) && Allowed(k, l) && Next(k, l).Running?
    ensures Continues(k, l, s)
  {
    if Does(k, l, SemP(s)) {
      RequestContinues(k, l, s);
    } else if Does(k, l, SemV(s)) {
      ReleaseContinues(k, l, s);
    } else {
      StepSems(k, l);
      if Executes(k, l) {
        ExecuteSemOf(k, l, s);
      } else if l.Spawn? {
        RegisteredKept(k.sems, l.prog.sems, s);
      }
      assert SemOf(k.sems, s).waiters + [] == [] + SemOf(k.sems, s).waiters;
    }
  }

  function AllSlept(k: KState, ls: seq<Label>, s: string): seq<Id>
    requires RunFrom(k, ls).Running?
    decreases |ls|
  {
    if ls == [] then [] else Slept(k, ls[0], s) + AllSlept(Next(k, ls[0]).k, ls[1..], s)
  }

  function AllWoken(k: KState, ls: seq<Label>, s: string): seq<Id>
    requires RunFrom(k, ls).Running?
    decreases |ls|
  {
    if ls == [] then [] else Woken(k, ls[0], s) + AllWoken(Next(k, ls[0]).k, ls[1..], s)
  }

  /** Requests minus releases executed along a run. */
  function Executed(k: KState, ls: seq<Label>, s: string): int
    requires RunFrom(k, ls).Running?
    decreases |ls|
  {
    if ls == [] then 0 else DoneDelta(k, ls[0], s) + Executed(Next(k, ls[0]).k, ls[1..], s)
  }

  lemma {:induction false} RunHistory(k: KState, ls: seq<Label>, s: string)
    requires Inv(k) && AllAllowed(k, ls) && RunFrom(k, ls).Running?
    ensures var sem, sem' := SemOf(k.sems, s), SemOf(RunFrom(k, ls).k.sems, s);
            && sem.waiters + AllSlept(k, ls, s) == AllWoken(k, ls, s) + sem'.waiters
            && sem'.S == sem.S - Executed(k, ls, s)
    decreases |ls|
  {
    var waiters := SemOf(k.sems, s).waiters;
    if ls == [] {
      assert waiters + [] == [] + waiters;
    } else {
      var k1 := Next(k, ls[0]).k;
      NextInv(k, ls[0]);
      StepHistory(k, ls[0], s);
      RunHistory(k1, ls[1..], s);
      Reassociate(waiters, Slept(k, ls[0], s), AllSlept(k1, ls[1..], s), Woken(k, ls[0], s), SemOf(k1.sems, s).waiters,
                  AllWoken(k1, ls[1..], s), SemOf(RunFrom(k1, ls[1..]).k.sems, s).waiters);
    }
  }

  lemma Reassociate(w: seq<Id>, a: seq<Id>, b: seq<Id>, c: seq<Id>, w1: seq<Id>, d: seq<Id>, w2: seq<Id>)
    requires w + a == c + w1 && w1 + b == d + w2
    ensures w + (a + b) == (c + d) + w2
  {
    assert w + (a + b) == (w + a) + b;
    assert (c + w1) + b == c + (w1 + b);
    assert c + (d + w2) == (c + d) + w2;
  }

  /** The whole history of a semaphore in any run: its value is one less the requests plus the releases, as many
      processes wait as the value is below zero, and those that slept, in their order, are those that were woken, in
      theirs, followed by those that wait. */
  lemma SemaphoreHistory(ls: seq<Label>, s: string)
    requires AllAllowed(Init(), ls) && RunFrom(Init(), ls).Running?
    ensures var sem := SemOf(RunFrom(Init(), ls).k.sems, s);
            && sem.S == 1 - Executed(Init(), ls, s)
            && |sem.waiters| == Max(0, -sem.S)
            && AllSlept(Init(), ls, s) == AllWoken(Init(), ls, s) + sem.waiters
  {
    InvInit();
    RunHistory(Init(), ls, s);
    RunInv(Init(), ls);
    assert [] + AllSlept(Init(), ls, s) == AllSlept(Init(), ls, s);
    assert SemInv(RunFrom(Init(), ls).k);
  }

  // ------------------------------------------------------------ one process and the disk

  /** The process waits for the disk, or has come back from it to the low queue and not been dispatched since. */
  ghost predicate Owes(k: KState, id: Id) {
    && id in k.q.procs && k.q.cur != Some(id) && id !in k.q.high && k.q.procs[id].remaining <= -3000
    && ((exists r :: r in k.disk.pending && r.proc == id) || id in k.q.low)
  }

  /** The process has just been dispatched with nothing on its budget. */
  predicate DispatchedEmpty(k: KState, id: Id) {
    id in k.q.procs && k.q.cur == Some(id) && k.q.procs[id].remaining == 0
  }

  lemma PendingOwes(k: KState, r: Request)
    requires Inv(k) && r in k.disk.pending
    ensures Owes(k, r.proc)
  {
    InvLinked(k);
    assert PartitionedAt(k, r.proc);
    RequestsIn(k.disk.pending, r.proc);
    OccursIn(k.q.high, r.proc);
  }

  lemma ScheduleOwes(k: KState, flag: Flag, id: Id)
    requires Inv(k) && Owes(k, id)
    ensures var k' := k.(q := Schedule(k.q, flag)); Owes(k', id) || DispatchedEmpty(k', id)
  {
    InvLinked(k);
    ScheduleEffect(k, flag, id);
    SchedulePlaces(k.q, flag, id);
    assert PartitionedAt(k, id);
  }

  /** k' differs from k, as far as this process is concerned, in nothing that matters to Owes. */
  predicate SameFor(k: KState, k': KState, id: Id) {
    && id in k.q.procs && id in k'.q.procs && k'.q.procs[id].remaining == k.q.procs[id].remaining
    && k'.q.cur == k.q.cur && (id in k'.q.high ==> id in k.q.high) && (id in k.q.low ==> id in k'.q.low)
    && forall r | r in k.disk.pending :: r in k'.disk.pending
  }

  lemma SameForOwes(k: KState, k': KState, id: Id)
    requires SameFor(k, k', id)
    ensures Owes(k, id) ==> Owes(k', id)
    ensures DispatchedEmpty(k, id) ==> DispatchedEmpty(k', id)
  {
    if Owes(k, id) && exists r :: r in k.disk.pending && r.proc == id {
      var r :| r in k.disk.pending && r.proc == id;
      assert r in k'.disk.pending;
    }
  }

  /** The waiter that a release wakes does not wait for the disk. */
  lemma WokenOwesNot(k: KState, i: nat, id: Id)
    requires Inv(k) && Owes(k, id) && i < |k.sems|
    ensures id !in k.sems[i].waiters
  {
    assert PartitionedAt(k, id);
    OccursIn(k.q.low, id);
    OccursIn(k.sems[i].waiters, id);
    WaitsAtLeast(k.sems, i, id);
    RequestsIn(k.disk.pending, id);
  }

  lemma EvalOwes(k: KState, instr: Instr, id: Id)
    requires Inv(k) && Linked(k) && k.q.cur.Some? && Answerable(k, instr) && Owes(k, id)
    ensures Owes(Eval(k, instr), id) || DispatchedEmpty(Eval(k, instr), id)
  {
    hide Inv, Schedule;
    var k' := Eval(k, instr);
    match instr
    case Exec(_) => SameForOwes(k, k', id);
    case SemV(s) =>
      WokenOwesNot(k, SemIndex(k.sems, s), id);
      SameForOwes(k, k', id);
    case SemP(s) =>
      ScheduleOwes(k, SEMAPHORE_BLOCKED, id);
      if k.sems[SemIndex(k.sems, s)].S > 0 {
        SameForOwes(k, k', id);
      } else {
        SameForOwes(k.(q := Schedule(k.q, SEMAPHORE_BLOCKED)), k', id);
      }
    case _ =>
      ScheduleOwes(k, IO_REQUESTED, id);
      SameForOwes(k.(q := Schedule(k.q, IO_REQUESTED)), k', id);
  }

  lemma {:induction false} ServedHas(pending: seq<Request>, r: Request, track: int)
    requires r in pending && r.track == track
    ensures r.proc in Served(pending, track)
  {
    if pending[0] != r {
      ServedHas(pending[1..], r, track);
    }
  }

  lemma TickOwes(k: KState, id: Id)
    requires Inv(k) && Owes(k, id)
    ensures Owes(DiskTick(k), id)
  {
    TickServes(k);
    if id !in k.q.low {
      var r :| r in k.disk.pending && r.proc == id;
      NotOnSubset(k.disk.pending, k.disk.arm.track, r);
      if r.track == k.disk.arm.track {
        ServedHas(k.disk.pending, r, k.disk.arm.track);
      }
    }
  }

  lemma ExecuteOwes(k: KState, id: Id)
    requires Inv(k) && CanFetch(k) && Linked(k) && ExecuteOne(k).Running? && Owes(k, id)
    ensures Owes(ExecuteOne(k).k, id) || DispatchedEmpty(ExecuteOne(k).k, id)
  {
    FetchReady(k);
    ExecuteIs(k);
    SameForOwes(k, Fetch(k), id);
    EvalOwes(Fetch(k), Current(k), id);
    SameForOwesBack(Eval(Fetch(k), Current(k)), id, true);
  }

  lemma SameForOwesBack(k: KState, id: Id, b: bool)
    ensures Owes(k, id) ==> Owes(k.(atTest := b), id)
    ensures DispatchedEmpty(k, id) ==> DispatchedEmpty(k.(atTest := b), id)
  {
    if Owes(k, id) {
      SameForOwes(k, k.(atTest := b), id);
    }
  }

  lemma FinishOwes(k: KState, id: Id)
    requires Inv(k) && k.q.cur.Some? && Linked(k) && Finish(k).Running? && Owes(k, id)
    ensures Owes(Finish(k).k, id) || DispatchedEmpty(Finish(k).k, id)
  {
    FinishRuns(k);
    ScheduleOwes(k, NONE, id);
    SameForOwes(k.(q := Schedule(k.q, NONE)), Finish(k).k, id);
  }

  lemma TestOwes(k: KState, gate: bool, id: Id)
    requires Inv(k) && k.atTest && Linked(k) && CpuStep(k, gate).Running? && Owes(k, id)
    ensures Owes(CpuStep(k, gate).k, id) || DispatchedEmpty(CpuStep(k, gate).k, id)
  {
    hide Inv, Linked, Schedule;
    ControlInv(k, false);
    SameForOwesBack(k, id, false);
    var back := k.(atTest := false);
    if k.q.cur.Some? {
      FinishInv(back);
      FinishOwes(back, id);
      ScheduleOwes(back, QUANTUM_COMPLETED, id);
    }
  }

  lemma StepOwes(k: KState, l: Label, id: Id)
    requires Inv(k) && Allowed(k, l) && Next(k, l).Running? && Owes(k, id)
    ensures Owes(Next(k, l).k, id) || DispatchedEmpty(Next(k, l).k, id)
  {
    InvLinked(k);
    match l
    case Tick => TickOwes(k, id);
    case Spawn(p) => SameForOwes(k, Next(k, l).k, id);
    case Cpu(gate) =>
      CpuStepInv(k, gate);
      if k.atTest {
        TestOwes(k, gate, id);
      } else if k.q.cur.None? {
        ScheduleOwes(k, NONE, id);
      } else if gate {
        ExecuteOwes(k, id);
      } else {
        SameForOwesBack(k, id, true);
      }
  }

  /** Along the run the process is not dispatched, until it is dispatched with nothing on its budget. */
  ghost predicate OwesUntilEmpty(k: KState, ls: seq<Label>, id: Id)
    decreases |ls|
  {
    && Owes(k, id)
    && (ls != [] && Next(k, ls[0]).Running? ==>
          DispatchedEmpty(Next(k, ls[0]).k, id) || OwesUntilEmpty(Next(k, ls[0]).k, ls[1..], id))
  }

  /** However long it takes, and whatever else happens, the next time the CPU gets a process that was waiting for the
      disk it gets it with a budget of exactly zero. */
  lemma {:induction false} BackFromDisk(k: KState, ls: seq<Label>, id: Id)
    requires Inv(k) && AllAllowed(k, ls) && Owes(k, id)
    ensures OwesUntilEmpty(k, ls, id)
    decreases |ls|
  {
    if ls != [] && Next(k, ls[0]).Running? {
      NextInv(k, ls[0]);
      StepOwes(k, ls[0], id);
      if Owes(Next(k, ls[0]).k, id) {
        BackFromDisk(Next(k, ls[0]).k, ls[1..], id);
      }
    }
  }

  // ------------------------------------------------------------ the memory account

  /** No creation along the run asks for more than is free at its time. */
  ghost predicate NoSwap(k: KState, ls: seq<Label>)
    decreases |ls|
  {
    ls != [] ==>
      && (ls[0].Spawn? ==> ls[0].prog.segSize * 1024 <= k.segs.remaining)
      && (Next(k, ls[0]).Running? ==> NoSwap(Next(k, ls[0]).k, ls[1..]))
  }

  lemma StepExact(k: KState, l: Label)
    requires Inv(k) && Allowed(k, l) && Next(k, l).Running? && Exact(k.segs)
    requires l.Spawn? ==> l.prog.segSize * 1024 <= k.segs.remaining
    ensures Exact(Next(k, l).k.segs)
  {
    InvLinked(k);
    match l
    case Tick =>
    case Spawn(p) => LoadAccounted(k.segs, NewSeg(p.segId, p.segSize, p.code));
    case Cpu(gate) =>
      CpuStepInv(k, gate);
      if Executes(k, l) {
        FetchReady(k);
        ExecuteIs(k);
        EvalFilesOk(Fetch(k), Current(k));
        TouchKeeps(k.segs.list, SegIndex(k.segs.list, k.q.procs[k.q.cur.value].segId), k.q.procs[k.q.cur.value].pc);
      } else if Finishes(k, l) {
        ControlInv(k, false);
        FinishInv(k.(atTest := false));
        FreeAccounted(k.segs, k.q.procs[k.q.cur.value].segId);
      }
  }

  /** Until the first page swap, what is free and what the live segments hold add up to the memory. */
  lemma {:induction false} ExactUntilSwap(k: KState, ls: seq<Label>)
    requires Inv(k) && Exact(k.segs) && AllAllowed(k, ls) && NoSwap(k, ls) && RunFrom(k, ls).Running?
    ensures Exact(RunFrom(k, ls).k.segs)
    decreases |ls|
  {
    if ls != [] {
      NextInv(k, ls[0]);
      StepExact(k, ls[0]);
      ExactUntilSwap(Next(k, ls[0]).k, ls[1..]);
    }
  }
}
