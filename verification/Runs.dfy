/** Runs of the whole system, and the invariant that every reachable state satisfies. */
module Runs {
  import opened Program
  import opened KernelState
  import opened Partition
  import opened Placement
  import opened Budget
  import opened Semaphores
  import opened FileCounts
  import opened SegmentFacts

  /** The atomic steps, in any order: one CPU step (with its clock gate open or not), one disk turn, one creation. */
  datatype Label = Cpu(gate: bool) | Tick | Spawn(prog: Prog)

  function Next(k: KState, l: Label): Outcome {
    if !Linked(k) then Fault
    else
      match l
      case Cpu(gate) => CpuStep(k, gate)
      case Tick => Running(DiskTick(k))
      case Spawn(p) => Create(k, p)
  }

  function RunFrom(k: KState, ls: seq<Label>): Outcome
    decreases |ls|
  {
    if ls == [] then Running(k)
    else
      match Next(k, ls[0])
      case Running(k') => RunFrom(k', ls[1..])
      case o => o
  }

  /** The standing hypotheses: programs are valid, and a segment id is not in use by another live process. */
  ghost predicate Allowed(k: KState, l: Label) {
    l.Spawn? ==> ValidProg(l.prog) && forall id | id in k.q.procs :: k.q.procs[id].segId != l.prog.segId
  }

  ghost predicate AllAllowed(k: KState, ls: seq<Label>)
    decreases |ls|
  {
    ls != [] ==> Allowed(k, ls[0]) && (Next(k, ls[0]).Running? ==> AllAllowed(Next(k, ls[0]).k, ls[1..]))
  }

  ghost predicate Inv(k: KState) {
    && Partitioned(k)
    && Budgeted(k)
    && SemInv(k)
    && FilesOk(k.files) && k.files.open.Keys == k.q.procs.Keys
    && Matched(k.q.procs, k.segs.list) && Accounted(k.segs)
  }

  lemma InvInit()
    ensures Inv(Init())
  {
    forall x
      ensures PartitionedAt(Init(), x)
    {
    }
  }

  lemma InvLinked(k: KState)
    requires Inv(k)
    ensures Linked(k)
  {
    PartitionLinks(k);
  }

  // ------------------------------------------------------------ scheduling

  lemma ScheduleInv(k: KState, flag: Flag)
    requires Inv(k) && (flag == QUANTUM_COMPLETED || k.q.cur.None?)
    ensures Inv(k.(q := Schedule(k.q, flag)))
  {
    var k' := k.(q := Schedule(k.q, flag));
    InvLinked(k);
    forall x
      ensures PartitionedAt(k', x)
    {
      assert PartitionedAt(k, x);
      SchedulePart(k, flag, x);
    }
    ScheduleBudget(k, flag);
    SchedulePlaces(k.q, flag, 0);
    forall id | id in k.q.procs
      ensures id in k'.q.procs && SameCode(k.q.procs[id], k'.q.procs[id])
    {
      ScheduleCode(k.q, flag, id);
    }
    SemInvFrame(k, k');
    MatchedKept(k.q.procs, k.segs.list, k'.q.procs, k'.segs.list);
  }

  lemma ControlInv(k: KState, b: bool)
    requires Inv(k)
    ensures Inv(k.(atTest := b))
  {
    var k' := k.(atTest := b);
    forall x
      ensures PartitionedAt(k', x)
    {
      assert PartitionedAt(k, x);
    }
    SemInvFrame(k, k');
  }

  // ------------------------------------------------------------ executing

  predicate CanFetch(k: KState) {
    && k.q.cur.Some? && k.q.cur.value in k.q.procs
    && var p := k.q.procs[k.q.cur.value]; p.pc < |p.code|
  }

  /** The instruction that the process on the CPU stands at. */
  function Current(k: KState): Instr
    requires k.q.cur.Some? && k.q.cur.value in k.q.procs
    requires k.q.procs[k.q.cur.value].pc < |k.q.procs[k.q.cur.value].code|
  {
    k.q.procs[k.q.cur.value].code[k.q.procs[k.q.cur.value].pc]
  }

  lemma PageInRange(pc: nat, n: nat)
    requires pc < n
    ensures pc / INSTRUCTIONS_PER_PAGE < PageCount(n)
  {
  }

  /** For every live process with code left, a fetch would find the segment, the page and the loaded program. */
  lemma FetchFinds(k: KState, id: Id)
    requires Inv(k) && id in k.q.procs && k.q.procs[id].pc < |k.q.procs[id].code|
    ensures var p := k.q.procs[id];
            var i := SegIndex(k.segs.list, p.segId);
            && i < |k.segs.list| && k.segs.list[i].code == p.code
            && p.pc / INSTRUCTIONS_PER_PAGE < |k.segs.list[i].used|
  {
    var p := k.q.procs[id];
    HoldsAt(k.q.procs, k.segs.list, id);
    PageInRange(p.pc, |p.code|);
  }

  lemma TouchKeeps(list: seq<Seg>, i: nat, pc: nat)
    requires i < |list| && pc / INSTRUCTIONS_PER_PAGE < |list[i].used|
    ensures SameButUsedAll(list, Touch(list, i, pc)) && TotalSize(Touch(list, i, pc)) == TotalSize(list)
  {
    TotalSizeSame(list, Touch(list, i, pc));
  }

  lemma AdvanceInv(k: KState)
    requires Inv(k) && CanFetch(k)
    ensures Inv(k.(q := Advance(k.q, k.q.cur.value)))
  {
    hide FilesOk, Accounted, Matched;
    var k' := k.(q := Advance(k.q, k.q.cur.value));
    forall x
      ensures PartitionedAt(k', x)
    {
      assert PartitionedAt(k, x);
    }
    CurIsNowhereElse(k);
    SemInvFrame(k, k');
    MatchedKept(k.q.procs, k.segs.list, k'.q.procs, k'.segs.list);
  }

  lemma UsedBitsInv(k: KState, list: seq<Seg>)
    requires Inv(k) && SameButUsedAll(k.segs.list, list)
    ensures Inv(k.(segs := k.segs.(list := list)))
  {
    var k' := k.(segs := k.segs.(list := list));
    forall x
      ensures PartitionedAt(k', x)
    {
      assert PartitionedAt(k, x);
    }
    SemInvFrame(k, k');
    MatchedKept(k.q.procs, k.segs.list, k.q.procs, list);
    TotalSizeSame(k.segs.list, list);
  }

  lemma FetchedInv(k: KState, i: nat)
    requires Inv(k) && CanFetch(k)
    requires i < |k.segs.list| && k.q.procs[k.q.cur.value].pc / INSTRUCTIONS_PER_PAGE < |k.segs.list[i].used|
    ensures Inv(Fetched(k, i))
  {
    AdvanceInv(k);
    var pc := k.q.procs[k.q.cur.value].pc;
    TouchKeeps(k.segs.list, i, pc);
    UsedBitsInv(k.(q := Advance(k.q, k.q.cur.value)), Touch(k.segs.list, i, pc));
  }

  lemma EvalFilesOk(k: KState, instr: Instr)
    requires Linked(k) && k.q.cur.Some? && Answerable(k, instr) && FilesOk(k.files)
    ensures var k' := Eval(k, instr);
            FilesOk(k'.files) && k'.files.open.Keys == k.files.open.Keys && k'.segs == k.segs
  {
    if instr.Read? || instr.Write? {
      AccessOk(k.files, k.q.cur.value, InodeNumber(instr.track));
    }
  }

  lemma EvalInv(k: KState, instr: Instr)
    requires Inv(k) && k.q.cur.Some? && Linked(k) && Answerable(k, instr) && ValidInstr(instr) && Uses(instr, k.sems)
    requires JustFetched(k.q.procs[k.q.cur.value], instr)
    ensures Inv(Eval(k, instr))
  {
    var k' := Eval(k, instr);
    forall x
      ensures PartitionedAt(k', x)
    {
      EvalPart(k, instr, x);
    }
    EvalBudget(k, instr);
    EvalSemInv(k, instr);
    EvalFilesOk(k, instr);
    EvalCode(k, instr, k.q.cur.value);
    forall id | id in k.q.procs
      ensures SameCode(k.q.procs[id], k'.q.procs[id])
    {
      EvalCode(k, instr, id);
    }
    MatchedKept(k.q.procs, k.segs.list, k'.q.procs, k'.segs.list);
  }

  /** The state after the fetch of the process on the CPU. */
  function Fetch(k: KState): KState
    requires CanFetch(k)
    requires var p := k.q.procs[k.q.cur.value];
             var i := SegIndex(k.segs.list, p.segId);
             i < |k.segs.list| && p.pc / INSTRUCTIONS_PER_PAGE < |k.segs.list[i].used|
  {
    Fetched(k, SegIndex(k.segs.list, k.q.procs[k.q.cur.value].segId))
  }

  lemma FetchReady(k: KState)
    requires Inv(k) && CanFetch(k)
    ensures Fetch.requires(k) && Inv(Fetch(k)) && Linked(Fetch(k))
    ensures ValidInstr(Current(k)) && Uses(Current(k), k.sems) && Answerable(Fetch(k), Current(k))
    ensures JustFetched(Fetch(k).q.procs[k.q.cur.value], Current(k))
  {
    FetchFinds(k, k.q.cur.value);
    var p := k.q.procs[k.q.cur.value];
    FetchedInv(k, SegIndex(k.segs.list, p.segId));
    InvLinked(Fetch(k));
    assert ProcOk(p, k.sems);
    AlwaysAnswerable(Fetch(k), Current(k));
  }

  /** Within its code, the process on the CPU executes the instruction its program has there. */
  lemma ExecuteIs(k: KState)
    requires Inv(k) && CanFetch(k) && Linked(k)
    requires Fetch.requires(k) && Linked(Fetch(k)) && Answerable(Fetch(k), Current(k))
    ensures ExecuteOne(k) == Running(Eval(Fetch(k), Current(k)).(atTest := true))
  {
    FetchFinds(k, k.q.cur.value);
  }

  lemma ExecuteOneInv(k: KState)
    requires Inv(k) && CanFetch(k)
    ensures Linked(k) && ExecuteOne(k).Running? && Inv(ExecuteOne(k).k)
  {
    InvLinked(k);
    FetchReady(k);
    ExecuteIs(k);
    EvalInv(Fetch(k), Current(k));
    ControlInv(Eval(Fetch(k), Current(k)), true);
  }

  /** Past its code, the process on the CPU fetches what is not there. */
  lemma ExecuteOverruns(k: KState)
    requires Inv(k) && k.q.cur.Some? && !CanFetch(k)
    ensures Linked(k) && ExecuteOne(k) == Overrun(k.q.procs[k.q.cur.value].code)
  {
    InvLinked(k);
    HoldsAt(k.q.procs, k.segs.list, k.q.cur.value);
  }

  // ------------------------------------------------------------ finishing, serving, creating

  lemma FinishRuns(k: KState)
    requires Inv(k) && k.q.cur.Some?
    ensures Linked(k) && Finish(k).Running?
    ensures var id, k' := k.q.cur.value, Finish(k).k;
            && k'.q == Schedule(k.q, NONE).(procs := Schedule(k.q, NONE).procs - {id})
            && k'.table == Remove(k.table, id)
            && k'.sems == k.sems && k'.disk == k.disk && k'.nextId == k.nextId && k'.atTest == k.atTest
            && k'.files == Files(CloseAll(k.files.inodes, k.files.open[id]), k.files.open - {id})
  {
    InvLinked(k);
    HoldsAt(k.q.procs, k.segs.list, k.q.cur.value);
    PurgeNothing(k);
  }

  lemma FinishSems(k: KState)
    requires Inv(k) && k.q.cur.Some? && Linked(k) && Finish(k).Running?
    ensures SemInv(Finish(k).k)
  {
    var k' := Finish(k).k;
    FinishRuns(k);
    CurIsNowhereElse(k);
    SchedulePlaces(k.q, NONE, 0);
    forall id | id in k.q.procs
      ensures id in Schedule(k.q, NONE).procs && SameCode(k.q.procs[id], Schedule(k.q, NONE).procs[id])
    {
      ScheduleCode(k.q, NONE, id);
    }
    assert ProcsOk(k);
    forall id | id in k'.q.procs
      ensures k'.q.procs[id].pc <= |k.q.procs[id].code|
    {
      assert ProcOk(k.q.procs[id], k.sems);
    }
    SemInvFrame(k, k');
  }

  lemma FinishSegs(k: KState)
    requires Inv(k) && k.q.cur.Some? && Linked(k) && Finish(k).Running?
    ensures Matched(Finish(k).k.q.procs, Finish(k).k.segs.list) && Accounted(Finish(k).k.segs)
  {
    var k', id := Finish(k).k, k.q.cur.value;
    FinishRuns(k);
    MatchedFree(k.q.procs, k.segs.list, id);
    FreeAccounted(k.segs, k.q.procs[id].segId);
    SchedulePlaces(k.q, NONE, 0);
    forall x | x in k.q.procs
      ensures SameCode(k.q.procs[x], Schedule(k.q, NONE).procs[x])
    {
      ScheduleCode(k.q, NONE, x);
    }
    MatchedKept(k.q.procs - {id}, k'.segs.list, k'.q.procs, k'.segs.list);
  }

  lemma FinishInv(k: KState)
    requires Inv(k) && k.q.cur.Some?
    ensures Linked(k) && Finish(k).Running? && Inv(Finish(k).k) && k.q.cur.value !in Finish(k).k.q.procs
  {
    FinishRuns(k);
    var k' := Finish(k).k;
    forall x
      ensures PartitionedAt(k', x)
    {
      FinishPart(k, x);
    }
    FinishBudget(k);
    FinishSems(k);
    FinishSegs(k);
    CloseAllOk(k.files, k.q.cur.value);
    SchedulePlaces(k.q, NONE, 0);
  }

  lemma TickInv(k: KState)
    requires Inv(k)
    ensures Inv(DiskTick(k))
  {
    var k' := DiskTick(k);
    forall x
      ensures PartitionedAt(k', x)
    {
      TickPart(k, x);
    }
    TickBudget(k);
    UnblockAllKnown(k.q, Served(k.disk.pending, k.disk.arm.track));
    forall id | id in k.q.procs
      ensures ProcOk(k.q.procs[id], k.sems)
    {
    }
    SemInvFrame(k, k');
  }

  lemma CreateInv(k: KState, p: Prog)
    requires Inv(k) && Allowed(k, Spawn(p)) && Create(k, p).Running?
    ensures Inv(Create(k, p).k)
  {
    var k' := Create(k, p).k;
    forall x
      ensures PartitionedAt(k', x)
    {
      CreatePart(k, p, x);
    }
    CreateBudget(k, p);
    CreateSemInv(k, p);
    OpenNewOk(k.files, k.nextId);
    var seg := NewSeg(p.segId, p.segSize, p.code);
    LoadAccounted(k.segs, seg);
    LoadMatched(k, p);
  }

  lemma LoadMatched(k: KState, p: Prog)
    requires Inv(k) && Allowed(k, Spawn(p)) && Create(k, p).Running?
    ensures Matched(Create(k, p).k.q.procs, Create(k, p).k.segs.list)
  {
    var seg := NewSeg(p.segId, p.segSize, p.code);
    var list := if seg.size <= k.segs.remaining then k.segs.list else SweepSegs(k.segs.list, 0, seg.size).0;
    SweepKeeps(k.segs.list, 0, seg.size);
    MatchedKept(k.q.procs, k.segs.list, k.q.procs, list);
    MatchedAdd(k.q.procs, list, k.nextId, Proc(p.code, p.segId, 0, 0, READY), seg);
  }

  // ------------------------------------------------------------ steps and runs

  lemma LoopHeadInv(k: KState, gate: bool)
    requires Inv(k) && Linked(k) && !k.atTest
    ensures var o := CpuStep(k, gate); !o.Fault? && !o.Exit? && (o.Running? ==> Inv(o.k))
    ensures CpuStep(k, gate).Overrun? <==> gate && k.q.cur.Some? && !CanFetch(k)
  {
    if k.q.cur.None? {
      ScheduleInv(k, NONE);
    } else if !gate {
      ControlInv(k, true);
    } else if CanFetch(k) {
      ExecuteOneInv(k);
    } else {
      ExecuteOverruns(k);
    }
  }

  lemma TestInv(k: KState, gate: bool)
    requires Inv(k) && Linked(k) && k.atTest
    ensures CpuStep(k, gate).Running? && Inv(CpuStep(k, gate).k)
  {
    var back := k.(atTest := false);
    ControlInv(k, false);
    if k.q.cur.Some? {
      var p := k.q.procs[k.q.cur.value];
      if p.pc >= |p.code| {
        FinishInv(back);
      } else if p.remaining <= 0 {
        ScheduleInv(back, QUANTUM_COMPLETED);
      }
    }
  }

  /** The CPU only ever stumbles over the end of a program, and exactly when it fetches there. */
  lemma CpuStepInv(k: KState, gate: bool)
    requires Inv(k) && Linked(k)
    ensures var o := CpuStep(k, gate); !o.Fault? && !o.Exit? && (o.Running? ==> Inv(o.k))
    ensures CpuStep(k, gate).Overrun? <==> gate && !k.atTest && k.q.cur.Some? && !CanFetch(k)
  {
    if k.atTest {
      TestInv(k, gate);
    } else {
      LoopHeadInv(k, gate);
    }
  }

  /** One step from a good state: nothing missing is ever used, and the state stays good. */
  lemma NextInv(k: KState, l: Label)
    requires Inv(k) && Allowed(k, l)
    ensures var o := Next(k, l); !o.Fault? && (o.Running? ==> Inv(o.k))
  {
    InvLinked(k);
    match l
    case Cpu(gate) => CpuStepInv(k, gate);
    case Tick => TickInv(k);
    case Spawn(p) =>
      if Create(k, p).Running? {
        CreateInv(k, p);
      }
  }

  lemma {:induction false} RunInv(k: KState, ls: seq<Label>)
    requires Inv(k) && AllAllowed(k, ls)
    ensures var o := RunFrom(k, ls); !o.Fault? && (o.Running? ==> Inv(o.k))
    decreases |ls|
  {
    if ls != [] {
      NextInv(k, ls[0]);
      if Next(k, ls[0]).Running? {
        RunInv(Next(k, ls[0]).k, ls[1..]);
      }
    }
  }

  lemma {:induction false} RunAppend(k: KState, a: seq<Label>, b: seq<Label>)
    requires AllAllowed(k, a) && RunFrom(k, a).Running? && AllAllowed(RunFrom(k, a).k, b)
    ensures AllAllowed(k, a + b) && RunFrom(k, a + b) == RunFrom(RunFrom(k, a).k, b)
    decreases |a|
  {
    if a == [] {
      assert a + b == b;
    } else {
      assert (a + b)[1..] == a[1..] + b;
      RunAppend(Next(k, a[0]).k, a[1..], b);
    }
  }

  /** Every run from the initial state: no dangling reference, no missing segment or page, no release that finds
      nobody to wake; and every state reached satisfies the whole invariant. */
  lemma EveryRunIsSafe(ls: seq<Label>)
    requires AllAllowed(Init(), ls)
    ensures var o := RunFrom(Init(), ls); !o.Fault? && (o.Running? ==> Inv(o.k))
  {
    InvInit();
    RunInv(Init(), ls);
  }
}
