/** One step of the system in terms of programs, program counters and semaphores only. */
module Steps {
  import opened KernelState
  import opened Partition
  import opened Budget
  import opened Semaphores
  import opened Runs

  /** The step in which the process on the CPU executes an instruction. */
  predicate Executes(k: KState, l: Label) {
    l == Cpu(true) && !k.atTest && k.q.cur.Some?
  }

  /** The step in which the process on the CPU is torn down. */
  predicate Finishes(k: KState, l: Label)
    requires k.q.cur.Some? ==> k.q.cur.value in k.q.procs
  {
    l.Cpu? && k.atTest && k.q.cur.Some? && !CanFetch(k)
  }

  lemma ExecuteCode(k: KState, id: Id)
    requires Inv(k) && CanFetch(k) && Linked(k) && ExecuteOne(k).Running?
    ensures var k' := ExecuteOne(k).k;
            && k'.q.procs.Keys == k.q.procs.Keys && k'.atTest
            && k'.sems == SemsAfterStep(k)
            && (id in k.q.procs ==>
                  && k'.q.procs[id].code == k.q.procs[id].code && k'.q.procs[id].segId == k.q.procs[id].segId
                  && k'.q.procs[id].pc == k.q.procs[id].pc + (if k.q.cur == Some(id) then 1 else 0))
  {
    FetchReady(k);
    ExecuteIs(k);
    EvalSems(Fetch(k), Current(k));
    EvalCode(Fetch(k), Current(k), k.q.cur.value);
    if id in k.q.procs {
      EvalCode(Fetch(k), Current(k), id);
    }
  }

  /** The semaphores after the process on the CPU has executed its current instruction. */
  function SemsAfterStep(k: KState): seq<Sem>
    requires CanFetch(k)
  {
    if Answerable(k, Current(k)) then SemsAfter(k.sems, Current(k), k.q.cur.value) else k.sems
  }

  lemma ScheduledCode(k: KState, flag: Flag, id: Id)
    requires Known(k.q)
    ensures var s := Schedule(k.q, flag);
            && s.procs.Keys == k.q.procs.Keys
            && (id in k.q.procs ==> SameCode(k.q.procs[id], s.procs[id]))
  {
    SchedulePlaces(k.q, flag, id);
    if id in k.q.procs {
      ScheduleCode(k.q, flag, id);
    }
  }

  lemma FinishedCode(k: KState, id: Id)
    requires Inv(k) && k.q.cur.Some? && Linked(k) && Finish(k).Running?
    ensures var k' := Finish(k).k;
            && k'.sems == k.sems
            && (id in k'.q.procs <==> id in k.q.procs && id != k.q.cur.value)
            && (id in k'.q.procs ==> SameCode(k.q.procs[id], k'.q.procs[id]))
  {
    FinishRuns(k);
    ScheduledCode(k, NONE, id);
  }

  lemma CpuStepCode(k: KState, gate: bool, id: Id)
    requires Inv(k) && Linked(k) && CpuStep(k, gate).Running? && id in k.q.procs
    ensures var (k', l) := (CpuStep(k, gate).k, Cpu(gate));
            && (k.q.cur.Some? ==> k.q.cur.value in k.q.procs)
            && (id in k'.q.procs <==> !(Finishes(k, l) && k.q.cur == Some(id)))
            && (id in k'.q.procs ==>
                  && k'.q.procs[id].code == k.q.procs[id].code && k'.q.procs[id].segId == k.q.procs[id].segId
                  && k'.q.procs[id].pc == k.q.procs[id].pc + (if Executes(k, l) && k.q.cur == Some(id) then 1 else 0))
  {
    CpuStepInv(k, gate);
    ControlInv(k, false);
    hide Inv, Schedule, ExecuteOne, Finish;
    if Executes(k, Cpu(gate)) {
      ExecuteCode(k, id);
    } else if Finishes(k, Cpu(gate)) {
      FinishedCode(k.(atTest := false), id);
    } else {
      ScheduledCode(k, NONE, id);
      ScheduledCode(k, QUANTUM_COMPLETED, id);
    }
  }

  /** Where a process stands after a step that is not its creation. */
  lemma StepCode(k: KState, l: Label, id: Id)
    requires Inv(k) && Allowed(k, l) && Next(k, l).Running?
    requires id in k.q.procs
    ensures var k' := Next(k, l).k;
            && (k.q.cur.Some? ==> k.q.cur.value in k.q.procs)
            && (id in k'.q.procs <==> !(Finishes(k, l) && k.q.cur == Some(id)))
            && (id in k'.q.procs ==>
                  && k'.q.procs[id].code == k.q.procs[id].code && k'.q.procs[id].segId == k.q.procs[id].segId
                  && k'.q.procs[id].pc == k.q.procs[id].pc + (if Executes(k, l) && k.q.cur == Some(id) then 1 else 0))
  {
    hide CpuStep;
    InvLinked(k);
    match l
    case Tick => UnblockAllKnown(k.q, Served(k.disk.pending, k.disk.arm.track));
    case Spawn(p) =>
    case Cpu(gate) => CpuStepCode(k, gate, id);
  }

  /** Where the processes come from that were not there before a step. */
  lemma StepNew(k: KState, l: Label, id: Id)
    requires Inv(k) && Allowed(k, l) && Next(k, l).Running?
    ensures var k' := Next(k, l).k;
            id !in k.q.procs && id in k'.q.procs ==>
              l.Spawn? && id == k.nextId && k'.q.procs[id].code == l.prog.code && k'.q.procs[id].pc == 0
  {
    InvLinked(k);
    match l
    case Tick => UnblockAllKnown(k.q, Served(k.disk.pending, k.disk.arm.track));
    case Spawn(p) =>
    case Cpu(gate) =>
      CpuStepInv(k, gate);
      if Executes(k, l) {
        ExecuteCode(k, id);
      } else if Finishes(k, l) {
        ControlInv(k, false);
        FinishedCode(k.(atTest := false), id);
      } else {
        ScheduledCode(k, NONE, id);
        ScheduledCode(k, QUANTUM_COMPLETED, id);
      }
  }

  lemma StepSems(k: KState, l: Label)
    requires Inv(k) && Allowed(k, l) && Next(k, l).Running?
    ensures Executes(k, l) ==> CanFetch(k) && Next(k, l).k.sems == SemsAfterStep(k)
    ensures l.Spawn? ==> Next(k, l).k.sems == RegisterAll(k.sems, l.prog.sems)
    ensures !Executes(k, l) && !l.Spawn? ==> Next(k, l).k.sems == k.sems
  {
    InvLinked(k);
    if l.Cpu? {
      CpuStepInv(k, l.gate);
      if Executes(k, l) {
        ExecuteCode(k, k.q.cur.value);
      } else if k.atTest && k.q.cur.Some? {
        ControlInv(k, false);
        FinishRuns(k.(atTest := false));
      }
    }
  }
}
