/** Fetches past the end of the code: which programs they can happen to. */
module CodeBounds {
  import opened Program
  import opened KernelState
  import opened Budget
  import opened Semaphores
  import opened Runs
  import opened Steps

  /** A process whose program ends on the CPU has code left, unless the CPU is about to notice that it has not. */
  predicate CodeLeft(k: KState, id: Id)
    requires id in k.q.procs
  {
    var p := k.q.procs[id];
    EndsOnCpu(p.code) ==> p.pc < |p.code| || (k.q.cur == Some(id) && k.atTest)
  }

  ghost predicate AllCodeLeft(k: KState) {
    forall id | id in k.q.procs :: CodeLeft(k, id)
  }

  /** An instruction that cannot block leaves the process on the CPU. */
  lemma StaysOnCpu(k: KState, instr: Instr)
    requires Linked(k) && k.q.cur.Some? && Answerable(k, instr) && !MayBlock(instr)
    ensures Eval(k, instr).q.cur == k.q.cur
  {
  }

  lemma LastStays(k: KState)
    requires Inv(k) && CanFetch(k) && Linked(k) && ExecuteOne(k).Running? && !MayBlock(Current(k))
    ensures ExecuteOne(k).k.q.cur == k.q.cur
  {
    FetchReady(k);
    ExecuteIs(k);
    StaysOnCpu(Fetch(k), Current(k));
  }

  lemma ExecuteCodeLeft(k: KState, id: Id)
    requires Inv(k) && CanFetch(k) && Linked(k) && ExecuteOne(k).Running? && !k.atTest
    requires id in k.q.procs && CodeLeft(k, id)
    ensures id in ExecuteOne(k).k.q.procs && CodeLeft(ExecuteOne(k).k, id)
  {
    ExecuteCode(k, id);
    var p, k' := k.q.procs[id], ExecuteOne(k).k;
    if k.q.cur != Some(id) {
      assert k'.q.procs[id].pc == p.pc;
    } else if MayBlock(Current(k)) {
      assert EndsOnCpu(p.code) ==> p.pc + 1 < |p.code|;
    } else {
      LastStays(k);
    }
  }

  lemma StepCodeLeft(k: KState, l: Label)
    requires Inv(k) && Allowed(k, l) && Next(k, l).Running? && AllCodeLeft(k)
    ensures AllCodeLeft(Next(k, l).k)
  {
    var k' := Next(k, l).k;
    InvLinked(k);
    forall id | id in k'.q.procs
      ensures CodeLeft(k', id)
    {
      StepNew(k, l, id);
      if id in k.q.procs {
        assert CodeLeft(k, id);
        StepCode(k, l, id);
        if Executes(k, l) {
          CpuStepInv(k, true);
          assert CanFetch(k);
          ExecuteCodeLeft(k, id);
        } else if l.Tick? {
          UnblockAllKnown(k.q, Served(k.disk.pending, k.disk.arm.track));
        } else if l.Cpu? && k.atTest {
          InvCurTest(k, l, id);
        }
      }
    }
  }

  /** After the test, whoever had no code left is gone. */
  lemma InvCurTest(k: KState, l: Label, id: Id)
    requires Inv(k) && l.Cpu? && k.atTest && Next(k, l).Running? && AllCodeLeft(k) && id in k.q.procs
    requires id in Next(k, l).k.q.procs
    ensures CodeLeft(Next(k, l).k, id)
  {
    InvLinked(k);
    assert CodeLeft(k, id);
    StepCode(k, l, id);
  }

  lemma StepOverruns(k: KState, l: Label)
    requires Inv(k) && AllCodeLeft(k) && Next(k, l).Overrun?
    ensures var code := Next(k, l).code; code != [] && MayBlock(code[|code| - 1])
  {
    hide Eval, Schedule, Finish;
    InvLinked(k);
    CpuStepInv(k, l.gate);
    ExecuteOverruns(k);
    assert CodeLeft(k, k.q.cur.value) && ProcOk(k.q.procs[k.q.cur.value], k.sems);
  }

  /** A fetch past the end only ever happens to a program whose last instruction may take it off the CPU. */
  lemma {:induction false} OverrunEndsBlocking(k: KState, ls: seq<Label>)
    requires Inv(k) && AllCodeLeft(k) && AllAllowed(k, ls)
    ensures var o := RunFrom(k, ls); o.Overrun? ==> o.code != [] && MayBlock(o.code[|o.code| - 1])
    decreases |ls|
  {
    hide Inv, AllCodeLeft, Next, Allowed, MayBlock;
    if ls != [] {
      NextInv(k, ls[0]);
      var o := Next(k, ls[0]);
      if o.Running? {
        StepCodeLeft(k, ls[0]);
        OverrunEndsBlocking(o.k, ls[1..]);
      } else if o.Overrun? {
        StepOverruns(k, ls[0]);
      }
    }
  }

  lemma {:induction false} RunAllCodeLeft(k: KState, ls: seq<Label>)
    requires Inv(k) && AllCodeLeft(k) && AllAllowed(k, ls) && RunFrom(k, ls).Running?
    ensures AllCodeLeft(RunFrom(k, ls).k)
    decreases |ls|
  {
    if ls != [] {
      NextInv(k, ls[0]);
      StepCodeLeft(k, ls[0]);
      RunAllCodeLeft(Next(k, ls[0]).k, ls[1..]);
    }
  }

  /** In every run of every mix of programs, no program that ends in exec or V is ever fetched past its end, and no
      process with such a program that is queued, waits, or is about to be fetched from stands there. */
  lemma NoOverrun(ls: seq<Label>)
    requires AllAllowed(Init(), ls)
    ensures var o := RunFrom(Init(), ls); (o.Overrun? ==> !EndsOnCpu(o.code)) && (o.Running? ==> AllCodeLeft(o.k))
  {
    InvInit();
    OverrunEndsBlocking(Init(), ls);
    if RunFrom(Init(), ls).Running? {
      RunAllCodeLeft(Init(), ls);
    }
  }
}
