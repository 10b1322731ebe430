/** Runs of a kernel: every step of its objects is a step of the state machine, and steps follow each other. */
module Simulations {
  import opened Program
  import opened KernelState
  import opened Runs
  import opened Completion
  import opened Kernels

  lemma CpuCases(k: KState, gate: bool)
    requires Inv(k) && !Next(k, Cpu(gate)).Overrun?
    ensures Next(k, Cpu(gate)).Running?
  {
    InvLinked(k);
    CpuStepInv(k, gate);
  }

  lemma TickIsNext(k: KState)
    requires Inv(k)
    ensures Next(k, Tick) == Running(DiskTick(k)) && Inv(DiskTick(k))
  {
    InvLinked(k);
    TickInv(k);
  }

  lemma SpawnIsNext(k: KState, p: Prog)
    requires Inv(k) && Allowed(k, Spawn(p))
    ensures k.nextId !in k.q.procs && Next(k, Spawn(p)) == Create(k, p)
    ensures Create(k, p).Running? ==> Inv(Create(k, p).k)
  {
    InvLinked(k);
    NextInv(k, Spawn(p));
  }

  method StepCpu(kernel: Kernel, gate: bool)
    requires kernel.Valid() && Inv(kernel.View()) && !Next(kernel.View(), Cpu(gate)).Overrun?
    modifies kernel.Objects()
    ensures kernel.Valid() && Inv(kernel.View()) && Running(kernel.View()) == Next(old(kernel.View()), Cpu(gate))
    ensures forall o | o in kernel.Objects() :: o in old(kernel.Objects()) || fresh(o)
  {
    CpuCases(kernel.View(), gate);
    hide Kernel.Valid, Kernel.View, Inv, Next;
    kernel.CpuTurn(gate);
  }

  method StepDisk(kernel: Kernel)
    requires kernel.Valid() && Inv(kernel.View())
    modifies kernel.Objects()
    ensures kernel.Valid() && Inv(kernel.View()) && Running(kernel.View()) == Next(old(kernel.View()), Tick)
    ensures kernel.Objects() <= old(kernel.Objects())
  {
    TickIsNext(kernel.View());
    hide Kernel.Valid, Kernel.View, Inv, Next, DiskTick;
    kernel.DiskTurn();
  }

  method StepCreate(kernel: Kernel, p: Prog) returns (created: bool)
    requires kernel.Valid() && Inv(kernel.View()) && Allowed(kernel.View(), Spawn(p))
    modifies kernel.Objects()
    ensures if created then
              kernel.Valid() && Inv(kernel.View()) && Running(kernel.View()) == Next(old(kernel.View()), Spawn(p))
            else Next(old(kernel.View()), Spawn(p)) == Exit
    ensures forall o | o in kernel.Objects() :: o in old(kernel.Objects()) || fresh(o)
  {
    SpawnIsNext(kernel.View(), p);
    hide Kernel.Valid, Kernel.View, Inv, Next, Create, Allowed;
    created := kernel.CreateProcess(p);
  }

  /** Any one atomic step of a kernel. */
  method Step(kernel: Kernel, l: Label) returns (exited: bool)
    requires kernel.Valid() && Inv(kernel.View()) && Allowed(kernel.View(), l) && !Next(kernel.View(), l).Overrun?
    modifies kernel.Objects()
    ensures if exited then Next(old(kernel.View()), l) == Exit
            else kernel.Valid() && Inv(kernel.View()) && Running(kernel.View()) == Next(old(kernel.View()), l)
    ensures forall o | o in kernel.Objects() :: o in old(kernel.Objects()) || fresh(o)
  {
    hide Kernel.Valid, Kernel.View, Kernel.Objects, Inv, Next, Allowed;
    exited := false;
    match l {
      case Cpu(gate) => StepCpu(kernel, gate);
      case Tick => StepDisk(kernel);
      case Spawn(p) =>
        var created := StepCreate(kernel, p);
        exited := !created;
    }
  }

  /** A run, step by step: the objects go through the states of the state machine. */
  method Run(kernel: Kernel, ls: seq<Label>) returns (exited: bool)
    requires kernel.Valid() && Inv(kernel.View())
    requires AllAllowed(kernel.View(), ls) && !RunFrom(kernel.View(), ls).Overrun?
    modifies kernel.Objects()
    ensures if exited then RunFrom(old(kernel.View()), ls) == Exit
            else kernel.Valid() && Inv(kernel.View()) && Running(kernel.View()) == RunFrom(old(kernel.View()), ls)
    ensures forall o | o in kernel.Objects() :: o in old(kernel.Objects()) || fresh(o)
  {
    hide Kernel.Valid, Kernel.View, Kernel.Objects, Inv, Next, Allowed;
    exited := false;
    var i := 0;
    while i < |ls|
      invariant i <= |ls| && kernel.Valid() && Inv(kernel.View())
      invariant AllAllowed(kernel.View(), ls[i..])
      invariant RunFrom(kernel.View(), ls[i..]) == RunFrom(old(kernel.View()), ls)
      invariant forall o | o in kernel.Objects() :: o in old(kernel.Objects()) || fresh(o)
    {
      assert ls[i..][0] == ls[i] && ls[i..][1..] == ls[i + 1..];
      exited := Step(kernel, ls[i]);
      if exited {
        return;
      }
      i := i + 1;
    }
  }

  /** From a new kernel, any run of programs that end on the CPU: none is fetched past its end, so the run goes through
      to its last step, or to a creation that exits. */
  method Simulate(ls: seq<Label>) returns (kernel: Kernel, exited: bool)
    requires AllAllowed(Init(), ls) && forall p | Spawn(p) in ls :: EndsOnCpu(p.code)
    ensures if exited then RunFrom(Init(), ls) == Exit
            else kernel.Valid() && Inv(kernel.View()) && Running(kernel.View()) == RunFrom(Init(), ls)
  {
    kernel := new Kernel();
    InvInit();
    EndingNeverOverruns(Init(), ls);
    exited := Run(kernel, ls);
  }
}
