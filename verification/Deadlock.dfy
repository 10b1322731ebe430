/** Freedom from deadlock: under ordered acquisition, something is always running, ready or on its way from the disk. */
module Deadlock {
  import opened Program
  import opened KernelState
  import opened Partition
  import opened Semaphores
  import opened Runs
  import opened Steps
  import opened Mutex

  predicate Ready(q: Sched) {
    q.high != [] || q.low != []
  }

  /** Nobody can ever be scheduled again. */
  predicate Stuck(k: KState) {
    k.q.cur.None? && !Ready(k.q) && k.disk.pending == []
  }

  ghost predicate AllOrdered(k: KState, rank: string -> int) {
    forall id | id in k.q.procs :: Ordered(k.q.procs[id].code, rank)
  }

  /** In a stuck state every live process waits for a semaphore. */
  lemma StuckWaits(k: KState, id: Id) returns (j: nat)
    requires Inv(k) && Stuck(k) && id in k.q.procs
    ensures j < |k.sems| && id in k.sems[j].waiters
  {
    assert PartitionedAt(k, id);
    j := WaitsSomewhere(k.sems, id);
  }

  /** Where someone waits there is a holder, and it is another live process. */
  lemma HolderExists(k: KState, i: nat) returns (h: Id)
    requires Inv(k) && MutexInv(k) && i < |k.sems| && k.sems[i].waiters != []
    ensures h in k.q.procs && h in Holders(k, i)
  {
    MutualExclusion(k, i);
    assert SemOk(k.sems[i]) && |Holders(k, i)| == 1;
    h := Inhabited(Holders(k, i));
  }

  lemma Inhabited(s: set<Id>) returns (x: Id)
    requires |s| > 0
    ensures x in s
  {
    assert (forall y :: y !in s) ==> s == {};
    x :| x in s;
  }

  /** The holder h of a semaphore on which somebody waits itself waits, for one of higher rank. */
  lemma HigherWaiter(k: KState, rank: string -> int, i: nat) returns (h: Id, j: nat)
    requires Inv(k) && MutexInv(k) && AllOrdered(k, rank) && Stuck(k) && i < |k.sems| && k.sems[i].waiters != []
    ensures h in Holders(k, i)
    ensures j < |k.sems| && h in k.sems[j].waiters && rank(k.sems[j].name) > rank(k.sems[i].name)
  {
    h := HolderExists(k, i);
    j := StuckWaits(k, h);
    var p := k.q.procs[h];
    assert k.sems[i].name != k.sems[j].name;
    assert JustFetched(p, SemP(k.sems[j].name));
    assert Balance(p.code, p.pc - 1, k.sems[i].name) == 1;
    assert Ordered(p.code, rank);
  }

  lemma {:induction false} HighestWaiting(sems: seq<Sem>, rank: string -> int) returns (i: nat)
    requires exists j :: 0 <= j < |sems| && sems[j].waiters != []
    ensures i < |sems| && sems[i].waiters != []
    ensures forall j | 0 <= j < |sems| && sems[j].waiters != [] :: rank(sems[j].name) <= rank(sems[i].name)
  {
    if exists j :: 0 <= j < |sems[1..]| && sems[1..][j].waiters != [] {
      var r := HighestWaiting(sems[1..], rank);
      i := if sems[0].waiters != [] && rank(sems[0].name) > rank(sems[r + 1].name) then 0 else r + 1;
      forall j | 0 <= j < |sems| && sems[j].waiters != []
        ensures rank(sems[j].name) <= rank(sems[i].name)
      {
        if j > 0 {
          assert sems[1..][j - 1] == sems[j];
        }
      }
    } else {
      i := 0;
      forall j | 0 < j < |sems|
        ensures sems[j].waiters == []
      {
        assert sems[1..][j - 1] == sems[j];
      }
    }
  }

  lemma NoDeadlock(k: KState, rank: string -> int)
    requires Inv(k) && MutexInv(k) && AllOrdered(k, rank) && k.q.procs != map[]
    ensures !Stuck(k)
  {
    if Stuck(k) {
      var id := Inhabited(k.q.procs.Keys);
      var j := StuckWaits(k, id);
      var i := HighestWaiting(k.sems, rank);
      var h, higher := HigherWaiter(k, rank, i);
    }
  }

  lemma StepOrdered(k: KState, l: Label, rank: string -> int)
    requires Inv(k) && Allowed(k, l) && Next(k, l).Running? && AllOrdered(k, rank)
    requires l.Spawn? ==> Ordered(l.prog.code, rank)
    ensures AllOrdered(Next(k, l).k, rank)
  {
    var k' := Next(k, l).k;
    forall id | id in k'.q.procs
      ensures Ordered(k'.q.procs[id].code, rank)
    {
      StepNew(k, l, id);
      if id in k.q.procs {
        StepCode(k, l, id);
      }
    }
  }

  lemma {:induction false} RunOrdered(k: KState, ls: seq<Label>, rank: string -> int)
    requires Inv(k) && AllOrdered(k, rank) && AllAllowed(k, ls) && RunFrom(k, ls).Running?
    requires forall p | Spawn(p) in ls :: Ordered(p.code, rank)
    ensures AllOrdered(RunFrom(k, ls).k, rank)
    decreases |ls|
  {
    if ls != [] {
      NextInv(k, ls[0]);
      StepOrdered(k, ls[0], rank);
      assert forall p | Spawn(p) in ls[1..] :: Spawn(p) in ls;
      RunOrdered(Next(k, ls[0]).k, ls[1..], rank);
    }
  }

  /** No run of disciplined programs that acquire in one common order ever gets stuck. */
  lemma DeadlockFree(ls: seq<Label>, rank: string -> int)
    requires AllAllowed(Init(), ls) && RunFrom(Init(), ls).Running?
    requires forall p | Spawn(p) in ls :: Disciplined(p.code) && Ordered(p.code, rank)
    ensures var k := RunFrom(Init(), ls).k; k.q.procs != map[] ==> !Stuck(k)
  {
    InvInit();
    RunMutex(Init(), ls);
    RunOrdered(Init(), ls, rank);
    var k := RunFrom(Init(), ls).k;
    if k.q.procs != map[] {
      NoDeadlock(k, rank);
    }
  }
}
