/** Mutual exclusion over whole runs: who is inside a critical section, and that it is one process at most. */
module Mutex {
  import opened Program
  import opened KernelState
  import opened Partition
  import opened Semaphores
  import opened Runs
  import opened Steps

  /** The live processes that have requested s once more than they have released it. */
  ghost function Inside(procs: map<Id, Proc>, s: string): set<Id> {
    set id | id in procs && procs[id].pc <= |procs[id].code| && Balance(procs[id].code, procs[id].pc, s) == 1
  }

  ghost predicate AllDisciplined(k: KState) {
    forall id | id in k.q.procs :: Disciplined(k.q.procs[id].code)
  }

  ghost predicate ValueOk(k: KState, i: nat)
    requires i < |k.sems|
  {
    |Inside(k.q.procs, k.sems[i].name)| == 1 - k.sems[i].S
  }

  ghost predicate MutexInv(k: KState) {
    AllDisciplined(k) && forall i | 0 <= i < |k.sems| :: ValueOk(k, i)
  }

  /** Those who have executed P(s) without V(s) and are not (or no longer) waiting for it. */
  ghost function Holders(k: KState, i: nat): set<Id>
    requires i < |k.sems|
  {
    set id | id in Inside(k.q.procs, k.sems[i].name) && id !in k.sems[i].waiters
  }

  // ------------------------------------------------------------ balances

  lemma {:induction false} BalanceUnused(code: seq<Instr>, n: nat, s: string)
    requires n <= |code| && forall i | 0 <= i < |code| :: code[i] != SemP(s) && code[i] != SemV(s)
    ensures Balance(code, n, s) == 0
  {
    if n > 0 {
      BalanceUnused(code, n - 1, s);
    }
  }

  lemma BalanceBit(code: seq<Instr>, n: nat, s: string)
    requires Disciplined(code) && n <= |code|
    ensures 0 <= Balance(code, n, s) <= 1 && (n == |code| ==> Balance(code, n, s) == 0)
  {
    assert Alternates(code, s);
  }

  // ------------------------------------------------------------ the sets of those inside

  /** One instruction of process id moves it in or out of Inside, or leaves it. */
  lemma InsideAdvance(procs: map<Id, Proc>, procs': map<Id, Proc>, id: Id, s: string)
    requires procs.Keys == procs'.Keys && id in procs
    requires forall x | x in procs && x != id :: procs'[x].code == procs[x].code && procs'[x].pc == procs[x].pc
    requires var p := procs[id];
             procs'[id].code == p.code && p.pc < |p.code| && procs'[id].pc == p.pc + 1 && Disciplined(p.code)
    ensures var p := procs[id];
            |Inside(procs', s)| == |Inside(procs, s)| + Delta(p.code[p.pc], s)
  {
    var p := procs[id];
    BalanceBit(p.code, p.pc, s);
    BalanceBit(p.code, p.pc + 1, s);
    var before, after := Inside(procs, s), Inside(procs', s);
    assert Balance(p.code, p.pc + 1, s) == Balance(p.code, p.pc, s) + Delta(p.code[p.pc], s);
    forall x | x in procs && x != id
      ensures x in after <==> x in before
    {
      assert procs'[x].code == procs[x].code && procs'[x].pc == procs[x].pc;
    }
    if Delta(p.code[p.pc], s) == 1 {
      assert id !in before && after == before + {id};
    } else if Delta(p.code[p.pc], s) == -1 {
      assert id in before && after == before - {id};
    } else {
      assert after == before;
    }
  }

  lemma InsideSame(procs: map<Id, Proc>, procs': map<Id, Proc>, s: string)
    requires forall id | id in procs && id in procs' :: procs'[id].code == procs[id].code && procs'[id].pc == procs[id].pc
    requires forall id | id in procs && id !in procs' :: id !in Inside(procs, s)
    requires forall id | id in procs' && id !in procs :: id !in Inside(procs', s)
    ensures Inside(procs', s) == Inside(procs, s)
  {
    forall id
      ensures id in Inside(procs', s) <==> id in Inside(procs, s)
    {
      if id in procs && id in procs' {
        assert procs'[id].code == procs[id].code && procs'[id].pc == procs[id].pc;
      }
    }
  }

  // ------------------------------------------------------------ the invariant

  lemma StepDisciplined(k: KState, l: Label)
    requires Inv(k) && Allowed(k, l) && Next(k, l).Running? && AllDisciplined(k) && (l.Spawn? ==> Disciplined(l.prog.code))
    ensures AllDisciplined(Next(k, l).k)
  {
    var k' := Next(k, l).k;
    forall id | id in k'.q.procs
      ensures Disciplined(k'.q.procs[id].code)
    {
      StepNew(k, l, id);
      if id in k.q.procs {
        StepCode(k, l, id);
      }
    }
  }

  lemma ExecuteMutex(k: KState, l: Label, i: nat)
    requires Inv(k) && Executes(k, l) && Next(k, l).Running? && MutexInv(k) && i < |Next(k, l).k.sems|
    ensures ValueOk(Next(k, l).k, i)
  {
    var k' := Next(k, l).k;
    var id := k.q.cur.value;
    InvLinked(k);
    StepSems(k, l);
    assert ProcOk(k.q.procs[id], k.sems);
    AlwaysAnswerable(k, Current(k));
    SemsAfterOk(k.sems, Current(k), id);
    SemsAfterAt(k.sems, Current(k), id, i);
    ExecuteCode(k, id);
    forall x | x in k.q.procs
      ensures k'.q.procs[x].code == k.q.procs[x].code
      ensures k'.q.procs[x].pc == k.q.procs[x].pc + if x == id then 1 else 0
    {
      ExecuteCode(k, x);
    }
    InsideAdvance(k.q.procs, k'.q.procs, id, k.sems[i].name);
    assert ValueOk(k, i);
  }

  lemma OtherInside(k: KState, l: Label, s: string)
    requires Inv(k) && Allowed(k, l) && !Executes(k, l) && Next(k, l).Running? && MutexInv(k)
    ensures Inside(Next(k, l).k.q.procs, s) == Inside(k.q.procs, s)
  {
    var k' := Next(k, l).k;
    forall id
      ensures id in k.q.procs && id in k'.q.procs ==>
                k'.q.procs[id].code == k.q.procs[id].code && k'.q.procs[id].pc == k.q.procs[id].pc
      ensures id in k.q.procs && id !in k'.q.procs ==> id !in Inside(k.q.procs, s)
      ensures id in k'.q.procs && id !in k.q.procs ==> id !in Inside(k'.q.procs, s)
    {
      StepNew(k, l, id);
      if id in k.q.procs {
        StepCode(k, l, id);
        if id !in k'.q.procs {
          assert ProcOk(k.q.procs[id], k.sems);
          BalanceBit(k.q.procs[id].code, k.q.procs[id].pc, s);
        }
      }
    }
    InsideSame(k.q.procs, k'.q.procs, s);
  }

  /** Nobody is inside a semaphore that is not registered yet. */
  lemma NobodyInsideNew(k: KState, s: string)
    requires Inv(k) && !Registered(k.sems, s)
    ensures Inside(k.q.procs, s) == {}
  {
    forall id | id in k.q.procs
      ensures id !in Inside(k.q.procs, s)
    {
      var p := k.q.procs[id];
      assert ProcOk(p, k.sems);
      forall n | 0 <= n < |p.code|
        ensures p.code[n] != SemP(s) && p.code[n] != SemV(s)
      {
        assert Uses(p.code[n], k.sems);
      }
      BalanceUnused(p.code, p.pc, s);
    }
  }

  lemma OtherMutex(k: KState, l: Label, i: nat)
    requires Inv(k) && Allowed(k, l) && !Executes(k, l) && Next(k, l).Running? && MutexInv(k)
    requires i < |Next(k, l).k.sems|
    ensures ValueOk(Next(k, l).k, i)
  {
    var k' := Next(k, l).k;
    StepSems(k, l);
    OtherInside(k, l, k'.sems[i].name);
    if i < |k.sems| {
      assert ValueOk(k, i);
    }
    if l.Spawn? {
      RegisterAllOk(k.sems, l.prog.sems);
      if i >= |k.sems| {
        assert forall j | 0 <= j < |k.sems| :: k.sems[j].name == k'.sems[j].name != k'.sems[i].name;
        NobodyInsideNew(k, k'.sems[i].name);
      }
    }
  }

  lemma StepMutex(k: KState, l: Label)
    requires Inv(k) && Allowed(k, l) && Next(k, l).Running? && MutexInv(k) && (l.Spawn? ==> Disciplined(l.prog.code))
    ensures MutexInv(Next(k, l).k)
  {
    var k' := Next(k, l).k;
    StepDisciplined(k, l);
    forall i | 0 <= i < |k'.sems|
      ensures ValueOk(k', i)
    {
      if Executes(k, l) {
        ExecuteMutex(k, l, i);
      } else {
        OtherMutex(k, l, i);
      }
    }
  }

  // ------------------------------------------------------------ mutual exclusion

  lemma {:induction false} DistinctSize(s: seq<Id>)
    requires forall i, j | 0 <= i < j < |s| :: s[i] != s[j]
    ensures |set x | x in s| == |s|
  {
    if s != [] {
      DistinctSize(s[1..]);
      assert (set x | x in s) == {s[0]} + (set x | x in s[1..]);
    }
  }

  lemma WaitersDistinct(k: KState, i: nat)
    requires Partitioned(k) && i < |k.sems|
    ensures forall m, n | 0 <= m < n < |k.sems[i].waiters| :: k.sems[i].waiters[m] != k.sems[i].waiters[n]
  {
    var w := k.sems[i].waiters;
    forall m, n | 0 <= m < n < |w|
      ensures w[m] != w[n]
    {
      assert PartitionedAt(k, w[m]);
      WaitsAtLeast(k.sems, i, w[m]);
      if w[m] == w[n] {
        OccursOnce(w, m, n);
      }
    }
  }

  lemma WaitersInside(k: KState, i: nat, id: Id)
    requires Inv(k) && MutexInv(k) && i < |k.sems| && id in k.sems[i].waiters
    ensures id in Inside(k.q.procs, k.sems[i].name)
  {
    var p := k.q.procs[id];
    assert JustFetched(p, SemP(k.sems[i].name));
    BalanceBit(p.code, p.pc, k.sems[i].name);
    BalanceBit(p.code, p.pc - 1, k.sems[i].name);
  }

  /** The semaphore is free or has exactly one holder, also right after a release that hands it over to a waiter. */
  lemma MutualExclusion(k: KState, i: nat)
    requires Inv(k) && MutexInv(k) && i < |k.sems|
    ensures |Holders(k, i)| + Max(k.sems[i].S, 0) == 1
  {
    var inside := Inside(k.q.procs, k.sems[i].name);
    var waiting := set id | id in k.sems[i].waiters;
    WaitersDistinct(k, i);
    DistinctSize(k.sems[i].waiters);
    forall id | id in waiting
      ensures id in inside
    {
      WaitersInside(k, i, id);
    }
    assert inside == Holders(k, i) + waiting;
    assert ValueOk(k, i) && SemOk(k.sems[i]);
  }

  lemma {:induction false} RunMutex(k: KState, ls: seq<Label>)
    requires Inv(k) && MutexInv(k) && AllAllowed(k, ls) && RunFrom(k, ls).Running?
    requires forall p | Spawn(p) in ls :: Disciplined(p.code)
    ensures Inv(RunFrom(k, ls).k) && MutexInv(RunFrom(k, ls).k)
    decreases |ls|
  {
    if ls != [] {
      NextInv(k, ls[0]);
      StepMutex(k, ls[0]);
      assert forall p | Spawn(p) in ls[1..] :: Spawn(p) in ls;
      RunMutex(Next(k, ls[0]).k, ls[1..]);
    }
  }

  /** In every state of every run of disciplined programs, every semaphore has one holder or is free. */
  lemma MutualExclusionAlways(ls: seq<Label>, i: nat)
    requires AllAllowed(Init(), ls) && RunFrom(Init(), ls).Running? && i < |RunFrom(Init(), ls).k.sems|
    requires forall p | Spawn(p) in ls :: Disciplined(p.code)
    ensures var k := RunFrom(Init(), ls).k; |Holders(k, i)| + Max(k.sems[i].S, 0) == 1
  {
    InvInit();
    RunMutex(Init(), ls);
    MutualExclusion(RunFrom(Init(), ls).k, i);
  }
}
