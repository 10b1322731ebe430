/** Counting semaphores: the value and the length of the queue determine each other, every waiter is there because of
    its last request, and waking is first come, first served. */
module Semaphores {
  import opened Program
  import opened KernelState
  import opened Budget

  predicate SemOk(sem: Sem) {
    |sem.waiters| == Max(0, -sem.S)
  }

  ghost predicate SemsOk(sems: seq<Sem>) {
    && (forall i | 0 <= i < |sems| :: SemOk(sems[i]))
    && (forall i, j | 0 <= i < j < |sems| :: sems[i].name != sems[j].name)
  }

  predicate SameNames(s: seq<Sem>, t: seq<Sem>) {
    |s| <= |t| && forall i | 0 <= i < |s| :: s[i].name == t[i].name
  }

  lemma {:induction false} SemIndexKept(s: seq<Sem>, t: seq<Sem>, name: string)
    requires SameNames(s, t) && Registered(s, name)
    ensures SemIndex(t, name) == SemIndex(s, name)
  {
    if s[0].name != name {
      assert SameNames(s[1..], t[1..]);
      SemIndexKept(s[1..], t[1..], name);
    }
  }

  lemma SemIndexOf(sems: seq<Sem>, i: nat)
    requires SemsOk(sems) && i < |sems|
    ensures SemIndex(sems, sems[i].name) == i
  {
    var j := SemIndex(sems, sems[i].name);
    assert j <= i && sems[j].name == sems[i].name;
  }

  lemma {:induction false} RegisterAllOk(sems: seq<Sem>, names: seq<string>)
    requires SemsOk(sems)
    ensures var r := RegisterAll(sems, names);
            SemsOk(r) && sems <= r && (forall i | |sems| <= i < |r| :: r[i].S == 1 && r[i].waiters == [])
    decreases |names|
  {
    if names != [] {
      var next := Register(sems, names[0]);
      assert SemsOk(next);
      RegisterAllOk(next, names[1..]);
    }
  }

  /** The process stands right after that instruction. */
  predicate JustFetched(p: Proc, instr: Instr) {
    0 < p.pc <= |p.code| && p.code[p.pc - 1] == instr
  }

  /** Every waiter's last instruction was the request it waits on. */
  ghost predicate WaitersAsked(k: KState) {
    forall i | 0 <= i < |k.sems| :: forall id | id in k.sems[i].waiters ::
      id in k.q.procs && JustFetched(k.q.procs[id], SemP(k.sems[i].name))
  }

  predicate Uses(i: Instr, sems: seq<Sem>) {
    (i.SemP? || i.SemV?) ==> Registered(sems, i.sem)
  }

  /** Programs are valid, name registered semaphores only, and no pc has passed the end. */
  predicate ProcOk(p: Proc, sems: seq<Sem>) {
    && p.code != [] && p.pc <= |p.code|
    && forall n | 0 <= n < |p.code| :: ValidInstr(p.code[n]) && Uses(p.code[n], sems)
  }

  ghost predicate ProcsOk(k: KState) {
    forall id | id in k.q.procs :: ProcOk(k.q.procs[id], k.sems) && id < k.nextId
  }

  ghost predicate SemInv(k: KState) {
    SemsOk(k.sems) && WaitersAsked(k) && ProcsOk(k)
  }

  lemma ProcOkKept(p: Proc, p': Proc, sems: seq<Sem>, sems': seq<Sem>)
    requires ProcOk(p, sems) && SameCode(p, p') && SameNames(sems, sems')
    ensures ProcOk(p', sems')
  {
    forall n | 0 <= n < |p.code|
      ensures Uses(p'.code[n], sems')
    {
      assert Uses(p.code[n], sems);
      if p.code[n].SemP? || p.code[n].SemV? {
        SemIndexKept(sems, sems', p.code[n].sem);
      }
    }
  }

  lemma TakeCode(q: Sched, id: Id)
    requires Known(q) && id in q.procs
    ensures var taken := Take(q).1; taken.procs.Keys == q.procs.Keys && SameCode(q.procs[id], taken.procs[id])
    ensures Take(q).0.Some? ==> Take(q).0.value in q.procs
    ensures Take(q).1.cur == q.cur
  {
  }

  lemma ParkCode(q: Sched, flag: Flag, id: Id)
    requires id in q.procs && (q.cur.Some? ==> q.cur.value in q.procs)
    ensures var parked := Park(q, flag); parked.procs.Keys == q.procs.Keys && SameCode(q.procs[id], parked.procs[id])
  {
  }

  lemma ScheduleCode(q: Sched, flag: Flag, id: Id)
    requires Known(q) && id in q.procs
    ensures var s := Schedule(q, flag); s.procs.Keys == q.procs.Keys && SameCode(q.procs[id], s.procs[id])
  {
    hide Take, Park;
    TakeCode(q, id);
    ParkCode(Take(q).1, flag, id);
  }

  lemma DiskOpCode(k: KState, track: int, read: bool, id: Id)
    requires Known(k.q) && k.q.cur.Some? && k.q.cur.value in k.files.open && id in k.q.procs
    ensures var k' := DiskOp(k, track, read);
            k'.q.procs.Keys == k.q.procs.Keys && SameCode(k.q.procs[id], k'.q.procs[id])
  {
    ScheduleCode(k.q, IO_REQUESTED, id);
  }

  lemma EvalCode(k: KState, instr: Instr, id: Id)
    requires Linked(k) && k.q.cur.Some? && Answerable(k, instr) && id in k.q.procs
    ensures var k' := Eval(k, instr);
            k'.q.procs.Keys == k.q.procs.Keys && SameCode(k.q.procs[id], k'.q.procs[id])
  {
    hide Schedule, DiskOp;
    match instr
    case Exec(_) =>
    case SemP(s) => ScheduleCode(k.q, SEMAPHORE_BLOCKED, id);
    case SemV(s) =>
    case Read(t) => DiskOpCode(k, t, true, id);
    case Write(t) => DiskOpCode(k, t, false, id);
    case Print(d) => ScheduleCode(k.q, IO_REQUESTED, id);
  }

  /** What an instruction does to the semaphores: nothing, or one request, or one release. */
  function SemsAfter(sems: seq<Sem>, instr: Instr, id: Id): seq<Sem>
    requires instr.SemP? ==> Registered(sems, instr.sem)
    requires instr.SemV? ==> Registered(sems, instr.sem)
    requires instr.SemV? && sems[SemIndex(sems, instr.sem)].S < 0 ==> sems[SemIndex(sems, instr.sem)].waiters != []
  {
    match instr
    case SemP(s) =>
      var i := SemIndex(sems, s);
      sems[i := Sem(sems[i].name, sems[i].S - 1, if sems[i].S <= 0 then sems[i].waiters + [id] else sems[i].waiters)]
    case SemV(s) =>
      var i := SemIndex(sems, s);
      sems[i := Sem(sems[i].name, sems[i].S + 1, if sems[i].S < 0 then sems[i].waiters[1..] else sems[i].waiters)]
    case _ => sems
  }

  lemma EvalSems(k: KState, instr: Instr)
    requires Linked(k) && k.q.cur.Some? && Answerable(k, instr)
    ensures var k' := Eval(k, instr);
            k'.sems == SemsAfter(k.sems, instr, k.q.cur.value) && k'.nextId == k.nextId && k'.table == k.table
  {
  }

  /** The invariant between value and queue is kept, and the value counts requests and releases. */
  lemma SemsAfterOk(sems: seq<Sem>, instr: Instr, id: Id)
    requires SemsOk(sems) && Uses(instr, sems)
    ensures var sems' := SemsAfter(sems, instr, id);
            SemsOk(sems') && SameNames(sems, sems') && |sems'| == |sems|
  {
  }

  lemma SemsAfterAt(sems: seq<Sem>, instr: Instr, id: Id, i: nat)
    requires SemsOk(sems) && Uses(instr, sems) && i < |sems|
    ensures var sem := SemsAfter(sems, instr, id)[i];
            && sem.S == sems[i].S - Delta(instr, sems[i].name)
            && (forall w | w in sem.waiters :: w in sems[i].waiters || (w == id && instr == SemP(sems[i].name)))
  {
    SemIndexOf(sems, i);
  }

  lemma EvalProcsOk(k: KState, instr: Instr)
    requires Linked(k) && k.q.cur.Some? && Answerable(k, instr) && SemInv(k) && Uses(instr, k.sems)
    ensures ProcsOk(Eval(k, instr))
  {
    var k' := Eval(k, instr);
    EvalSems(k, instr);
    SemsAfterOk(k.sems, instr, k.q.cur.value);
    EvalCode(k, instr, k.q.cur.value);
    forall id | id in k.q.procs
      ensures ProcOk(k'.q.procs[id], k'.sems)
    {
      EvalCode(k, instr, id);
      ProcOkKept(k.q.procs[id], k'.q.procs[id], k.sems, k'.sems);
    }
  }

  lemma EvalAskedAt(k: KState, instr: Instr, i: nat, id: Id)
    requires Linked(k) && k.q.cur.Some? && Answerable(k, instr) && SemInv(k) && Uses(instr, k.sems)
    requires JustFetched(k.q.procs[k.q.cur.value], instr)
    requires i < |k.sems| && id in SemsAfter(k.sems, instr, k.q.cur.value)[i].waiters
    ensures id in Eval(k, instr).q.procs && JustFetched(Eval(k, instr).q.procs[id], SemP(k.sems[i].name))
  {
    SemsAfterAt(k.sems, instr, k.q.cur.value, i);
    EvalCode(k, instr, id);
  }

  lemma EvalSemInv(k: KState, instr: Instr)
    requires Linked(k) && k.q.cur.Some? && Answerable(k, instr) && SemInv(k) && Uses(instr, k.sems)
    requires JustFetched(k.q.procs[k.q.cur.value], instr)
    ensures SemInv(Eval(k, instr))
  {
    var k' := Eval(k, instr);
    EvalSems(k, instr);
    SemsAfterOk(k.sems, instr, k.q.cur.value);
    EvalProcsOk(k, instr);
    forall i, id | 0 <= i < |k'.sems| && id in k'.sems[i].waiters
      ensures id in k'.q.procs && JustFetched(k'.q.procs[id], SemP(k'.sems[i].name))
    {
      EvalAskedAt(k, instr, i, id);
    }
  }

  /** A registered semaphore answers every request and release: a release that must wake finds a waiter. */
  lemma AlwaysAnswerable(k: KState, instr: Instr)
    requires SemsOk(k.sems) && Uses(instr, k.sems)
    ensures Answerable(k, instr)
  {
  }

  /** Steps that leave the semaphores and the waiters alone keep the invariant. */
  lemma SemInvFrame(k: KState, k': KState)
    requires SemInv(k) && k'.sems == k.sems && k'.nextId == k.nextId
    requires forall id | id in k'.q.procs ::
               id in k.q.procs && k'.q.procs[id].code == k.q.procs[id].code && k'.q.procs[id].pc <= |k.q.procs[id].code|
    requires forall i, id | 0 <= i < |k.sems| && id in k.sems[i].waiters ::
               id in k'.q.procs && k.q.procs[id].pc == k'.q.procs[id].pc
    ensures SemInv(k')
  {
    forall id | id in k'.q.procs
      ensures ProcOk(k'.q.procs[id], k'.sems)
    {
      assert ProcOk(k.q.procs[id], k.sems);
    }
  }

  lemma CreateSemInv(k: KState, p: Prog)
    requires SemInv(k) && ValidProg(p) && k.nextId !in k.q.procs && Create(k, p).Running?
    ensures SemInv(Create(k, p).k)
  {
    var k' := Create(k, p).k;
    RegisterAllOk(k.sems, p.sems);
    forall id | id in k'.q.procs
      ensures ProcOk(k'.q.procs[id], k'.sems)
    {
      if id != k.nextId {
        ProcOkKept(k.q.procs[id], k'.q.procs[id], k.sems, k'.sems);
      }
    }
    forall i, id | 0 <= i < |k'.sems| && id in k'.sems[i].waiters
      ensures id in k'.q.procs && JustFetched(k'.q.procs[id], SemP(k'.sems[i].name))
    {
      assert i < |k.sems| && k'.sems[i] == k.sems[i];
    }
  }

  /** A creation succeeds exactly when every semaphore that the code names is then registered. */
  lemma CreateRuns(k: KState, p: Prog)
    ensures Create(k, p).Running? <==> forall i | 0 <= i < |p.code| :: Uses(p.code[i], RegisterAll(k.sems, p.sems))
    ensures !Create(k, p).Running? ==> Create(k, p).Exit?
  {
    var sems := RegisterAll(k.sems, p.sems);
    if i :| 0 <= i < |p.code| && !Uses(p.code[i], sems) {
      assert (p.code[i].SemP? || p.code[i].SemV?) && !Registered(sems, p.code[i].sem);
    } else {
      forall i | 0 <= i < |p.code|
        ensures !((p.code[i].SemP? || p.code[i].SemV?) && !Registered(sems, p.code[i].sem))
      {
        assert Uses(p.code[i], sems);
      }
    }
  }

  lemma {:induction false} RegisterAllHas(sems: seq<Sem>, names: seq<string>, x: string)
    ensures Registered(RegisterAll(sems, names), x) <==> Registered(sems, x) || x in names
    decreases |names|
  {
    if names != [] {
      RegisterHas(sems, names[0], x);
      RegisterAllHas(Register(sems, names[0]), names[1..], x);
    }
  }

  lemma {:induction false} RegisterHas(sems: seq<Sem>, name: string, x: string)
    ensures Registered(Register(sems, name), x) <==> Registered(sems, x) || x == name
  {
    AppendIndex(sems, Sem(name, 1, []), x);
  }

  lemma {:induction false} AppendIndex(sems: seq<Sem>, sem: Sem, x: string)
    ensures Registered(sems + [sem], x) <==> Registered(sems, x) || x == sem.name
  {
    if sems != [] {
      assert (sems + [sem])[1..] == sems[1..] + [sem];
      AppendIndex(sems[1..], sem, x);
    }
  }
}
