/** Process records (process/process.h) and the scheduler of sched/sched.c, updated in place. */
module Scheduling {
  import opened Program
  import opened KernelState

  class Process {
    const id: Id
    const segId: int
    const segSize: int
    const priority: int
    const codeLen: nat
    ghost const code: seq<Instr>
    var pc: nat
    var remaining: int
    var state: ProcState
    var oFiles: seq<int>

    ghost function View(): Proc
      reads this`pc, this`remaining, this`state
    {
      Proc(code, segId, pc, remaining, state)
    }

    constructor (id: Id, p: Prog)
      ensures this.id == id && segId == p.segId && segSize == p.segSize && priority == p.priority
      ensures codeLen == |code| && oFiles == [] && View() == Proc(p.code, p.segId, 0, 0, NEW)
    {
      this.id, segId, segSize, priority, codeLen := id, p.segId, p.segSize, p.priority, |p.code|;
      code := p.code;
      pc, remaining, state, oFiles := 0, 0, NEW, [];
    }
  }

  ghost function Ids(s: seq<Process>): (r: seq<Id>)
    ensures |r| == |s| && forall i | 0 <= i < |s| :: r[i] == s[i].id
  {
    seq(|s|, i requires 0 <= i < |s| => s[i].id)
  }

  lemma IdsAppend(s: seq<Process>, p: Process)
    ensures Ids(s + [p]) == Ids(s) + [p.id]
  {
  }

  lemma IdsWithout(s: seq<Process>, at: nat)
    requires at < |s|
    ensures Ids(s[..at] + s[at + 1..]) == Ids(s)[..at] + Ids(s)[at + 1..]
  {
  }

  /** list_search with proc_cmp: the place of the first process with that id. */
  method SearchProc(s: seq<Process>, proc: Process) returns (at: nat)
    ensures at <= |s| && (forall i | 0 <= i < at :: s[i].id != proc.id) && (at < |s| ==> s[at].id == proc.id)
  {
    at := 0;
    while at < |s|
      invariant at <= |s| && forall i | 0 <= i < at :: s[i].id != proc.id
    {
      if s[at].id == proc.id {
        return;
      }
      at := at + 1;
    }
  }

  lemma ShiftedWithout(s: seq<Id>, at: nat)
    requires 0 < at < |s|
    ensures [s[0]] + (s[1..][..at - 1] + s[1..][at..]) == s[..at] + s[at + 1..]
  {
  }

  lemma {:induction false} RemoveAt(s: seq<Id>, x: Id, at: nat)
    requires at <= |s| && (forall i | 0 <= i < at :: s[i] != x) && (at < |s| ==> s[at] == x)
    ensures Remove(s, x) == if at < |s| then s[..at] + s[at + 1..] else s
  {
    if at == 0 {
      assert s != [] ==> s[..0] + s[1..] == s[1..];
    } else {
      RemoveAt(s[1..], x, at - 1);
      if at < |s| {
        ShiftedWithout(s, at);
      }
    }
  }

  /** list_search and list_remove_node together: the list without the first process that has that id. */
  method Extract(s: seq<Process>, proc: Process) returns (rest: seq<Process>, found: bool)
    ensures Ids(rest) == Remove(Ids(s), proc.id) && (forall i | 0 <= i < |rest| :: rest[i] in s)
    ensures found <==> proc.id in Ids(s)
    ensures !found ==> rest == s
  {
    var at := SearchProc(s, proc);
    RemoveAt(Ids(s), proc.id, at);
    found := at < |s|;
    rest := s;
    if found {
      IdsWithout(s, at);
      rest := s[..at] + s[at + 1..];
    }
  }

  ghost function Enlisted(q: Sched, id: Id, priority: int): Sched
    requires id in q.procs
  {
    Placed(SetState(q, id, READY), id, priority)
  }

  ghost predicate Among(live: map<Id, Process>, p: Process) {
    p.id in live && live[p.id] == p
  }

  /** Every process of a list is one of these. */
  ghost predicate AllAmong(s: seq<Process>, live: map<Id, Process>) {
    forall i | 0 <= i < |s| :: Among(live, s[i])
  }

  lemma AllAmongWith(s: seq<Process>, live: map<Id, Process>, proc: Process)
    requires AllAmong(s, live) && proc.id !in live
    ensures AllAmong(s, live[proc.id := proc]) && AllAmong(s + [proc], live[proc.id := proc])
  {
  }

  lemma AllAmongWithout(s: seq<Process>, live: map<Id, Process>, gone: Id)
    requires AllAmong(s, live) && gone !in Ids(s)
    ensures AllAmong(s, live - {gone})
  {
    forall i | 0 <= i < |s|
      ensures Among(live - {gone}, s[i])
    {
      assert Ids(s)[i] == s[i].id;
    }
  }

  class Scheduler {
    var scheduled: Process?
    var high: seq<Process>
    var low: seq<Process>
    var blocked: seq<Process>
    /** The live processes by id. */
    ghost var live: map<Id, Process>
    /** The scheduler as a value. */
    ghost var contents: Sched

    ghost predicate IsLive(p: Process)
      reads this`live
    {
      Among(live, p)
    }

    ghost predicate ProcsShown()
      reads this`live, this`contents, live.Values`pc, live.Values`remaining, live.Values`state
    {
      && contents.procs.Keys == live.Keys
      && forall id {:trigger live[id]} | id in live ::
           live[id].id == id && live[id].codeLen == |live[id].code| && contents.procs[id] == live[id].View()
    }

    ghost predicate QueuesShown()
      reads this`scheduled, this`high, this`low, this`blocked, this`contents
    {
      && contents.cur == (if scheduled == null then None else Some(scheduled.id))
      && contents.high == Ids(high) && contents.low == Ids(low) && contents.blocked == Ids(blocked)
    }

    ghost predicate Valid()
      reads this`scheduled, this`high, this`low, this`blocked, this`live, this`contents
      reads live.Values`pc, live.Values`remaining, live.Values`state
    {
      && ProcsShown() && QueuesShown()
      && (scheduled != null ==> IsLive(scheduled))
      && AllAmong(high, live) && AllAmong(low, live) && AllAmong(blocked, live)
    }

    /** The objects that its methods change. */
    ghost function Objects(): set<object>
      reads this`live
    {
      {this} + live.Values
    }

    lemma ViewKnown()
      requires Valid()
      ensures Known(contents)
    {
    }

    constructor ()
      ensures Valid() && live == map[] && contents == Init().q && fresh(Objects())
    {
      scheduled, high, low, blocked := null, [], [], [];
      live, contents := map[], Init().q;
    }

    /** proc->remaining = r, for a live process. */
    method Grant(proc: Process, r: int)
      requires Valid() && IsLive(proc)
      modifies this`contents, proc`remaining
      ensures Valid() && contents == SetRemaining(old(contents), proc.id, r)
    {
      proc.remaining := r;
      contents := SetRemaining(contents, proc.id, r);
    }

    method Mark(proc: Process, s: ProcState)
      requires ProcsShown() && IsLive(proc)
      modifies this`contents, proc`state
      ensures ProcsShown() && contents == SetState(old(contents), proc.id, s)
    {
      proc.state := s;
      contents := SetState(contents, proc.id, s);
    }

    method TakeHigh() returns (next: Process)
      requires Valid() && high != []
      modifies this`contents, this`high, live.Values`remaining
      ensures Valid() && IsLive(next) && Known(old(contents)) && (Some(next.id), contents) == Take(old(contents))
    {
      ViewKnown();
      next := high[0];
      high, contents := high[1..], contents.(high := contents.high[1..]);
      Grant(next, Max(1000, Min(HIGH_QUANTUM, next.remaining + HIGH_QUANTUM)));
    }

    method TakeLow() returns (next: Process)
      requires Valid() && high == [] && low != []
      modifies this`contents, this`low, live.Values`remaining
      ensures Valid() && IsLive(next) && Known(old(contents)) && (Some(next.id), contents) == Take(old(contents))
    {
      ViewKnown();
      next := low[0];
      low, contents := low[1..], contents.(low := contents.low[1..]);
      Grant(next, Max(0, Min(LOW_QUANTUM, next.remaining + LOW_QUANTUM)));
    }

    /** The first third of a rescheduling: the next process leaves its queue with a new budget. */
    method TakeNext() returns (next: Process?)
      requires Valid()
      modifies this`contents, this`high, this`low, live.Values`remaining
      ensures Valid() && (next != null ==> IsLive(next))
      ensures Known(old(contents))
      ensures (if next == null then None else Some(next.id), contents) == Take(old(contents))
    {
      ViewKnown();
      next := null;
      if high != [] {
        next := TakeHigh();
      } else if low != [] {
        next := TakeLow();
      }
    }

    /** Where the process that has the CPU goes. */
    method ParkCurrent(flag: Flag)
      requires Valid()
      modifies this`contents, this`high, this`blocked, live.Values`state
      ensures Valid() && Known(old(contents)) && contents == Park(old(contents), flag)
    {
      ViewKnown();
      var current := scheduled;
      if current != null {
        if flag == IO_REQUESTED || flag == SEMAPHORE_BLOCKED {
          blocked, contents := blocked + [current], contents.(blocked := contents.blocked + [current.id]);
          Mark(current, BLOCKED);
        } else if flag == QUANTUM_COMPLETED {
          high, contents := high + [current], contents.(high := contents.high + [current.id]);
          Mark(current, READY);
        }
      }
    }

    method Dispatch(next: Process?)
      requires Valid() && (next != null ==> IsLive(next))
      modifies this`contents, this`scheduled, live.Values`state
      ensures Valid() && (next != null ==> next.id in old(contents).procs)
      ensures contents == Install(old(contents), if next == null then None else Some(next.id))
    {
      if next != null {
        Mark(next, RUNNING);
      }
      scheduled := next;
      contents := contents.(cur := if next == null then None else Some(next.id));
    }

    method ScheduleProcess(flag: Flag)
      requires Valid()
      modifies this`contents, this`scheduled, this`high, this`low, this`blocked, live.Values`remaining, live.Values`state
      ensures Valid() && Known(old(contents)) && contents == Schedule(old(contents), flag)
      ensures old(scheduled) != null ==> IsLive(old(scheduled)) && old(contents).cur == Some(old(scheduled.id))
    {
      var next := TakeNext();
      ParkCurrent(flag);
      Dispatch(next);
    }

    method UnblockProcess(proc: Process, toHigh: bool)
      requires Valid() && IsLive(proc)
      modifies this`contents, this`high, this`low, this`blocked
      ensures Valid() && contents == Unblock(old(contents), proc.id, toHigh)
    {
      var rest, found := Extract(blocked, proc);
      if !found {
        return;
      }
      blocked := rest;
      if toHigh {
        high := high + [proc];
      } else {
        low := low + [proc];
      }
      contents := Unblock(contents, proc.id, toHigh);
    }

    /** A live process has in the view what its fields hold. */
    lemma Shows(proc: Process)
      requires Valid() && IsLive(proc)
      ensures proc.id in contents.procs && contents.procs[proc.id] == proc.View() && proc.codeLen == |proc.code|
    {
    }

    /** proc->remaining -= cost. */
    method Charge(proc: Process, cost: int)
      requires Valid() && IsLive(proc)
      modifies this`contents, proc`remaining
      ensures Valid() && proc.id in old(contents).procs
      ensures contents == SetRemaining(old(contents), proc.id, old(contents).procs[proc.id].remaining - cost)
    {
      Shows(proc);
      Grant(proc, proc.remaining - cost);
    }

    /** What eval takes for an operation on a semaphore. */
    method Pay(proc: Process)
      requires Valid() && IsLive(proc)
      modifies this`contents, proc`remaining
      ensures Valid() && proc.id in old(contents).procs && contents == PayForSem(old(contents), proc.id)
    {
      Shows(proc);
      Grant(proc, Max(0, proc.remaining - 200));
    }

    /** pc++ of the fetch. */
    method Step(proc: Process)
      requires Valid() && IsLive(proc)
      modifies this`contents, proc`pc
      ensures Valid() && proc.id in old(contents).procs && contents == Advance(old(contents), proc.id)
    {
      proc.pc := proc.pc + 1;
      contents := Advance(contents, proc.id);
    }

    /** A new process is live from now on. */
    ghost method Welcome(proc: Process)
      requires Valid() && proc.id !in contents.procs && proc.codeLen == |proc.code|
      modifies this`live, this`contents
      ensures Valid() && proc.id !in old(live) && live == old(live)[proc.id := proc]
      ensures Objects() <= old(Objects()) + {proc}
      ensures contents == old(contents).(procs := old(contents).procs[proc.id := proc.View()])
    {
      AllAmongWith(high, live, proc);
      AllAmongWith(low, live, proc);
      AllAmongWith(blocked, live, proc);
      live := live[proc.id := proc];
      contents := contents.(procs := contents.procs[proc.id := proc.View()]);
    }

    /** It is ready, in the queue that its priority selects. */
    method Enlist(proc: Process)
      requires Valid() && IsLive(proc)
      modifies this`high, this`low, this`contents, proc`state
      ensures Valid() && proc.id in old(contents).procs
      ensures contents == Enlisted(old(contents), proc.id, proc.priority)
    {
      Mark(proc, READY);
      if proc.priority == 1 {
        high, contents := high + [proc], contents.(high := contents.high + [proc.id]);
      } else {
        low, contents := low + [proc], contents.(low := contents.low + [proc.id]);
      }
    }

    /** A finished process leaves the first queue that holds it. */
    method PurgeProcess(proc: Process)
      requires Valid()
      modifies this`high, this`low, this`blocked, this`contents
      ensures Valid() && contents == Purge(old(contents), proc.id)
    {
      contents := Purge(contents, proc.id);
      var rest, found := Extract(high, proc);
      if found {
        high := rest;
        return;
      }
      rest, found := Extract(low, proc);
      if found {
        low := rest;
        return;
      }
      blocked, found := Extract(blocked, proc);
    }

    /** free(proc), once nothing here names it. */
    ghost method Forget(proc: Process)
      requires Valid() && IsLive(proc) && Known(contents.(procs := contents.procs - {proc.id}))
      modifies this`live, this`contents
      ensures Valid() && live == old(live) - {proc.id} && Objects() <= old(Objects())
      ensures contents == old(contents).(procs := old(contents).procs - {proc.id})
    {
      AllAmongWithout(high, live, proc.id);
      AllAmongWithout(low, live, proc.id);
      AllAmongWithout(blocked, live, proc.id);
      live := live - {proc.id};
      contents := contents.(procs := contents.procs - {proc.id});
    }
  }
}
