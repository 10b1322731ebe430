/** Every live process is in exactly one place, and the blocked ones are exactly those that wait for a semaphore
    or for the disk. Places are counted, so that "exactly one" is an equation. */
module Partition {
  import opened KernelState

  function Occurs(s: seq<Id>, x: Id): nat {
    if s == [] then 0 else (if s[0] == x then 1 else 0) + Occurs(s[1..], x)
  }

  function OnCpu(cur: Option<Id>, x: Id): nat {
    if cur == Some(x) then 1 else 0
  }

  /** In how many places of the scheduler x stands. */
  function Places(q: Sched, x: Id): nat {
    OnCpu(q.cur, x) + Occurs(q.high, x) + Occurs(q.low, x) + Occurs(q.blocked, x)
  }

  function Waits(sems: seq<Sem>, x: Id): nat {
    if sems == [] then 0 else Occurs(sems[0].waiters, x) + Waits(sems[1..], x)
  }

  function Requests(pending: seq<Request>, x: Id): nat {
    if pending == [] then 0 else (if pending[0].proc == x then 1 else 0) + Requests(pending[1..], x)
  }

  /** The exact partition of the live processes, and of the blocked ones among them. */
  ghost predicate Partitioned(k: KState) {
    forall x: Id :: PartitionedAt(k, x)
  }

  predicate PartitionedAt(k: KState, x: Id) {
    && Occurs(k.table, x) == (if x in k.q.procs then 1 else 0)
    && Places(k.q, x) == (if x in k.q.procs then 1 else 0)
    && Occurs(k.q.blocked, x) == Waits(k.sems, x) + Requests(k.disk.pending, x)
  }

  // ------------------------------------------------------------ counting

  lemma {:induction false} OccursIn(s: seq<Id>, x: Id)
    ensures Occurs(s, x) > 0 <==> x in s
  {
    if s != [] {
      OccursIn(s[1..], x);
    }
  }

  lemma {:induction false} OccursAppend(s: seq<Id>, t: seq<Id>, x: Id)
    ensures Occurs(s + t, x) == Occurs(s, x) + Occurs(t, x)
  {
    if s == [] {
      assert s + t == t;
    } else {
      assert (s + t)[1..] == s[1..] + t;
      OccursAppend(s[1..], t, x);
    }
  }

  lemma {:induction false} OccursRemove(s: seq<Id>, y: Id, x: Id)
    ensures Occurs(Remove(s, y), x) == if x == y && x in s then Occurs(s, x) - 1 else Occurs(s, x)
  {
    if s != [] {
      OccursIn(s, x);
      OccursRemove(s[1..], y, x);
    }
  }

  lemma {:induction false} OccursOnce(s: seq<Id>, i: nat, j: nat)
    requires i < j < |s| && s[i] == s[j]
    ensures Occurs(s, s[i]) >= 2
  {
    if i == 0 {
      OccursIn(s[1..], s[0]);
    } else {
      OccursOnce(s[1..], i - 1, j - 1);
    }
  }

  lemma {:induction false} WaitsUpdate(sems: seq<Sem>, i: nat, sem: Sem, x: Id)
    requires i < |sems|
    ensures Waits(sems[i := sem], x) + Occurs(sems[i].waiters, x) == Waits(sems, x) + Occurs(sem.waiters, x)
  {
    if i == 0 {
      assert sems[i := sem][1..] == sems[1..];
    } else {
      assert sems[i := sem][1..] == sems[1..][i - 1 := sem];
      WaitsUpdate(sems[1..], i - 1, sem, x);
    }
  }

  lemma {:induction false} WaitsAppend(sems: seq<Sem>, sem: Sem, x: Id)
    ensures Waits(sems + [sem], x) == Waits(sems, x) + Occurs(sem.waiters, x)
  {
    if sems != [] {
      assert (sems + [sem])[1..] == sems[1..] + [sem];
      WaitsAppend(sems[1..], sem, x);
    }
  }

  lemma {:induction false} WaitsAtLeast(sems: seq<Sem>, i: nat, x: Id)
    requires i < |sems|
    ensures Waits(sems, x) >= Occurs(sems[i].waiters, x)
  {
    if i > 0 {
      WaitsAtLeast(sems[1..], i - 1, x);
    }
  }

  lemma {:induction false} WaitsSomewhere(sems: seq<Sem>, x: Id) returns (i: nat)
    requires Waits(sems, x) > 0
    ensures i < |sems| && x in sems[i].waiters
  {
    OccursIn(sems[0].waiters, x);
    if x in sems[0].waiters {
      i := 0;
    } else {
      i := WaitsSomewhere(sems[1..], x);
      i := i + 1;
    }
  }

  lemma {:induction false} WaitsTwice(sems: seq<Sem>, i: nat, j: nat, x: Id)
    requires i < j < |sems| && x in sems[i].waiters && x in sems[j].waiters
    ensures Waits(sems, x) >= 2
  {
    if i == 0 {
      OccursIn(sems[0].waiters, x);
      OccursIn(sems[j].waiters, x);
      WaitsAtLeast(sems[1..], j - 1, x);
    } else {
      WaitsTwice(sems[1..], i - 1, j - 1, x);
    }
  }

  lemma {:induction false} RequestsAppend(pending: seq<Request>, r: Request, x: Id)
    ensures Requests(pending + [r], x) == Requests(pending, x) + if r.proc == x then 1 else 0
  {
    if pending != [] {
      assert (pending + [r])[1..] == pending[1..] + [r];
      RequestsAppend(pending[1..], r, x);
    }
  }

  lemma {:induction false} RequestsIn(pending: seq<Request>, x: Id)
    ensures Requests(pending, x) > 0 <==> exists r :: r in pending && r.proc == x
  {
    if pending != [] {
      RequestsIn(pending[1..], x);
    }
  }

  lemma {:induction false} RequestsSplit(pending: seq<Request>, track: int, x: Id)
    ensures Requests(pending, x) == Occurs(Served(pending, track), x) + Requests(NotOn(pending, track), x)
  {
    if pending != [] {
      RequestsSplit(pending[1..], track, x);
      if pending[0].track == track {
        assert [] + NotOn(pending[1..], track) == NotOn(pending[1..], track);
      } else {
        assert [] + Served(pending[1..], track) == Served(pending[1..], track);
      }
    }
  }

  // ------------------------------------------------------------ what the scheduler does to the places

  predicate Blocks(flag: Flag) {
    flag == IO_REQUESTED || flag == SEMAPHORE_BLOCKED
  }

  lemma TakePlaces(q: Sched, x: Id)
    requires Known(q)
    ensures var (next, taken) := Take(q);
            && Places(taken, x) + OnCpu(next, x) == Places(q, x)
            && taken.cur == q.cur && taken.blocked == q.blocked && taken.procs.Keys == q.procs.Keys
  {
  }

  lemma ParkPlaces(q: Sched, flag: Flag, x: Id)
    requires q.cur.Some? ==> q.cur.value in q.procs
    ensures var parked := Park(q, flag);
            && Places(parked, x) == (if flag == NONE then Places(q, x) else Places(q, x) + OnCpu(q.cur, x))
            && parked.blocked == (if q.cur.Some? && Blocks(flag) then q.blocked + [q.cur.value] else q.blocked)
            && parked.procs.Keys == q.procs.Keys && parked.cur == q.cur
  {
    if q.cur.Some? {
      OccursAppend(q.blocked, [q.cur.value], x);
      OccursAppend(q.high, [q.cur.value], x);
    }
  }

  lemma SchedulePlaces(q: Sched, flag: Flag, x: Id)
    requires Known(q)
    ensures var s := Schedule(q, flag);
            && Places(s, x) == (if flag == NONE then Places(q, x) - OnCpu(q.cur, x) else Places(q, x))
            && s.blocked == (if q.cur.Some? && Blocks(flag) then q.blocked + [q.cur.value] else q.blocked)
            && s.procs.Keys == q.procs.Keys
  {
    var (next, taken) := Take(q);
    TakePlaces(q, x);
    ParkPlaces(taken, flag, x);
  }

  lemma UnblockPlaces(q: Sched, id: Id, toHigh: bool, x: Id)
    requires id in q.blocked
    ensures Places(Unblock(q, id, toHigh), x) == Places(q, x)
    ensures Occurs(Unblock(q, id, toHigh).blocked, x) == Occurs(q.blocked, x) - if x == id then 1 else 0
  {
    OccursIn(q.blocked, x);
    OccursRemove(q.blocked, id, x);
    OccursAppend(q.high, [id], x);
    OccursAppend(q.low, [id], x);
  }
}
