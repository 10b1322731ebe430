/** The semaphores of semaphore/semaphore.c, updated in place. */
module SemaphoreTables {
  import opened KernelState
  import opened Scheduling

  class Semaphore {
    const name: string
    var S: int
    var waiters: seq<Process>

    ghost function View(): Sem
      reads this`S, this`waiters
    {
      Sem(name, S, Ids(waiters))
    }

    constructor (name: string, S: int)
      ensures View() == Sem(name, S, []) && this.name == name && waiters == []
    {
      this.name, this.S, waiters := name, S, [];
    }

    /** Request: the process on the CPU joins the waiters and goes to sleep if there is no value left. */
    method P(sched: Scheduler)
      requires sched.Valid() && sched.scheduled != null
      modifies this, sched`contents, sched`scheduled, sched`high, sched`low, sched`blocked
      modifies sched.live.Values`remaining, sched.live.Values`state
      ensures sched.Valid() && Known(old(sched.contents)) && old(sched.contents).cur.Some?
      ensures waiters == if old(S) - 1 < 0 then old(waiters) + [old(sched.scheduled)] else old(waiters)
      ensures View() == Sem(name, old(S) - 1,
                            if old(S) - 1 < 0 then old(View()).waiters + [old(sched.contents).cur.value]
                            else old(View()).waiters)
      ensures sched.contents ==
              if old(S) - 1 < 0 then Schedule(old(sched.contents), SEMAPHORE_BLOCKED) else old(sched.contents)
    {
      sched.ViewKnown();
      S := S - 1;
      if S < 0 {
        IdsAppend(waiters, sched.scheduled);
        waiters := waiters + [sched.scheduled];
        sched.ScheduleProcess(SEMAPHORE_BLOCKED);
      }
    }

    /** Release: the process that waits longest is woken, if anybody waits. */
    method V(sched: Scheduler)
      requires sched.Valid() && (S < 0 ==> waiters != [] && sched.IsLive(waiters[0]))
      modifies this, sched`contents, sched`high, sched`low, sched`blocked
      ensures sched.Valid()
      ensures waiters == if old(S) + 1 <= 0 then old(waiters)[1..] else old(waiters)
      ensures View() == Sem(name, old(S) + 1, if old(S) + 1 <= 0 then old(View()).waiters[1..] else old(View()).waiters)
      ensures sched.contents ==
              if old(S) + 1 <= 0 then Unblock(old(sched.contents), old(View()).waiters[0], true) else old(sched.contents)
    {
      S := S + 1;
      if S <= 0 {
        var proc := waiters[0];
        waiters := waiters[1..];
        sched.UnblockProcess(proc, true);
      }
    }
  }

  class SemaphoreTable {
    var table: seq<Semaphore>
    /** The semaphores as values. */
    ghost var contents: seq<Sem>

    ghost predicate Valid()
      reads this`table, this`contents, table`S, table`waiters
    {
      && |contents| == |table| && (forall i {:trigger table[i]} | 0 <= i < |table| :: contents[i] == table[i].View())
      && forall i, j | 0 <= i < j < |table| :: table[i] != table[j]
    }

    /** The objects that its methods change. */
    ghost function Objects(): set<object>
      reads this`table
    {
      {this} + set s: Semaphore | s in table
    }

    constructor ()
      ensures Valid() && contents == [] && table == [] && fresh(Objects())
    {
      table, contents := [], [];
    }

    /** The place of the semaphore with that name; the length of the table if there is none. */
    method Find(name: string) returns (at: nat)
      requires Valid()
      ensures at == SemIndex(contents, name)
    {
      at := 0;
      while at < |table|
        invariant at <= |table| && forall i | 0 <= i < at :: contents[i].name != name
      {
        if table[at].name == name {
          FirstIs(contents, name, at);
          return;
        }
        at := at + 1;
      }
      FirstIs(contents, name, at);
    }

    /** Every waiter is one of these processes. */
    ghost predicate WaitersAmong(live: map<Id, Process>)
      reads this`table, table`waiters
    {
      forall i | 0 <= i < |table| :: AllAmong(table[i].waiters, live)
    }

    lemma WaitersKnown(live: map<Id, Process>)
      requires Valid() && WaitersAmong(live)
      ensures forall i | 0 <= i < |contents| :: forall id | id in contents[i].waiters :: id in live
    {
      forall i, id | 0 <= i < |contents| && id in contents[i].waiters
        ensures id in live
      {
        assert contents[i].waiters == Ids(table[i].waiters);
        var j :| 0 <= j < |contents[i].waiters| && contents[i].waiters[j] == id;
        assert Among(live, table[i].waiters[j]);
      }
    }

    lemma WaitersWith(live: map<Id, Process>, proc: Process)
      requires WaitersAmong(live) && proc.id !in live
      ensures WaitersAmong(live[proc.id := proc])
    {
      forall i | 0 <= i < |table|
        ensures AllAmong(table[i].waiters, live[proc.id := proc])
      {
        AllAmongWith(table[i].waiters, live, proc);
      }
    }

    lemma WaitersWithout(live: map<Id, Process>, gone: Id)
      requires Valid() && WaitersAmong(live) && forall i | 0 <= i < |contents| :: gone !in contents[i].waiters
      ensures WaitersAmong(live - {gone})
    {
      forall i | 0 <= i < |table|
        ensures AllAmong(table[i].waiters, live - {gone})
      {
        assert contents[i].waiters == Ids(table[i].waiters);
        AllAmongWithout(table[i].waiters, live, gone);
      }
    }

    method RequestAt(at: nat, sched: Scheduler)
      requires Valid() && sched.Valid() && WaitersAmong(sched.live) && sched.scheduled != null && at < |table|
      modifies this`contents, table[at], sched`contents, sched`scheduled, sched`high, sched`low, sched`blocked
      modifies sched.live.Values`remaining, sched.live.Values`state
      ensures Valid() && sched.Valid() && WaitersAmong(sched.live)
      ensures Known(old(sched.contents)) && old(sched.contents).cur.Some?
      ensures var sem, asleep := old(contents)[at], old(contents)[at].S - 1 < 0;
              && contents == old(contents)[at := Sem(sem.name, sem.S - 1,
                                                     if asleep then sem.waiters + [old(sched.contents).cur.value]
                                                     else sem.waiters)]
              && sched.contents == if asleep then Schedule(old(sched.contents), SEMAPHORE_BLOCKED) else old(sched.contents)
    {
      ghost var current := sched.scheduled;
      assert Among(sched.live, current);
      hide Scheduler.Valid, Schedule;
      table[at].P(sched);
      assert AllAmong(old(table[at].waiters), sched.live);
      assert AllAmong(table[at].waiters, sched.live);
      contents := contents[at := table[at].View()];
    }

    method ReleaseAt(at: nat, sched: Scheduler)
      requires Valid() && sched.Valid() && WaitersAmong(sched.live)
      requires at < |table| && (contents[at].S < 0 ==> contents[at].waiters != [])
      modifies this`contents, table[at], sched`contents, sched`high, sched`low, sched`blocked
      ensures Valid() && sched.Valid() && WaitersAmong(sched.live)
      ensures var sem, wakes := old(contents)[at], old(contents)[at].S + 1 <= 0;
              && contents == old(contents)[at := Sem(sem.name, sem.S + 1, if wakes then sem.waiters[1..] else sem.waiters)]
              && sched.contents == if wakes then Unblock(old(sched.contents), sem.waiters[0], true) else old(sched.contents)
    {
      hide Scheduler.Valid, Unblock;
      table[at].V(sched);
      contents := contents[at := table[at].View()];
    }

    /** Registers a new semaphore with value 1, unless the name is taken. */
    method AddNew(name: string)
      requires Valid()
      modifies this
      ensures Valid() && contents == Register(old(contents), name)
      ensures forall o | o in Objects() :: o in old(Objects()) || fresh(o)
      ensures table == old(table) || (|table| == |old(table)| + 1 && old(table) == table[..|old(table)|]
                                      && fresh(table[|old(table)|]) && table[|old(table)|].waiters == [])
    {
      var at := Find(name);
      if at < |table| {
        return;
      }
      var sem := new Semaphore(name, 1);
      table, contents := table + [sem], contents + [sem.View()];
    }
  }

  lemma {:induction false} FirstIs(sems: seq<Sem>, name: string, at: nat)
    requires at <= |sems| && (forall i | 0 <= i < at :: sems[i].name != name) && (at < |sems| ==> sems[at].name == name)
    ensures SemIndex(sems, name) == at
  {
    if at > 0 {
      FirstIs(sems[1..], name, at - 1);
    }
  }
}
