/** The whole effect of every step, told from the state before and the state after: which queue a process leaves and
    where it is put, what it pays, which record, file, page and segment changes, and that nothing else does. */
module Effects {
  import opened Program
  import opened Scan
  import opened KernelState
  import opened Partition
  import opened Placement
  import opened Budget
  import opened Semaphores
  import opened FileCounts
  import opened SegmentFacts
  import opened Runs
  import opened Steps
  import opened Histories

  // ------------------------------------------------------------ how the CPU changes hands

  /** Who is next: the head of the high queue, else of the low one. */
  function Head(q: Sched): Option<Id> {
    if q.high != [] then Some(q.high[0]) else if q.low != [] then Some(q.low[0]) else None
  }

  /** The next process gets the CPU and leaves its queue, from the front; some processes join the high queue, the low
      or the blocked one, at the end; the order of all the others stays. */
  predicate ChangesHands(q: Sched, q': Sched, toHigh: seq<Id>, toLow: seq<Id>, toBlocked: seq<Id>) {
    && q'.cur == Head(q)
    && q'.high == (if q.high != [] then q.high[1..] else []) + toHigh
    && q'.low == (if q.high == [] && q.low != [] then q.low[1..] else q.low) + toLow
    && q'.blocked == q.blocked + toBlocked
  }

  /** The record of a process that is given the CPU: a budget of 1000 from the high queue, and a renewed one of at
      most 2000, never below zero, from the low queue. */
  function Renewed(q: Sched, p: Proc): Proc {
    p.(state := RUNNING, remaining := if q.high != [] then 1000 else Max(0, Min(2000, p.remaining + 2000)))
  }

  /** Process id now has record p, the next process is renewed, and no other record changes. */
  ghost predicate RecordsMove(q: Sched, q': Sched, id: Id, p: Proc) {
    && q'.procs.Keys == q.procs.Keys && id in q.procs && q'.procs[id] == p
    && forall x | x in q.procs && x != id ::
         q'.procs[x] == if Head(q) == Some(x) then Renewed(q, q.procs[x]) else q.procs[x]
  }

  function CurAsSeq(q: Sched): seq<Id> {
    if q.cur.Some? then [q.cur.value] else []
  }

  /** For every flag: the preempted process goes to the end of the high queue, the blocked one to the end of the
      blocked queue, and with no flag the process that had the CPU goes nowhere. */
  lemma ScheduleQueues(q: Sched, flag: Flag)
    requires Known(q)
    ensures ChangesHands(q, Schedule(q, flag),
                         if flag == QUANTUM_COMPLETED then CurAsSeq(q) else [], [],
                         if flag == IO_REQUESTED || flag == SEMAPHORE_BLOCKED then CurAsSeq(q) else [])
  {
  }

  function StateAfter(flag: Flag, s: ProcState): ProcState {
    match flag
    case NONE => s
    case QUANTUM_COMPLETED => READY
    case _ => BLOCKED
  }

  /** For every flag: the record of the process that had the CPU changes in its state only, the next one is renewed. */
  lemma ScheduleRecords(k: KState, flag: Flag)
    requires Partitioned(k) && Known(k.q) && k.q.cur.Some?
    ensures var (id, p) := (k.q.cur.value, k.q.procs[k.q.cur.value]);
            RecordsMove(k.q, Schedule(k.q, flag), id, p.(state := StateAfter(flag, p.state)))
  {
    hide Schedule, Partitioned;
    var id, s := k.q.cur.value, Schedule(k.q, flag);
    SchedulePlaces(k.q, flag, id);
    ScheduleQueues(k.q, flag);
    ScheduleEffect(k, flag, id);
    forall x | x in k.q.procs && x != id
      ensures s.procs[x] == if Head(k.q) == Some(x) then Renewed(k.q, k.q.procs[x]) else k.q.procs[x]
    {
      ScheduleEffect(k, flag, x);
    }
  }

  // ------------------------------------------------------------ the CPU loop

  /** The closing test of the do-while, with code left: a process with budget left keeps the CPU and nothing changes;
      one whose budget is used up leaves the CPU for the end of the high queue, ready and with its budget as it is,
      and the next process has the CPU. */
  lemma ClosingTest(k: KState, gate: bool)
    requires Inv(k) && k.atTest && CanFetch(k)
    ensures Next(k, Cpu(gate)).Running?
    ensures var (k', id) := (Next(k, Cpu(gate)).k, k.q.cur.value);
            var p := k.q.procs[id];
            && k' == k.(q := k'.q, atTest := false)
            && (p.remaining > 0 ==> k'.q == k.q)
            && (p.remaining <= 0 ==>
                  ChangesHands(k.q, k'.q, [id], [], []) && RecordsMove(k.q, k'.q, id, p.(state := READY)))
  {
    InvLinked(k);
    CpuStepInv(k, gate);
    ScheduleQueues(k.q, QUANTUM_COMPLETED);
    ScheduleRecords(k, QUANTUM_COMPLETED);
  }

  /** At the head of the loop: an idle CPU gets the next process, and a loaded one whose gate is closed goes on to the
      closing test as it is. */
  lemma LoopHeadEffect(k: KState, gate: bool)
    requires Inv(k) && !k.atTest && (k.q.cur.Some? ==> !gate)
    ensures Next(k, Cpu(gate)).Running?
    ensures var k' := Next(k, Cpu(gate)).k;
            if k.q.cur.Some? then k' == k.(atTest := true)
            else
              && k' == k.(q := k'.q) && ChangesHands(k.q, k'.q, [], [], []) && k'.q.procs.Keys == k.q.procs.Keys
              && forall x | x in k.q.procs ::
                   k'.q.procs[x] == if Head(k.q) == Some(x) then Renewed(k.q, k.q.procs[x]) else k.q.procs[x]
  {
    hide Schedule, Partitioned;
    InvLinked(k);
    ScheduleQueues(k.q, NONE);
    SchedulePlaces(k.q, NONE, 0);
    if k.q.cur.None? {
      forall x | x in k.q.procs
        ensures Schedule(k.q, NONE).procs[x] ==
                if Head(k.q) == Some(x) then Renewed(k.q, k.q.procs[x]) else k.q.procs[x]
      {
        ScheduleEffect(k, NONE, x);
      }
    }
  }

  /** Segment i, and no other, has left the table, and its size is free again, up to the whole memory. */
  predicate SegmentGone(t: Segs, t': Segs, id: int, i: nat) {
    && i < |t.list| && t.list[i].id == id && t'.list == t.list[..i] + t.list[i + 1..] && t'.listSize == t.listSize
    && t'.remaining == Min(MAX_MEM_SIZE, t.remaining + t.list[i].size)
  }

  /** The next process has the CPU, and process id is in no queue and no table. */
  ghost predicate ProcessGone(k: KState, k': KState, id: Id) {
    && ChangesHands(k.q, k'.q, [], [], []) && k'.q.procs.Keys == k.q.procs.Keys - {id}
    && (forall x | x in k.q.procs && x != id ::
          k'.q.procs[x] == if Head(k.q) == Some(x) then Renewed(k.q, k.q.procs[x]) else k.q.procs[x])
    && k'.files.open == k.files.open - {id} && id !in k'.table
    && k'.sems == k.sems && k'.disk == k.disk && k'.nextId == k.nextId && !k'.atTest
  }

  lemma FinishSegment(k: KState) returns (i: nat)
    requires Inv(k) && k.q.cur.Some?
    ensures Linked(k) && Finish(k).Running? && k.q.cur.value in k.q.procs
    ensures SegmentGone(k.segs, Finish(k).k.segs, k.q.procs[k.q.cur.value].segId, i)
  {
    FinishInv(k);
    i := SegIndex(k.segs.list, k.q.procs[k.q.cur.value].segId);
  }

  lemma Schedulable(k: KState)
    requires Inv(k) && k.q.cur.Some?
    ensures Linked(k) && Known(k.q) && Partitioned(k) && k.q.cur.value in k.q.procs
  {
    InvLinked(k);
  }

  lemma NotInTable(k: KState, id: Id)
    requires Inv(k) && id !in k.q.procs
    ensures id !in k.table
  {
    assert PartitionedAt(k, id);
    OccursIn(k.table, id);
  }

  lemma ScheduledAway(k: KState)
    requires Inv(k) && k.q.cur.Some?
    ensures Known(k.q) && k.q.cur.value in k.q.procs
    ensures var (s, id) := (Schedule(k.q, NONE), k.q.cur.value);
            && ChangesHands(k.q, s, [], [], []) && s.procs.Keys == k.q.procs.Keys
            && forall x | x in k.q.procs && x != id ::
                 s.procs[x] == if Head(k.q) == Some(x) then Renewed(k.q, k.q.procs[x]) else k.q.procs[x]
  {
    InvLinked(k);
    ScheduleQueues(k.q, NONE);
    ScheduleRecords(k, NONE);
  }

  lemma FinishProcess(k: KState)
    requires Inv(k) && k.q.cur.Some? && !k.atTest
    ensures Linked(k) && Finish(k).Running? && ProcessGone(k, Finish(k).k, k.q.cur.value)
  {
    hide Inv, Finish, Schedule, Linked, Known, Renewed, Head;
    FinishRuns(k);
    FinishInv(k);
    ScheduledAway(k);
    NotInTable(Finish(k).k, k.q.cur.value);
  }

  /** At the end of a process: the next one gets the CPU, the finished one is in no queue and no table, and its segment
      is given back. */
  lemma TeardownEffect(k: KState, gate: bool) returns (i: nat)
    requires Inv(k) && k.atTest && k.q.cur.Some? && !CanFetch(k)
    ensures Next(k, Cpu(gate)).Running? && k.q.cur.value in k.q.procs
    ensures ProcessGone(k, Next(k, Cpu(gate)).k, k.q.cur.value)
    ensures SegmentGone(k.segs, Next(k, Cpu(gate)).k.segs, k.q.procs[k.q.cur.value].segId, i)
  {
    hide Inv, Linked, Known, Partitioned, Finish, ChangesHands, Head, Renewed, SegmentGone, Schedule;
    Schedulable(k);
    ControlInv(k, false);
    FinishProcess(k.(atTest := false));
    i := FinishSegment(k.(atTest := false));
  }

  // ------------------------------------------------------------ one instruction

  /** The step executes that instruction of the process on the CPU. */
  ghost predicate Performs(k: KState, instr: Instr) {
    Inv(k) && Executes(k, Cpu(true)) && CanFetch(k) && Current(k) == instr
  }

  /** The record of the process on the CPU, past the instruction. */
  function Past(k: KState): Proc
    requires CanFetch(k)
  {
    var p := k.q.procs[k.q.cur.value];
    p.(pc := p.pc + 1)
  }

  predicate AfterFetch(k: KState, f: KState)
    requires CanFetch(k)
  {
    f == k.(q := k.q.(procs := k.q.procs[k.q.cur.value := Past(k)]), segs := k.segs.(list := f.segs.list))
  }

  lemma Executing(k: KState, instr: Instr) returns (f: KState)
    requires Performs(k, instr)
    ensures Inv(f) && Linked(f) && Answerable(f, instr) && AfterFetch(k, f)
    ensures Next(k, Cpu(true)) == Running(Eval(f, instr).(atTest := true))
  {
    hide Inv, Answerable, Eval, Linked;
    InvLinked(k);
    FetchReady(k);
    ExecuteIs(k);
    f := Fetch(k);
  }

  /** What no instruction changes. */
  ghost predicate Kept(k: KState, k': KState) {
    && k'.table == k.table && k'.nextId == k.nextId && k'.atTest && k'.disk.arm == k.disk.arm
    && k'.segs.listSize == k.segs.listSize && k'.segs.remaining == k.segs.remaining
  }

  /** Process id has record p, and nothing else of the scheduler changes. */
  predicate RecordOnly(q: Sched, q': Sched, id: Id, p: Proc) {
    q' == q.(procs := q.procs[id := p])
  }

  lemma MovesFromFetch(q: Sched, f: Sched, q': Sched, id: Id, past: Proc, p: Proc)
    requires id in q.procs && f == q.(procs := q.procs[id := past])
    ensures RecordsMove(f, q', id, p) ==> RecordsMove(q, q', id, p)
    ensures ChangesHands(f, q', [], [], [id]) ==> ChangesHands(q, q', [], [], [id])
    ensures ChangesHands(f, q', [], [id], []) ==> ChangesHands(q, q', [], [id], [])
    ensures RecordOnly(f, q', id, p) ==> RecordOnly(q, q', id, p)
  {
  }

  /** An execution lowers the budget of its process by its length, and changes nothing else but the fetch. */
  lemma ExecEffect(k: KState, v: int)
    requires Performs(k, Exec(v))
    ensures Next(k, Cpu(true)).Running?
    ensures var k' := Next(k, Cpu(true)).k;
            && Kept(k, k') && k'.sems == k.sems && k'.disk == k.disk && k'.files == k.files
            && RecordOnly(k.q, k'.q, k.q.cur.value, Past(k).(remaining := Past(k).remaining - v))
  {
    hide Inv, Linked, Next;
    var f := Executing(k, Exec(v));
  }

  lemma Refused(k: KState, x: string)
    requires Inv(k) && k.q.cur.Some? && Registered(k.sems, x) && SemOf(k.sems, x).S <= 0
    ensures Linked(k)
    ensures var (k', id) := (Eval(k, SemP(x)), k.q.cur.value);
            && id in k.q.procs && k' == k.(q := k'.q, sems := k'.sems)
            && ChangesHands(k.q, k'.q, [], [], [id]) && RecordsMove(k.q, k'.q, id, k.q.procs[id].(state := BLOCKED))
  {
    hide Inv, Linked, Partitioned, Known, Schedule, ChangesHands;
    Schedulable(k);
    ScheduleQueues(k.q, SEMAPHORE_BLOCKED);
    ScheduleRecords(k, SEMAPHORE_BLOCKED);
    assert Schedule(k.q, SEMAPHORE_BLOCKED).procs[k.q.cur.value].state == BLOCKED;
  }

  lemma Accepted(k: KState, x: string)
    requires Inv(k) && k.q.cur.Some? && Registered(k.sems, x) && SemOf(k.sems, x).S > 0
    ensures Linked(k)
    ensures var (k', id) := (Eval(k, SemP(x)), k.q.cur.value);
            && id in k.q.procs && k' == k.(q := k'.q, sems := k'.sems)
            && RecordOnly(k.q, k'.q, id, k.q.procs[id].(remaining := Max(0, k.q.procs[id].remaining - 200)))
  {
    hide Inv, Schedule;
    InvLinked(k);
    RunningOnCpu(k);
  }

  lemma RunningOnCpu(k: KState)
    requires Inv(k) && k.q.cur.Some?
    ensures k.q.cur.value in k.q.procs && k.q.procs[k.q.cur.value].state == RUNNING
  {
  }

  lemma OnlySchedulerAndSems(k: KState, f: KState, k1: KState)
    requires CanFetch(k) && AfterFetch(k, f) && k1 == f.(q := k1.q, sems := k1.sems)
    ensures Kept(k, k1.(atTest := true)) && k1.disk == k.disk && k1.files == k.files && f.sems == k.sems
    ensures f.q == k.q.(procs := k.q.procs[k.q.cur.value := Past(k)])
  {
  }

  /** A request that is granted costs 200, never below zero, and changes nothing else of the scheduler. */
  lemma GrantedEffect(k: KState, x: string)
    requires Performs(k, SemP(x)) && SemOf(k.sems, x).S > 0
    ensures Next(k, Cpu(true)).Running?
    ensures var k' := Next(k, Cpu(true)).k;
            && Kept(k, k') && k'.disk == k.disk && k'.files == k.files
            && RecordOnly(k.q, k'.q, k.q.cur.value, Past(k).(remaining := Max(0, Past(k).remaining - 200)))
  {
    hide Inv, Linked, Next, Eval, SemOf, Kept, AfterFetch, RecordOnly;
    var f := Executing(k, SemP(x));
    OnlyListChanged(k, f);
    Accepted(f, x);
    OnlySchedulerAndSems(k, f, Eval(f, SemP(x)));
    MovesFromFetch(k.q, f.q, Eval(f, SemP(x)).q, k.q.cur.value, Past(k),
                   Past(k).(remaining := Max(0, Past(k).remaining - 200)));
  }

  lemma OnlyListChanged(k: KState, f: KState)
    requires CanFetch(k) && AfterFetch(k, f)
    ensures f.sems == k.sems && f.q == k.q.(procs := k.q.procs[k.q.cur.value := Past(k)])
  {
  }

  /** A request that is not granted puts its process to sleep: it leaves the CPU for the end of the blocked queue,
      unpaid, and the next process has the CPU. */
  lemma RefusedEffect(k: KState, x: string)
    requires Performs(k, SemP(x)) && SemOf(k.sems, x).S <= 0
    ensures Next(k, Cpu(true)).Running?
    ensures var (k', id) := (Next(k, Cpu(true)).k, k.q.cur.value);
            && Kept(k, k') && k'.disk == k.disk && k'.files == k.files
            && ChangesHands(k.q, k'.q, [], [], [id]) && RecordsMove(k.q, k'.q, id, Past(k).(state := BLOCKED))
  {
    hide Inv, Linked, Next, Eval, SemOf, Kept, AfterFetch, ChangesHands, RecordsMove;
    var f := Executing(k, SemP(x));
    OnlyListChanged(k, f);
    Refused(f, x);
    OnlySchedulerAndSems(k, f, Eval(f, SemP(x)));
    MovesFromFetch(k.q, f.q, Eval(f, SemP(x)).q, k.q.cur.value, Past(k), Past(k).(state := BLOCKED));
  }

  lemma Released(k: KState, x: string)
    requires Inv(k) && k.q.cur.Some? && Linked(k) && Answerable(k, SemV(x))
    ensures var (k', id, waiters) := (Eval(k, SemV(x)), k.q.cur.value, SemOf(k.sems, x).waiters);
            && k' == k.(q := k'.q, sems := k'.sems)
            && k'.q.procs == k.q.procs[id := k.q.procs[id].(remaining := Max(0, k.q.procs[id].remaining - 200))]
            && if waiters == [] then k'.q == k.q.(procs := k'.q.procs)
               else
                 && waiters[0] in k.q.blocked
                 && k'.q == k.q.(procs := k'.q.procs, high := k.q.high + [waiters[0]],
                                 blocked := Remove(k.q.blocked, waiters[0]))
  {
    var i := SemIndex(k.sems, x);
    assert SemOk(k.sems[i]);
    if k.sems[i].waiters != [] {
      WaiterBlocked(k, i);
    }
    hide Inv, Linked;
  }

  lemma WaiterBlocked(k: KState, i: nat)
    requires Inv(k) && i < |k.sems| && k.sems[i].waiters != []
    ensures k.sems[i].waiters[0] in k.q.blocked
  {
    var w := k.sems[i].waiters[0];
    assert PartitionedAt(k, w);
    OccursIn(k.sems[i].waiters, w);
    WaitsAtLeast(k.sems, i, w);
    OccursIn(k.q.blocked, w);
  }

  /** A release costs 200, never below zero, whether it wakes somebody or not; who waits longest goes from the blocked
      queue to the end of the high one, and its record stays as it is. */
  lemma ReleaseEffect(k: KState, x: string)
    requires Performs(k, SemV(x))
    ensures Next(k, Cpu(true)).Running?
    ensures var (k', waiters) := (Next(k, Cpu(true)).k, SemOf(k.sems, x).waiters);
            && Kept(k, k') && k'.disk == k.disk && k'.files == k.files
            && k'.q.procs == k.q.procs[k.q.cur.value := Past(k).(remaining := Max(0, Past(k).remaining - 200))]
            && if waiters == [] then k'.q == k.q.(procs := k'.q.procs)
               else
                 && waiters[0] in k.q.blocked
                 && k'.q == k.q.(procs := k'.q.procs, high := k.q.high + [waiters[0]],
                                 blocked := Remove(k.q.blocked, waiters[0]))
  {
    hide Inv, Linked, Next, Eval, SemOf, Answerable, Remove, Kept, AfterFetch;
    var f := Executing(k, SemV(x));
    OnlyListChanged(k, f);
    Released(f, x);
    OnlySchedulerAndSems(k, f, Eval(f, SemV(x)));
  }

  /** That page of segment i is marked as used, and every other bit of every segment is as it was. */
  ghost predicate PageMarked(list: seq<Seg>, list': seq<Seg>, i: nat, page: nat) {
    && i < |list| && page < |list[i].used| && |list'| == |list|
    && (forall j | 0 <= j < |list| :: SameButUsed(list[j], list'[j]))
    && list'[i].used[page]
    && forall j, b | 0 <= j < |list| && 0 <= b < |list[j].used| && !(j == i && b == page) ::
         list'[j].used[b] == list[j].used[b]
  }

  lemma TouchMarks(list: seq<Seg>, i: nat, pc: nat)
    requires i < |list| && pc / INSTRUCTIONS_PER_PAGE < |list[i].used|
    ensures PageMarked(list, Touch(list, i, pc), i, pc / 256)
  {
  }

  /** Every executed instruction marks the page it was fetched from, in the segment of its process, and no other. */
  lemma FetchEffect(k: KState, instr: Instr) returns (i: nat)
    requires Performs(k, instr)
    ensures Next(k, Cpu(true)).Running?
    ensures var (p, list) := (k.q.procs[k.q.cur.value], k.segs.list);
            i < |list| && list[i].id == p.segId && PageMarked(list, Next(k, Cpu(true)).k.segs.list, i, p.pc / 256)
  {
    hide Inv, Linked, Known, Partitioned, Touch, PageMarked;
    Schedulable(k);
    FetchReady(k);
    ExecuteIs(k);
    FetchFinds(k, k.q.cur.value);
    i := SegIndex(k.segs.list, k.q.procs[k.q.cur.value].segId);
    TouchMarks(k.segs.list, i, k.q.procs[k.q.cur.value].pc);
  }

  // ------------------------------------------------------------ input and output

  /** The process is charged after the CPU has changed hands. */
  lemma ChargedAway(k: KState, cost: int)
    requires Inv(k) && k.q.cur.Some?
    ensures Known(k.q) && k.q.cur.value in Schedule(k.q, IO_REQUESTED).procs && k.q.cur.value in k.q.procs
    ensures var (id, s) := (k.q.cur.value, Schedule(k.q, IO_REQUESTED));
            var q := SetRemaining(s, id, s.procs[id].remaining - cost);
            && ChangesHands(k.q, q, [], [], [id])
            && RecordsMove(k.q, q, id, k.q.procs[id].(state := BLOCKED, remaining := k.q.procs[id].remaining - cost))
  {
    hide Inv, Linked, Partitioned, Known, Schedule;
    Schedulable(k);
    ScheduleQueues(k.q, IO_REQUESTED);
    ScheduleRecords(k, IO_REQUESTED);
  }

  /** The process now lists the file, once; inode number num is active at place i, counts one user more if this is the
      first use, and no other inode and no other list changes. */
  ghost predicate FileUsed(f: Files, f': Files, id: Id, num: int, i: nat) {
    && id in f.open && f'.open == f.open[id := if num in f.open[id] then f.open[id] else f.open[id] + [num]]
    && i < |f'.inodes| && f'.inodes[i].id == num
    && if num in f.open[id] then f'.inodes == f.inodes
       else if i < |f.inodes| then
         f.inodes[i].id == num && f'.inodes == f.inodes[i := Inode(num, f.inodes[i].count + 1)]
       else (forall j | 0 <= j < |f.inodes| :: f.inodes[j].id != num) && f'.inodes == f.inodes + [Inode(num, 1)]
  }

  lemma AccessEffect(f: Files, id: Id, num: int) returns (i: nat)
    requires FilesOk(f) && id in f.open
    ensures FileUsed(f, Access(f, id, num), id, num, i)
  {
    i := InodeIndex(f.inodes, num);
    if num in f.open[id] {
      UsedIsActive(f, id, num);
    }
  }

  /** What a read and a write of a track do: the process leaves the CPU for the end of the blocked queue, charged what
      the request is; the request joins the end of the pending ones; and the file of the track is used. */
  ghost predicate Requested(k: KState, k': KState, track: int, read: bool, i: nat)
    requires CanFetch(k)
  {
    var id, cost := k.q.cur.value, Charge(k.disk.arm, track);
    && Kept(k, k') && k'.sems == k.sems
    && ChangesHands(k.q, k'.q, [], [], [id])
    && RecordsMove(k.q, k'.q, id, Past(k).(state := BLOCKED, remaining := Past(k).remaining - cost))
    && k'.disk.pending == k.disk.pending + [Request(id, track, read, cost)]
    && FileUsed(k.files, k'.files, id, InodeNumber(track), i)
  }

  lemma Accessible(k: KState)
    requires Inv(k) && k.q.cur.Some?
    ensures Linked(k) && FilesOk(k.files) && k.q.cur.value in k.files.open
  {
    InvLinked(k);
  }

  lemma RequestFromFetch(k: KState, f: KState, track: int, read: bool) returns (i: nat)
    requires CanFetch(k) && AfterFetch(k, f) && Inv(f) && f.q.cur.Some?
    ensures Linked(f) && Requested(k, DiskOp(f, track, read).(atTest := true), track, read, i)
  {
    hide Inv, Linked, Known, Schedule, Access, Charge, InodeNumber, ChangesHands, RecordsMove, FileUsed, FilesOk;
    Accessible(f);
    i := AccessEffect(f.files, f.q.cur.value, InodeNumber(track));
    ChargedAway(f, Charge(f.disk.arm, track));
    MovesFromFetch(k.q, f.q, DiskOp(f, track, read).q, k.q.cur.value, Past(k),
                   Past(k).(state := BLOCKED, remaining := Past(k).remaining - Charge(f.disk.arm, track)));
  }

  /** A read and a write of a track are that request. */
  lemma DiskEffect(k: KState, track: int, read: bool) returns (i: nat)
    requires Performs(k, if read then Read(track) else Write(track))
    ensures Next(k, Cpu(true)).Running?
    ensures Requested(k, Next(k, Cpu(true)).k, track, read, i)
  {
    hide Inv, Next, Requested, DiskOp;
    var f := Executing(k, if read then Read(track) else Write(track));
    i := RequestFromFetch(k, f, track, read);
  }

  lemma Printed(k: KState, d: int)
    requires Inv(k) && k.q.cur.Some?
    ensures Linked(k) && k.q.cur.value in k.q.procs
    ensures var (k', id) := (Eval(k, Print(d)), k.q.cur.value);
            && k' == k.(q := k'.q, sems := k'.sems) && k'.sems == k.sems && ChangesHands(k.q, k'.q, [], [id], [])
            && RecordsMove(k.q, k'.q, id, k.q.procs[id].(state := BLOCKED, remaining := k.q.procs[id].remaining - d))
  {
    hide Inv, Linked, Partitioned, Known, Schedule;
    Schedulable(k);
    PrintEffect(k, d);
    ChargedAway(k, d);
  }

  /** A print charges its process, which leaves the CPU for the end of the low queue; nobody stays blocked for it. */
  lemma PrintStep(k: KState, d: int)
    requires Performs(k, Print(d))
    ensures Next(k, Cpu(true)).Running?
    ensures var (k', id) := (Next(k, Cpu(true)).k, k.q.cur.value);
            && Kept(k, k') && k'.disk == k.disk && k'.files == k.files && k'.sems == k.sems
            && ChangesHands(k.q, k'.q, [], [id], [])
            && RecordsMove(k.q, k'.q, id, Past(k).(state := BLOCKED, remaining := Past(k).remaining - d))
  {
    hide Inv, Linked, Next, Eval, Kept, AfterFetch, ChangesHands, RecordsMove;
    var f := Executing(k, Print(d));
    OnlyListChanged(k, f);
    Printed(f, d);
    OnlySchedulerAndSems(k, f, Eval(f, Print(d)));
    MovesFromFetch(k.q, f.q, Eval(f, Print(d)).q, k.q.cur.value, Past(k),
                   Past(k).(state := BLOCKED, remaining := Past(k).remaining - d));
  }

  // ------------------------------------------------------------ creations and disk turns

  /** A segment as it is loaded: its size in bytes, its program, and pages enough for it, none of them used. */
  predicate FreshSegment(seg: Seg, p: Prog) {
    && seg.id == p.segId && seg.size == p.segSize * 1024 && seg.code == p.code
    && |p.code| <= 256 * |seg.used| < |p.code| + 256 && forall b | 0 <= b < |seg.used| :: !seg.used[b]
  }

  /** A creation puts a ready process with no budget at the end of the process table and of the queue that its priority
      selects: the high one for priority 1, the low one for any other. It opens no file, its new semaphores have value 1
      and no waiters, its program is loaded into a segment of its own, and nothing else changes. */
  lemma CreateEffect(k: KState, p: Prog) returns (ms: seq<nat>)
    requires Inv(k) && Allowed(k, Spawn(p)) && Next(k, Spawn(p)).Running?
    ensures var (k', id) := (Next(k, Spawn(p)).k, k.nextId);
            && id !in k.q.procs && k'.nextId == id + 1 && k'.table == k.table + [id]
            && k'.q == k.q.(procs := k.q.procs[id := Proc(p.code, p.segId, 0, 0, READY)],
                            high := if p.priority == 1 then k.q.high + [id] else k.q.high,
                            low := if p.priority == 1 then k.q.low else k.q.low + [id])
            && k'.files == k.files.(open := k.files.open[id := []])
            && k'.disk == k.disk && k'.atTest == k.atTest
    ensures var (sems, sems') := (k.sems, Next(k, Spawn(p)).k.sems);
            && sems <= sems' && (forall i | |sems| <= i < |sems'| :: sems'[i].S == 1 && sems'[i].waiters == [])
            && forall x :: Registered(sems', x) <==> Registered(sems, x) || x in p.sems
    ensures var segs' := Next(k, Spawn(p)).k.segs;
            && segs'.list != [] && FreshSegment(segs'.list[|segs'.list| - 1], p)
            && LoadedPages(k.segs, segs'.list[|segs'.list| - 1], segs', ms)
  {
    InvLinked(k);
    NewSegIsFresh(p);
    ms := LoadEffect(k.segs, NewSeg(p.segId, p.segSize, p.code));
    RegisterAllOk(k.sems, p.sems);
    forall x
      ensures Registered(RegisterAll(k.sems, p.sems), x) <==> Registered(k.sems, x) || x in p.sems
    {
      RegisterAllHas(k.sems, p.sems, x);
    }
    hide Load, NewSeg, RegisterAll, LoadedPages, FreshSegment, Inv, Registered;
  }

  /** A creation gives up exactly when the code names a semaphore that neither exists nor is in the program's list. */
  lemma CreationGivesUp(k: KState, p: Prog)
    requires Linked(k)
    ensures Next(k, Spawn(p)).Exit? <==>
            exists i :: 0 <= i < |p.code| && (p.code[i].SemP? || p.code[i].SemV?)
                        && !Registered(k.sems, p.code[i].sem) && p.code[i].sem !in p.sems
  {
    CreateRuns(k, p);
    forall i | 0 <= i < |p.code|
      ensures Uses(p.code[i], RegisterAll(k.sems, p.sems)) <==>
              (p.code[i].SemP? || p.code[i].SemV? ==> Registered(k.sems, p.code[i].sem) || p.code[i].sem in p.sems)
    {
      if p.code[i].SemP? || p.code[i].SemV? {
        RegisterAllHas(k.sems, p.sems, p.code[i].sem);
      }
    }
    hide RegisterAll, Registered, Create, Uses;
  }

  lemma NewSegIsFresh(p: Prog)
    ensures FreshSegment(NewSeg(p.segId, p.segSize, p.code), p)
  {
  }

  /** t is what s has at these places, in the same order. */
  predicate Picks<T(==)>(s: seq<T>, t: seq<T>, places: seq<nat>) {
    && |places| == |t| && (forall j | 0 <= j < |t| :: places[j] < |s| && t[j] == s[places[j]])
    && forall i, j | 0 <= i < j < |places| :: places[i] < places[j]
  }

  /** The places later and one further, and the first one besides if it is kept. */
  lemma PicksMore<T>(first: T, keep: bool, s: seq<T>, t: seq<T>, places: seq<nat>) returns (all: seq<nat>)
    requires Picks(s, t, places)
    ensures Picks([first] + s, (if keep then [first] else []) + t, all)
    ensures forall i | 0 <= i <= |s| :: i in all <==> if i == 0 then keep else i - 1 in places
  {
    var later := seq(|places|, j requires 0 <= j < |places| => places[j] + 1);
    all := (if keep then [0] else []) + later;
    forall i | 0 <= i <= |s|
      ensures i in later <==> i > 0 && i - 1 in places
    {
      ShiftedIn(places, later, i);
    }
  }

  /** A disk turn leaves pending exactly the requests on other tracks than that of the arm, in their order. */
  lemma {:induction false} OthersPend(pending: seq<Request>, track: int) returns (places: seq<nat>)
    ensures Picks(pending, NotOn(pending, track), places)
    ensures forall i | 0 <= i < |pending| :: i in places <==> pending[i].track != track
  {
    hide Picks;
    if pending == [] {
      places := [];
      NothingPicked(pending);
    } else {
      var first, rest := pending[0], pending[1..];
      var later := OthersPend(rest, track);
      places := PicksMore(first, first.track != track, rest, NotOn(rest, track), later);
      assert pending == [first] + rest;
      forall i | 0 <= i < |pending|
        ensures i in places <==> pending[i].track != track
      {
        assert i > 0 ==> pending[i] == rest[i - 1];
      }
    }
  }

  lemma NothingPicked<T>(s: seq<T>)
    ensures Picks(s, [], [])
  {
  }

  lemma ShiftedIn(places: seq<nat>, later: seq<nat>, i: nat)
    requires |later| == |places| && forall j | 0 <= j < |later| :: later[j] == places[j] + 1
    ensures i in later <==> i > 0 && i - 1 in places
  {
    if i > 0 && i - 1 in places {
      var j :| 0 <= j < |places| && places[j] == i - 1;
      assert later[j] == i;
    }
  }

  /** The whole effect of a disk turn. */
  lemma DiskTurnEffect(k: KState) returns (places: seq<nat>)
    requires Inv(k)
    ensures Next(k, Tick).Running?
    ensures var (k', track) := (Next(k, Tick).k, k.disk.arm.track);
            && k' == k.(q := k'.q, disk := k'.disk) && k'.disk.arm == Move(k.disk.arm)
            && Picks(k.disk.pending, k'.disk.pending, places)
            && (forall i | 0 <= i < |k.disk.pending| :: i in places <==> k.disk.pending[i].track != track)
  {
    InvLinked(k);
    places := OthersPend(k.disk.pending, k.disk.arm.track);
  }
}
