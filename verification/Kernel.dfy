/** The kernel of kernel/kernel.c with process/process.c, io/print.c and one turn of the loops of cpu/cpu.c and
    disk/disk.c, over the objects of its subsystems. Every method is proved against the step of the state machine. */
module Kernels {
  import opened Program
  import opened Scan
  import opened KernelState
  import opened Scheduling
  import opened SemaphoreTables
  import opened DiskSchedulers
  import opened FileTables
  import opened SegmentTables
  import opened Partition
  import opened Runs
  import opened Semaphores

  // ------------------------------------------------------------ the parts that a system call is made of

  /** Each part is what one method below does to the value of the kernel; the lemmas compose them to whole steps. */
  ghost function Rescheduled(k: KState, flag: Flag): KState
    requires Known(k.q)
  {
    k.(q := Schedule(k.q, flag))
  }

  ghost function Queued(k: KState, id: Id, track: int, read: bool): KState
    requires id in k.q.procs
  {
    var time := Charge(k.disk.arm, track);
    k.(q := SetRemaining(k.q, id, k.q.procs[id].remaining - time),
       disk := k.disk.(pending := k.disk.pending + [Request(id, track, read, time)]))
  }

  ghost function Counted(k: KState, id: Id, num: int): KState
    requires id in k.files.open
  {
    k.(files := Access(k.files, id, num))
  }

  ghost function Charged(k: KState, id: Id, cost: int): KState
    requires id in k.q.procs
  {
    k.(q := SetRemaining(k.q, id, k.q.procs[id].remaining - cost))
  }

  ghost function Paid(k: KState, id: Id): KState
    requires id in k.q.procs
  {
    k.(q := PayForSem(k.q, id))
  }

  ghost function Unblocked(k: KState, id: Id): KState {
    k.(q := Unblock(k.q, id, false))
  }

  ghost function Untabled(k: KState, id: Id): KState {
    k.(table := Remove(k.table, id))
  }

  ghost function Closed(k: KState, id: Id): KState
    requires id in k.files.open
  {
    k.(files := k.files.(inodes := CloseAll(k.files.inodes, k.files.open[id])))
  }

  ghost function Freed(k: KState, id: int): KState
    requires SegIndex(k.segs.list, id) < |k.segs.list|
  {
    k.(segs := Free(k.segs, id))
  }

  ghost function Purged(k: KState, id: Id): KState {
    k.(q := Purge(k.q, id))
  }

  ghost function Forgotten(k: KState, id: Id): KState {
    k.(q := k.q.(procs := k.q.procs - {id}), files := k.files.(open := k.files.open - {id}))
  }

  lemma PrintSteps(k: KState, id: Id, duration: int)
    requires Known(k.q) && k.q.cur == Some(id)
    ensures Unblocked(Charged(Rescheduled(k, IO_REQUESTED), id, duration), id) == PrintOp(k, duration)
  {
  }

  lemma FinishSteps(k: KState, id: Id)
    requires Linked(k) && k.q.cur == Some(id) && Finish(k).Running?
    ensures SegIndex(Closed(Rescheduled(Untabled(k, id), NONE), id).segs.list, k.q.procs[id].segId) < |k.segs.list|
    ensures var closed := Closed(Rescheduled(Untabled(k, id), NONE), id);
            Forgotten(Purged(Freed(closed, k.q.procs[id].segId), id), id) == Finish(k).k
  {
  }

  /** What the global invariant says of a finished process: nothing names it. */
  lemma FinishLeavesNothing(k: KState, id: Id)
    requires Inv(k) && k.q.cur == Some(id)
    ensures Linked(k) && Finish(k).Running? && Linked(Finish(k).k) && id !in Finish(k).k.table
    ensures id in k.q.procs
  {
    FinishInv(k);
    InvLinked(Finish(k).k);
    assert PartitionedAt(Finish(k).k, id);
    OccursIn(Finish(k).k.table, id);
  }

  ghost function Tabled(k: KState, id: Id, p: Proc): KState {
    k.(q := k.q.(procs := k.q.procs[id := p]),
       table := k.table + [id],
       files := k.files.(open := k.files.open[id := []]))
  }

  ghost function Enqueued(k: KState, id: Id, priority: int): KState
    requires id in k.q.procs
  {
    k.(q := Enlisted(k.q, id, priority))
  }

  /** What a creation does after the semaphores are registered. */
  ghost function Brought(k: KState, p: Prog): KState {
    var loaded := k.(nextId := k.nextId + 1, segs := Load(k.segs, NewSeg(p.segId, p.segSize, p.code)));
    Enqueued(Tabled(loaded, k.nextId, Proc(p.code, p.segId, 0, 0, NEW)), k.nextId, p.priority)
  }

  lemma CreateSteps(k: KState, p: Prog)
    ensures Create(k, p).Running? ==> Create(k, p).k == Brought(k.(sems := RegisterAll(k.sems, p.sems)), p)
  {
  }

  lemma DiskOpSteps(k: KState, id: Id, track: int, read: bool)
    requires Known(k.q) && k.q.cur == Some(id) && id in k.files.open
    ensures Counted(Queued(Rescheduled(k, IO_REQUESTED), id, track, read), id, InodeNumber(track)) ==
            DiskOp(k, track, read)
  {
  }

  // ------------------------------------------------------------ the kernel

  /** The methods that reach into one subsystem hide what keeps the others valid, which their frames preserve; those
      that compose such methods hide Valid() itself. */
  class Kernel {
    var procTable: seq<Process>
    var nextProcId: int
    const sched: Scheduler
    const sems: SemaphoreTable
    const disk: DiskScheduler
    const files: FileTable
    const segs: SegmentTable
    /** The CPU thread stands before the test that closes its do-while. */
    var atTest: bool
    /** The o_files list of every live process. */
    ghost var open: map<Id, seq<int>>

    ghost predicate ListsShown()
      reads this`open, sched`live, sched.live.Values`oFiles
    {
      && open.Keys == sched.live.Keys
      && forall id {:trigger sched.live[id]} | id in sched.live ::
           sched.live[id].id == id && open[id] == sched.live[id].oFiles
    }

    ghost predicate Valid()
      reads this`procTable, this`open
      reads sched`contents, sched`scheduled, sched`high, sched`low, sched`blocked, sched`live
      reads sched.live.Values`pc, sched.live.Values`remaining, sched.live.Values`state, sched.live.Values`oFiles
      reads sems`table, sems`contents, sems.table`S, sems.table`waiters, files, files.inodes`oCount
      reads disk.pendingRequests, disk.pendingRequests.nodes`next, disk.pendingRequests.nodes`prev
      reads segs`segList, segs`contents, segs.segList`program
      reads set seg | seg in segs.segList :: seg.code, set seg | seg in segs.segList :: seg.used
    {
      && sched.Valid() && sems.Valid() && disk.Valid() && files.Valid() && segs.Valid()
      && AllAmong(procTable, sched.live) && disk.RequestersAmong(sched.live) && sems.WaitersAmong(sched.live)
      && ListsShown()
    }

    ghost function View(): KState
      reads this`procTable, this`nextProcId, this`atTest, this`open
      reads sched`contents, sems`contents, disk`currTrack, disk`forwardDir, disk.pendingRequests`nodes, files`contents
      reads segs`contents, segs`segListSize, segs`remaining
    {
      KState(sched.contents, Ids(procTable), nextProcId, sems.contents, disk.View(), Files(files.contents, open),
             segs.View(), atTest)
    }

    /** Every object that a step may change. */
    ghost function Objects(): set<object>
      reads sched`live, sems`table, disk.pendingRequests`nodes, files`inodes, segs`segList
    {
      {this} + sched.Objects() + sems.Objects() + disk.Objects() + files.Objects() + segs.Objects()
    }

    constructor ()
      ensures Valid() && View() == Init() && fresh(Objects())
    {
      hide Scheduler.Valid, SemaphoreTable.Valid, DiskScheduler.Valid, FileTable.Valid, SegmentTable.Valid;
      hide Scheduler.Objects, SemaphoreTable.Objects, DiskScheduler.Objects, FileTable.Objects, SegmentTable.Objects;
      procTable, nextProcId, atTest, open := [], 1, false, map[];
      sched := new Scheduler();
      sems := new SemaphoreTable();
      disk := new DiskScheduler();
      files := new FileTable();
      segs := new SegmentTable();
      new;
      assert AllAmong(procTable, sched.live) && disk.RequestersAmong(sched.live) && sems.WaitersAmong(sched.live);
      assert files.Valid() && segs.Valid();
      assert fresh(sched.Objects() + sems.Objects() + disk.Objects() + files.Objects() + segs.Objects());
    }

    // ---------------------------------------------------------- system calls

    /** SEMAPHORE_P, on the semaphore at that place of the table. */
    method RequestSem(at: nat)
      requires Valid() && sched.scheduled != null && at < |sems.table|
      modifies sems`contents, sems.table[at], sched`contents, sched`scheduled, sched`high, sched`low, sched`blocked
      modifies sched.live.Values`remaining, sched.live.Values`state
      ensures Valid() && Known(old(View()).q) && View() == PRequest(old(View()), at)
    {
      hide AllAmong, DiskScheduler.RequestersAmong, SemaphoreTable.WaitersAmong, Kernel.ListsShown;
      hide Scheduler.Valid, DiskScheduler.Valid, FileTable.Valid, SegmentTable.Valid;
      sems.RequestAt(at, sched);
    }

    /** SEMAPHORE_V. */
    method ReleaseSem(at: nat)
      requires Valid() && at < |sems.table| && (View().sems[at].S < 0 ==> View().sems[at].waiters != [])
      modifies sems`contents, sems.table[at], sched`contents, sched`high, sched`low, sched`blocked
      ensures Valid() && View() == VRequest(old(View()), at)
    {
      hide AllAmong, DiskScheduler.RequestersAmong, SemaphoreTable.WaitersAmong, Kernel.ListsShown;
      hide Scheduler.Valid, DiskScheduler.Valid, FileTable.Valid, SegmentTable.Valid;
      sems.ReleaseAt(at, sched);
    }

    /** One of the scheduler's entry points, seen from the kernel. */
    method Reschedule(flag: Flag)
      requires Valid()
      modifies sched`contents, sched`scheduled, sched`high, sched`low, sched`blocked
      modifies sched.live.Values`remaining, sched.live.Values`state
      ensures Valid() && Known(old(View()).q) && View() == Rescheduled(old(View()), flag)
      ensures old(sched.scheduled) != null ==>
                sched.IsLive(old(sched.scheduled)) && old(View()).q.cur == Some(old(sched.scheduled.id))
    {
      hide AllAmong, DiskScheduler.RequestersAmong, SemaphoreTable.WaitersAmong, Kernel.ListsShown;
      hide Scheduler.Valid, SemaphoreTable.Valid, DiskScheduler.Valid, FileTable.Valid, SegmentTable.Valid;
      sched.ScheduleProcess(flag);
    }

    method QueueRequest(process: Process, track: int, read: bool)
      requires Valid() && sched.IsLive(process)
      modifies disk.pendingRequests, disk.pendingRequests.nodes, sched`contents, process`remaining
      ensures Valid() && process.id in old(View()).q.procs
      ensures View() == Queued(old(View()), process.id, track, read)
      ensures forall o | o in Objects() :: o in old(Objects()) || fresh(o)
    {
      hide Scheduler.Objects, SemaphoreTable.Objects, DiskScheduler.Objects, FileTable.Objects, SegmentTable.Objects;
      hide AllAmong, SemaphoreTable.WaitersAmong, Kernel.ListsShown;
      hide Scheduler.Valid, SemaphoreTable.Valid, DiskScheduler.Valid, FileTable.Valid, SegmentTable.Valid;
      disk.MakeRequest(process, track, read, sched);
    }

    method CountFile(process: Process, num: int)
      requires Valid() && sched.IsLive(process)
      modifies this`open, files, files.inodes, process`oFiles
      ensures Valid() && process.id in old(View()).files.open
      ensures View() == Counted(old(View()), process.id, num)
      ensures forall o | o in Objects() :: o in old(Objects()) || fresh(o)
    {
      hide Scheduler.Objects, SemaphoreTable.Objects, DiskScheduler.Objects, FileTable.Objects, SegmentTable.Objects;
      hide AllAmong, DiskScheduler.RequestersAmong, SemaphoreTable.WaitersAmong;
      hide Scheduler.Valid, SemaphoreTable.Valid, DiskScheduler.Valid, FileTable.Valid, SegmentTable.Valid;
      hide AccessInodes, AccessList;
      files.Request(process, num);
      open := open[process.id := process.oFiles];
    }

    /** DISK_READ_REQUEST and DISK_WRITE_REQUEST: the process is parked and charged, its request is queued, and its
        file is counted. */
    method RequestDisk(track: int, read: bool)
      requires Valid() && sched.scheduled != null
      modifies sched`contents, sched`scheduled, sched`high, sched`low, sched`blocked
      modifies sched.live.Values`remaining, sched.live.Values`state
      modifies disk.pendingRequests, disk.pendingRequests.nodes
      modifies this`open, files, files.inodes, sched.scheduled`oFiles
      ensures Valid() && Known(old(View()).q)
      ensures old(View()).q.cur.Some? && old(View()).q.cur.value in old(View()).files.open
      ensures View() == DiskOp(old(View()), track, read)
      ensures forall o | o in Objects() :: o in old(Objects()) || fresh(o)
    {
      hide Kernel.Objects;
      hide Kernel.Valid, Schedule, SetRemaining, Access, Scan.Charge;
      ghost var k := View();
      var process := sched.scheduled;
      Reschedule(IO_REQUESTED);
      QueueRequest(process, track, read);
      CountFile(process, InodeNumber(track));
      DiskOpSteps(k, process.id, track, read);
    }

    lemma Facts()
      requires Valid()
      ensures Linked(View())
      ensures sched.scheduled != null ==> sched.IsLive(sched.scheduled) && View().q.cur == Some(sched.scheduled.id)
      ensures sched.scheduled == null ==> View().q.cur == None
    {
      sems.WaitersKnown(sched.live);
    }

    lemma Shows(process: Process)
      requires Valid() && sched.IsLive(process)
      ensures process.id in View().q.procs && View().q.procs[process.id] == process.View()
      ensures process.codeLen == |process.code|
    {
      sched.Shows(process);
    }

    method ChargeFor(process: Process, cost: int)
      requires Valid() && sched.IsLive(process)
      modifies sched`contents, process`remaining
      ensures Valid() && process.id in old(View()).q.procs && View() == Charged(old(View()), process.id, cost)
    {
      hide AllAmong, DiskScheduler.RequestersAmong, SemaphoreTable.WaitersAmong, Kernel.ListsShown;
      hide Scheduler.Valid, SemaphoreTable.Valid, DiskScheduler.Valid, FileTable.Valid, SegmentTable.Valid;
      sched.Charge(process, cost);
    }

    method Pay(process: Process)
      requires Valid() && sched.IsLive(process)
      modifies sched`contents, process`remaining
      ensures Valid() && process.id in old(View()).q.procs && View() == Paid(old(View()), process.id)
    {
      hide AllAmong, DiskScheduler.RequestersAmong, SemaphoreTable.WaitersAmong, Kernel.ListsShown;
      hide Scheduler.Valid, SemaphoreTable.Valid, DiskScheduler.Valid, FileTable.Valid, SegmentTable.Valid;
      sched.Pay(process);
    }

    method FinishPrint(process: Process)
      requires Valid() && sched.IsLive(process)
      modifies sched`contents, sched`high, sched`low, sched`blocked
      ensures Valid() && View() == Unblocked(old(View()), process.id)
    {
      hide AllAmong, DiskScheduler.RequestersAmong, SemaphoreTable.WaitersAmong, Kernel.ListsShown;
      hide Scheduler.Valid, SemaphoreTable.Valid, DiskScheduler.Valid, FileTable.Valid, SegmentTable.Valid;
      sched.UnblockProcess(process, false);
    }

    /** PRINT_REQUEST: the process is parked, charged and unblocked again within the call. */
    method RequestPrint(duration: int)
      requires Valid() && sched.scheduled != null
      modifies sched`contents, sched`scheduled, sched`high, sched`low, sched`blocked
      modifies sched.live.Values`remaining, sched.live.Values`state
      ensures Valid() && Known(old(View()).q) && old(View()).q.cur.Some? && View() == PrintOp(old(View()), duration)
    {
      hide Kernel.Valid, Schedule, SetRemaining, Unblock;
      ghost var k := View();
      var process := sched.scheduled;
      Reschedule(IO_REQUESTED);
      ChargeFor(process, duration);
      FinishPrint(process);
      PrintSteps(k, process.id, duration);
    }

    method FindSem(name: string) returns (at: nat)
      requires Valid()
      ensures at == SemIndex(View().sems, name) && |View().sems| == |sems.table|
    {
      at := sems.Find(name);
    }

    method EvalRequest(sem: string)
      requires Valid() && sched.scheduled != null && Answerable(View(), SemP(sem))
      modifies sems`contents, sems.table, sched`contents, sched`scheduled, sched`high, sched`low, sched`blocked
      modifies sched.live.Values`remaining, sched.live.Values`state
      ensures Valid() && Linked(old(View())) && old(View()).q.cur.Some? && View() == Eval(old(View()), SemP(sem))
    {
      hide Kernel.Valid, Schedule, PayForSem, Kernel.View, PRequest, Linked, Known;
      Facts();
      var process := sched.scheduled;
      var at := FindSem(sem);
      RequestSem(at);
      Shows(process);
      if process.state != BLOCKED {
        Pay(process);
      }
    }

    method EvalRelease(sem: string)
      requires Valid() && sched.scheduled != null && Answerable(View(), SemV(sem))
      modifies sems`contents, sems.table, sched`contents, sched`high, sched`low, sched`blocked
      modifies sched.scheduled`remaining
      ensures Valid() && Linked(old(View())) && old(View()).q.cur.Some? && View() == Eval(old(View()), SemV(sem))
    {
      hide Kernel.Valid, Unblock, PayForSem, Kernel.View;
      Facts();
      var process := sched.scheduled;
      var at := FindSem(sem);
      ReleaseSem(at);
      Pay(process);
    }

    /** eval: one instruction for the process on the CPU. */
    method EvalInstr(instr: Instr)
      requires Valid() && sched.scheduled != null && Answerable(View(), instr)
      modifies sems`contents, sems.table, sched`contents, sched`scheduled, sched`high, sched`low, sched`blocked
      modifies sched.live.Values`remaining, sched.live.Values`state
      modifies disk.pendingRequests, disk.pendingRequests.nodes, this`open, files, files.inodes, sched.scheduled`oFiles
      ensures Valid() && Linked(old(View())) && old(View()).q.cur.Some? && View() == Eval(old(View()), instr)
      ensures forall o | o in Objects() :: o in old(Objects()) || fresh(o)
    {
      hide Kernel.Objects;
      hide Kernel.Valid, Kernel.View, Linked, Known;
      hide Schedule, PayForSem, DiskOp, PrintOp, PRequest, VRequest, SetRemaining;
      Facts();
      match instr {
        case Exec(v) => ChargeFor(sched.scheduled, v);
        case SemP(s) => EvalRequest(s);
        case SemV(s) => EvalRelease(s);
        case Read(t) => RequestDisk(t, true);
        case Write(t) => RequestDisk(t, false);
        case Print(d) => RequestPrint(d);
      }
    }

    method SetTest(b: bool)
      requires Valid()
      modifies this`atTest
      ensures Valid() && View() == old(View()).(atTest := b)
    {
      hide AllAmong, DiskScheduler.RequestersAmong, SemaphoreTable.WaitersAmong, Kernel.ListsShown;
      hide Scheduler.Valid, SemaphoreTable.Valid, DiskScheduler.Valid, FileTable.Valid, SegmentTable.Valid;
      atTest := b;
    }

    /** Where the fetch of the process on the CPU looks. */
    ghost predicate Fetchable(k: KState) {
      && k.q.cur.Some? && k.q.cur.value in k.q.procs
      && var p := k.q.procs[k.q.cur.value];
      var i := SegIndex(k.segs.list, p.segId);
      i < |k.segs.list| && p.pc < |k.segs.list[i].code| && p.pc / INSTRUCTIONS_PER_PAGE < |k.segs.list[i].used|
    }

    method AdvancePc(process: Process)
      requires Valid() && sched.IsLive(process)
      modifies sched`contents, process`pc
      ensures Valid() && process.id in old(View()).q.procs
      ensures View() == old(View()).(q := Advance(old(View()).q, process.id))
    {
      hide AllAmong, DiskScheduler.RequestersAmong, SemaphoreTable.WaitersAmong, Kernel.ListsShown;
      hide Scheduler.Valid, SemaphoreTable.Valid, DiskScheduler.Valid, FileTable.Valid, SegmentTable.Valid;
      sched.Step(process);
    }

    method ReadInstr(id: int, pc: nat) returns (instr: Instr)
      requires Valid()
      requires var i := SegIndex(View().segs.list, id);
               i < |View().segs.list| && pc < |View().segs.list[i].code|
      modifies segs`contents, set seg | seg in segs.segList :: seg.used
      ensures var i := SegIndex(old(View()).segs.list, id);
              && pc / INSTRUCTIONS_PER_PAGE < |old(View()).segs.list[i].used|
              && instr == old(View()).segs.list[i].code[pc]
              && View() == old(View()).(segs := old(View()).segs.(list := Touch(old(View()).segs.list, i, pc)))
      ensures Valid()
    {
      hide AllAmong, DiskScheduler.RequestersAmong, SemaphoreTable.WaitersAmong, Kernel.ListsShown;
      hide Scheduler.Valid, SemaphoreTable.Valid, DiskScheduler.Valid, FileTable.Valid;
      var at := segs.Find(id);
      instr := segs.FetchAt(at, pc);
    }

    /** The fetch: pc is taken and advanced, then the instruction is read through the segment table. */
    method FetchInstr() returns (instr: Instr)
      requires Valid() && sched.scheduled != null && Fetchable(View())
      modifies sched`contents, sched.scheduled`pc, segs`contents, set seg | seg in segs.segList :: seg.used
      ensures Valid() && Fetchable(old(View()))
      ensures var k := old(View());
              var p := k.q.procs[k.q.cur.value];
              var i := SegIndex(k.segs.list, p.segId);
              instr == k.segs.list[i].code[p.pc] && View() == Fetched(k, i)
    {
      hide Kernel.Valid;
      Facts();
      var process := sched.scheduled;
      Shows(process);
      var pc := process.pc;
      AdvancePc(process);
      instr := ReadInstr(process.segId, pc);
    }

    /** One iteration of the do-while: fetch and evaluate. */
    method ExecuteInstr()
      requires Valid() && sched.scheduled != null && Linked(View()) && View().q.cur.Some? && ExecuteOne(View()).Running?
      modifies sems`contents, sems.table, sched`contents, sched`scheduled, sched`high, sched`low, sched`blocked
      modifies sched.live.Values`pc, sched.live.Values`remaining, sched.live.Values`state
      modifies disk.pendingRequests, disk.pendingRequests.nodes, this`open, files, files.inodes, sched.scheduled`oFiles
      modifies segs`contents, set seg | seg in segs.segList :: seg.used, this`atTest
      ensures Valid() && Linked(old(View())) && old(View()).q.cur.Some? && Running(View()) == ExecuteOne(old(View()))
      ensures forall o | o in Objects() :: o in old(Objects()) || fresh(o)
    {
      hide Kernel.Objects;
      hide Kernel.Valid, Kernel.View, Eval, Linked;
      Facts();
      Shows(sched.scheduled);
      var instr := FetchInstr();
      Facts();
      EvalInstr(instr);
      SetTest(true);
    }

    // ---------------------------------------------------------- process_finish

    method DropFromTable(process: Process)
      requires Valid()
      modifies this`procTable
      ensures Valid() && View() == Untabled(old(View()), process.id)
    {
      hide DiskScheduler.RequestersAmong, SemaphoreTable.WaitersAmong, Kernel.ListsShown;
      hide Scheduler.Valid, SemaphoreTable.Valid, DiskScheduler.Valid, FileTable.Valid, SegmentTable.Valid;
      var found;
      procTable, found := Extract(procTable, process);
    }

    method CloseFilesOf(process: Process)
      requires Valid() && sched.IsLive(process)
      modifies files, files.inodes
      ensures Valid() && process.id in old(View()).files.open && View() == Closed(old(View()), process.id)
      ensures Objects() <= old(Objects())
    {
      hide Scheduler.Objects, SemaphoreTable.Objects, DiskScheduler.Objects, FileTable.Objects, SegmentTable.Objects;
      hide AllAmong, DiskScheduler.RequestersAmong, SemaphoreTable.WaitersAmong;
      hide Scheduler.Valid, SemaphoreTable.Valid, DiskScheduler.Valid, FileTable.Valid, SegmentTable.Valid;
      files.CloseFiles(process);
    }

    method FreeMemory(id: int)
      requires Valid() && SegIndex(View().segs.list, id) < |View().segs.list|
      modifies segs`segList, segs`remaining, segs`contents
      ensures Valid() && View() == Freed(old(View()), id)
      ensures Objects() <= old(Objects())
    {
      hide Scheduler.Objects, SemaphoreTable.Objects, DiskScheduler.Objects, FileTable.Objects, SegmentTable.Objects;
      hide AllAmong, DiskScheduler.RequestersAmong, SemaphoreTable.WaitersAmong, Kernel.ListsShown;
      hide Scheduler.Valid, SemaphoreTable.Valid, DiskScheduler.Valid, FileTable.Valid, SegmentTable.Valid;
      segs.FreeSegment(id);
    }

    method PurgeQueues(process: Process)
      requires Valid()
      modifies sched`high, sched`low, sched`blocked, sched`contents
      ensures Valid() && View() == Purged(old(View()), process.id)
    {
      hide AllAmong, DiskScheduler.RequestersAmong, SemaphoreTable.WaitersAmong, Kernel.ListsShown;
      hide Scheduler.Valid, SemaphoreTable.Valid, DiskScheduler.Valid, FileTable.Valid, SegmentTable.Valid;
      sched.PurgeProcess(process);
    }

    /** Lists that do not name a process need only the others. */
    lemma OthersStay(gone: Id)
      requires Valid() && Linked(Forgotten(View(), gone)) && gone !in View().table
      ensures AllAmong(procTable, sched.live - {gone})
      ensures sems.WaitersAmong(sched.live - {gone}) && disk.RequestersAmong(sched.live - {gone})
    {
      hide AllAmong, DiskScheduler.RequestersAmong, SemaphoreTable.WaitersAmong, Kernel.ListsShown;
      hide Scheduler.Valid, SemaphoreTable.Valid, DiskScheduler.Valid, FileTable.Valid, SegmentTable.Valid;
      sems.WaitersWithout(sched.live, gone);
      disk.RequestersWithout(sched.live, gone);
      AllAmongWithout(procTable, sched.live, gone);
    }

    /** free(proc): allowed because nothing names the process any more. */
    ghost method Forget(process: Process)
      requires Valid() && sched.IsLive(process)
      requires Linked(Forgotten(View(), process.id)) && process.id !in View().table
      modifies sched`live, sched`contents, this`open
      ensures Valid() && View() == Forgotten(old(View()), process.id)
      ensures Objects() <= old(Objects())
    {
      hide Scheduler.Objects, SemaphoreTable.Objects, DiskScheduler.Objects, FileTable.Objects, SegmentTable.Objects;
      hide AllAmong, DiskScheduler.RequestersAmong, SemaphoreTable.WaitersAmong;
      hide Scheduler.Valid, SemaphoreTable.Valid, DiskScheduler.Valid, FileTable.Valid, SegmentTable.Valid;
      OthersStay(process.id);
      sched.Forget(process);
      open := open - {process.id};
    }

    /** The first part of a teardown: the process leaves the process table, the CPU and its files. */
    method Detach(process: Process)
      requires Valid() && sched.IsLive(process)
      modifies this`procTable, sched`contents, sched`scheduled, sched`high, sched`low, sched`blocked
      modifies sched.live.Values`remaining, sched.live.Values`state, files, files.inodes
      ensures Valid() && sched.IsLive(process) && Known(old(View()).q) && process.id in old(View()).files.open
      ensures View() == Closed(Rescheduled(Untabled(old(View()), process.id), NONE), process.id)
      ensures Objects() <= old(Objects())
    {
      hide Kernel.Objects, Kernel.Valid, Kernel.View, Schedule;
      DropFromTable(process);
      Reschedule(NONE);
      CloseFilesOf(process);
    }

    /** PROCESS_FINISH for the process on the CPU. */
    method FinishCurrent()
      requires Valid() && sched.scheduled != null && Inv(View())
      modifies this`procTable, this`open
      modifies sched`contents, sched`scheduled, sched`high, sched`low, sched`blocked, sched`live
      modifies sched.live.Values`remaining, sched.live.Values`state, files, files.inodes
      modifies segs`segList, segs`remaining, segs`contents
      ensures Valid() && Linked(old(View())) && old(View()).q.cur.Some? && Running(View()) == Finish(old(View()))
      ensures Objects() <= old(Objects())
    {
      hide Kernel.Objects;
      hide Kernel.Valid, Kernel.View, Linked, Inv, Finish, Schedule;
      Facts();
      ghost var k := View();
      var process := sched.scheduled;
      Shows(process);
      FinishLeavesNothing(k, process.id);
      FinishSteps(k, process.id);
      Detach(process);
      FreeMemory(process.segId);
      PurgeQueues(process);
      Forget(process);
    }

    // ---------------------------------------------------------- the CPU and the disk thread

    /** The body of the CPU loop where it is not at the test of the do-while. */
    method LoopHead(gate: bool)
      requires Valid() && !atTest && Linked(View()) && CpuStep(View(), gate).Running?
      modifies this`procTable, this`atTest, this`open, sched, sched.live.Values, sems`contents, sems.table
      modifies disk.pendingRequests, disk.pendingRequests.nodes, files, files.inodes
      modifies segs, set seg | seg in segs.segList :: seg.used
      ensures Valid() && Linked(old(View())) && Running(View()) == CpuStep(old(View()), gate)
      ensures forall o | o in Objects() :: o in old(Objects()) || fresh(o)
    {
      hide Kernel.Objects;
      hide Kernel.Valid, Linked, ExecuteOne, Schedule;
      Facts();
      if sched.scheduled == null {
        Reschedule(NONE);
      } else if gate {
        ExecuteInstr();
      } else {
        SetTest(true);
      }
    }

    /** The test of the do-while, and what follows it. */
    method LoopTest()
      requires Valid() && atTest && Inv(View())
      modifies this`procTable, this`atTest, this`open, sched, sched.live.Values, sems`contents, sems.table
      modifies disk.pendingRequests, disk.pendingRequests.nodes, files, files.inodes
      modifies segs, set seg | seg in segs.segList :: seg.used
      ensures Valid() && Linked(old(View()))
      ensures Running(View()) == CpuStep(old(View()), false) == CpuStep(old(View()), true)
      ensures Objects() <= old(Objects())
    {
      hide Kernel.Objects;
      hide Kernel.Valid, Linked, Inv, Finish, Schedule;
      Facts();
      ControlInv(View(), false);
      SetTest(false);
      var process := sched.scheduled;
      if process == null {
        return;
      }
      Shows(process);
      if process.remaining > 0 && process.pc < process.codeLen {
        return;
      }
      if process.pc >= process.codeLen {
        FinishCurrent();
      } else {
        Reschedule(QUANTUM_COMPLETED);
      }
    }

    /** One step of the CPU thread, from any good state in which it does not fetch past the end of a program. */
    method CpuTurn(gate: bool)
      requires Valid() && Inv(View()) && Next(View(), Cpu(gate)).Running?
      modifies this`procTable, this`atTest, this`open, sched, sched.live.Values, sems`contents, sems.table
      modifies disk.pendingRequests, disk.pendingRequests.nodes, files, files.inodes
      modifies segs, set seg | seg in segs.segList :: seg.used
      ensures Valid() && Inv(View()) && Running(View()) == Next(old(View()), Cpu(gate))
      ensures forall o | o in Objects() :: o in old(Objects()) || fresh(o)
    {
      hide Kernel.Objects;
      hide Kernel.Valid, Linked, Inv, CpuStep;
      InvLinked(View());
      NextInv(View(), Cpu(gate));
      if atTest {
        LoopTest();
      } else {
        LoopHead(gate);
      }
    }

    /** One turn of the disk thread. */
    method DiskTurn()
      requires Valid()
      modifies disk`currTrack, disk`forwardDir, disk.pendingRequests, disk.pendingRequests.nodes
      modifies sched`contents, sched`high, sched`low, sched`blocked
      ensures Valid() && View() == DiskTick(old(View()))
      ensures Objects() <= old(Objects())
    {
      hide Scheduler.Objects, SemaphoreTable.Objects, DiskScheduler.Objects, FileTable.Objects, SegmentTable.Objects;
      hide AllAmong, SemaphoreTable.WaitersAmong, Kernel.ListsShown;
      hide Scheduler.Valid, SemaphoreTable.Valid, DiskScheduler.Valid, FileTable.Valid, SegmentTable.Valid;
      hide UnblockAll, Served, NotOn, Move;
      disk.Turn(sched);
    }

    // ---------------------------------------------------------- process_create

    method RegisterOne(name: string)
      requires Valid()
      modifies sems
      ensures Valid() && View() == old(View()).(sems := Register(old(View()).sems, name))
      ensures forall i | 0 <= i < |sems.table| :: sems.table[i] in old(sems.table) || fresh(sems.table[i])
      ensures forall o | o in Objects() :: o in old(Objects()) || fresh(o)
    {
      hide Scheduler.Objects, SemaphoreTable.Objects, DiskScheduler.Objects, FileTable.Objects, SegmentTable.Objects;
      hide DiskScheduler.RequestersAmong, Kernel.ListsShown;
      hide Scheduler.Valid, SemaphoreTable.Valid, DiskScheduler.Valid, FileTable.Valid, SegmentTable.Valid;
      sems.AddNew(name);
    }

    /** read_semaphores: the names of the program, in order. */
    method RegisterSemaphores(names: seq<string>)
      requires Valid()
      modifies sems
      ensures Valid() && View() == old(View()).(sems := RegisterAll(old(View()).sems, names))
      ensures forall o | o in Objects() :: o in old(Objects()) || fresh(o)
    {
      hide Kernel.Objects;
      hide Kernel.Valid, Register;
      var i := 0;
      while i < |names|
        invariant i <= |names| && Valid()
        invariant forall o | o in Objects() :: o in old(Objects()) || fresh(o)
        invariant View() == old(View()).(sems := View().sems)
        invariant RegisterAll(View().sems, names[i..]) == RegisterAll(old(View()).sems, names)
      {
        assert names[i..][0] == names[i] && names[i..][1..] == names[i + 1..];
        RegisterOne(names[i]);
        i := i + 1;
      }
    }

    /** instr_parse looks every semaphore up, and gives up on the first one that is not registered. */
    method CheckCode(code: seq<Instr>) returns (ok: bool)
      requires Valid()
      ensures ok <==> forall i | 0 <= i < |code| :: Uses(code[i], View().sems)
    {
      hide Kernel.Valid;
      var i := 0;
      while i < |code|
        invariant i <= |code| && forall j | 0 <= j < i :: Uses(code[j], View().sems)
      {
        if code[i].SemP? || code[i].SemV? {
          var at := FindSem(code[i].sem);
          if at == |sems.table| {
            return false;
          }
        }
        i := i + 1;
      }
      ok := true;
    }

    method LoadProgram(p: Prog)
      requires Valid()
      modifies segs, set seg | seg in segs.segList :: seg.used
      ensures Valid() && View() == old(View()).(segs := Load(old(View()).segs, NewSeg(p.segId, p.segSize, p.code)))
      ensures forall o | o in Objects() :: o in old(Objects()) || fresh(o)
    {
      hide Scheduler.Objects, SemaphoreTable.Objects, DiskScheduler.Objects, FileTable.Objects, SegmentTable.Objects;
      hide AllAmong, DiskScheduler.RequestersAmong, SemaphoreTable.WaitersAmong, Kernel.ListsShown;
      hide Scheduler.Valid, SemaphoreTable.Valid, DiskScheduler.Valid, FileTable.Valid, SegmentTable.Valid;
      hide Load, NewSeg;
      segs.LoadRequest(p.segId, p.segSize, p.code);
    }

    lemma NewcomerUnknown(process: Process)
      requires Valid() && process.id !in View().q.procs
      ensures process.id !in sched.live && AllAmong(procTable + [process], sched.live[process.id := process])
      ensures sems.WaitersAmong(sched.live[process.id := process])
      ensures disk.RequestersAmong(sched.live[process.id := process])
    {
      hide AllAmong, DiskScheduler.RequestersAmong, SemaphoreTable.WaitersAmong, Kernel.ListsShown;
      hide SemaphoreTable.Valid, DiskScheduler.Valid, FileTable.Valid, SegmentTable.Valid;
      AllAmongWith(procTable, sched.live, process);
      sems.WaitersWith(sched.live, process);
      disk.RequestersWith(sched.live, process);
    }

    twostate lemma ListsWith(process: Process)
      requires old(ListsShown()) && process.id !in old(sched.live) && process.oFiles == []
      requires sched.live == old(sched.live)[process.id := process] && open == old(open)[process.id := []]
      requires forall id | id in old(sched.live) :: old(sched.live)[id].oFiles == old(sched.live[id].oFiles)
      ensures ListsShown()
    {
    }

    /** MEM_LOAD_FINISH, the first half: the process enters the process table. */
    method TableProcess(process: Process)
      requires Valid() && process.id !in View().q.procs && process.codeLen == |process.code| && process.oFiles == []
      modifies this`procTable, this`open, sched`live, sched`contents
      ensures Valid() && sched.IsLive(process) && View() == Tabled(old(View()), process.id, process.View())
      ensures Objects() <= old(Objects()) + {process}
    {
      hide Scheduler.Objects, SemaphoreTable.Objects, DiskScheduler.Objects, FileTable.Objects, SegmentTable.Objects;
      hide AllAmong, DiskScheduler.RequestersAmong, SemaphoreTable.WaitersAmong, Kernel.ListsShown;
      hide Scheduler.Valid, SemaphoreTable.Valid, DiskScheduler.Valid, FileTable.Valid, SegmentTable.Valid;
      NewcomerUnknown(process);
      sched.Welcome(process);
      procTable, open := procTable + [process], open[process.id := []];
      ListsWith(process);
    }

    /** MEM_LOAD_FINISH, the second half: the process is ready, in the queue that its priority selects. */
    method EnlistProcess(process: Process)
      requires Valid() && sched.IsLive(process)
      modifies sched`high, sched`low, sched`contents, process`state
      ensures Valid() && process.id in old(View()).q.procs
      ensures View() == Enqueued(old(View()), process.id, process.priority)
    {
      hide AllAmong, DiskScheduler.RequestersAmong, SemaphoreTable.WaitersAmong, Kernel.ListsShown;
      hide Scheduler.Valid, SemaphoreTable.Valid, DiskScheduler.Valid, FileTable.Valid, SegmentTable.Valid;
      sched.Enlist(process);
    }

    /** A new process record, with the next id. */
    method NewProcess(p: Prog) returns (process: Process)
      requires Valid()
      modifies this`nextProcId
      ensures Valid() && View() == old(View()).(nextId := old(View()).nextId + 1)
      ensures fresh(process) && process.id == old(View()).nextId && process.priority == p.priority
      ensures process.codeLen == |process.code| && process.oFiles == []
      ensures process.View() == Proc(p.code, p.segId, 0, 0, NEW)
    {
      hide AllAmong, DiskScheduler.RequestersAmong, SemaphoreTable.WaitersAmong, Kernel.ListsShown;
      hide Scheduler.Valid, SemaphoreTable.Valid, DiskScheduler.Valid, FileTable.Valid, SegmentTable.Valid;
      process := new Process(nextProcId, p);
      nextProcId := nextProcId + 1;
    }

    /** The second half of a creation: the program is loaded, and its process enters the tables. */
    method Bring(p: Prog)
      requires Valid() && View().nextId !in View().q.procs
      modifies this`procTable, this`open, this`nextProcId, sched`live, sched`high, sched`low, sched`contents
      modifies segs, set seg | seg in segs.segList :: seg.used
      ensures Valid() && View() == Brought(old(View()), p)
      ensures forall o | o in Objects() :: o in old(Objects()) || fresh(o)
    {
      hide Kernel.Objects, Kernel.Valid, Kernel.View, Load, NewSeg, Enqueued;
      var process := NewProcess(p);
      LoadProgram(p);
      TableProcess(process);
      EnlistProcess(process);
    }

    /** process_create from a parsed program; it exits where the program uses a semaphore that is not registered. */
    method CreateProcess(p: Prog) returns (created: bool)
      requires Valid() && View().nextId !in View().q.procs
      modifies this`procTable, this`open, this`nextProcId, sched`live, sched`high, sched`low, sched`contents
      modifies sems, segs, set seg | seg in segs.segList :: seg.used
      ensures if created then Valid() && Running(View()) == Create(old(View()), p) else Create(old(View()), p).Exit?
      ensures forall o | o in Objects() :: o in old(Objects()) || fresh(o)
    {
      CreateRuns(View(), p);
      CreateSteps(View(), p);
      hide Kernel.Objects, Kernel.Valid, RegisterAll, Load, NewSeg, Create, Brought;
      RegisterSemaphores(p.sems);
      created := CheckCode(p.code);
      if created {
        Bring(p);
      }
    }
  }
}
