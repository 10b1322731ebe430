# The kernel of the operating system simulator, verified

The simulator runs synthetic programs on one CPU. Its kernel owns a process table, a scheduler with a high and a low
queue, counting semaphores with FIFO waiters, a SCAN disk, a table of open files and a segmented, paged memory. The
modules are small; what is hard lies between them, because one process record can be named by the process table, a
scheduler queue, the waiters of a semaphore and the pending requests of the disk, and no single function keeps these
in agreement.

The project has three layers.

1. **The state machine** (`Program`, `Scan`, `KernelState` in `State.dfy`). The kernel as a value, and every system
   call, interrupt, CPU step, disk turn and creation as a function on it. A step leads to a state, to `Overrun` (a
   fetch past the end of the code), to `Fault` (a segment, page, semaphore or waiter that is not there) or to `Exit`
   (a program that names a semaphore nobody registered).
2. **What holds over all runs** (`Partition`, `Placement`, `Budget`, `Semaphores`, `FileCounts`, `SegmentFacts`,
   `Runs`, `Steps`, `CodeBounds`, `Mutex`, `Deadlock`, `Termination`, `Completion`, `Fairness`, `Histories`, `Service`,
   `Overruns`, `Effects`). A run is any interleaving of CPU steps, disk turns and creations. One invariant, `Runs.Inv`, holds in
   every reachable state; on it rest mutual exclusion, deadlock freedom, termination, the service bound of the disk,
   the exact condition for a fetch past the end, semaphore histories, time budgets, inode counts and the memory account.
   `Effects` tells of the state before and the state after each step what has changed and what has not: the order of
   the queues, every charge, and the record, file, page and segment.
3. **The code that changes things in place** (`LinkedList`, `Scheduling`, `SemaphoreTables`, `DiskSchedulers`,
   `FileTables`, `SegmentTables`, `Kernels`, `Simulations`). Classes with the source's fields, whose methods are proved
   to take the steps of the state machine. `Kernels.Kernel` puts them together, and `Simulations.Run` takes it through
   any run, so that the results of layer 2 are results about its objects. Each class keeps a ghost value of itself
   (`contents`, `nodes`) that `Valid()` ties to its fields.

## Atomic steps

The CPU, disk and terminal threads of the simulator change the kernel without a common lock. Here one CPU step (the
rescheduling of an idle CPU, one fetch and evaluation, or one test at the end of the do-while of `cpu/cpu.c:66-108`
with the teardown or preemption after it), one disk turn and one creation are atomic, and they interleave in any
order. The clock that opens the CPU's gate is a free boolean of the step.

## Hypotheses

`Program.ValidProg` and `Runs.Allowed` hold them: code is not empty, execution and print times and segment sizes are
not negative, tracks are between 0 and 200, and no two live processes share a segment id (which `README.md:80` of the
repository requires). Results that need more say so: `Disciplined` (requests and releases of each semaphore alternate,
starting with a request and ending with a release), `Ordered` (each request is for a semaphore ranked above those
held), `EndsOnCpu` (the last instruction is an execution or a release). Termination is stated twice: for a driver that
alternates one CPU step, with its gate open, and one disk turn; and for every schedule of fair rounds
(`Fairness.Fair`), in which the steps come in any order and number and the gate may stay closed for as long as the CPU
has nothing to execute, or has had its turn in the round.

## Where the code decides

- Priority 1 starts a process in the high queue (`kernel/kernel.c:191`); `README.md:81` says that 0 is the highest.
- Unblocking does not set the state back (`sched/sched.c:92-114`): a process in a ready queue may still say BLOCKED.
- `seg_list_size` counts the segments ever loaded; freeing does not decrease it (`memory/memory.c:140-166`).
- `code_len` counts blank lines, which the parser then skips (`process/process.c:237-238`, `process/process.c:260-261`);
  the model takes code sections without blank lines.
- A process that leaves the CPU with its last instruction comes back past its code, and the do-while of `cpu/cpu.c`
  fetches before it tests. This is a property of the code, not of the model: `Overruns.OverrunExactly` says for exactly
  which programs it happens, those that end with a read, a write, a print or a request.
- The turnaround formula of `disk/disk.c:121-140` overcharges where the arm goes backward and already stands on the
  track; `Scan.ChargeMeetsMotion` is the exact condition, and `Service.OverchargeReached` a state that meets it.

## Model

| member | source | states |
|---|---|---|
| Runs.EveryRunIsSafe | kernel/kernel.c:83-171 | In every run no step uses a segment, page, semaphore or waiter that is not there, and every state reached satisfies the whole invariant |
| Runs.NextInv | kernel/kernel.c:83-207 | Each atomic step keeps the whole invariant and never faults |
| Runs.CpuStepInv | cpu/cpu.c:50-124 | A CPU step keeps the invariant; it runs past a program exactly when the gate is open and the process on the CPU has no code left |
| Runs.FinishInv | process/process.c:108-142 | The teardown finds its segment, the process is gone afterwards, and the invariant still holds, so no table, queue, waiter list or request names it |
| Runs.CreateInv | process/process.c:74-98 | A creation with an unused segment id keeps the whole invariant |
| Runs.FetchFinds | cpu/cpu.c:76-87 | For every live process with code left the segment lookup succeeds, the page exists and the segment holds the program that was loaded |
| Placement.PartitionLinks | process/process.c:108-142 | If every live process is counted once among CPU, queues and blocked, and blocked is counted by waiters and requests, no list names a process that is not live |
| Placement.BlockedCount | terminal/terminal.c:1117-1126 | The length of the blocked queue is the number of semaphore waiters plus the number of pending disk requests |
| Placement.EvalPart | kernel/kernel.c:217-263 | Every instruction keeps the exact partition, process by process |
| Placement.PrintEffect | kernel/kernel.c:153-161 | Over the whole call a print leaves the blocked queue as it was, charges its process and sends it to the end of the low queue |
| Placement.FinishPart | process/process.c:108-142 | The teardown takes exactly its process out of the partition |
| Placement.PurgeNothing | process/process.c:128-133 | After the rescheduling that starts a teardown no queue holds the process: the three searches find nothing |
| Placement.TickPart | disk/disk.c:191-219 | A disk turn keeps the exact partition |
| Budget.ScheduleEffect | sched/sched.c:50-82 | The head of the high queue is dispatched with exactly 1000, or else the head of the low one with the clamped sum; who is parked in which state; and no other process changes |
| Budget.PRequestBudget | semaphore/semaphore.c:112-128 | After a request the state says BLOCKED exactly when the process was put to sleep, and only then has it left the CPU |
| Budget.EvalBudget | kernel/kernel.c:217-263 | Every instruction keeps budgets at most 2000, RUNNING on the CPU, BLOCKED in the blocked queue, and waiters for the disk at most -3000 |
| Histories.RequestPays | kernel/kernel.c:225-235 | In any reachable state a request costs 200, never below zero, exactly when it does not put the process to sleep |
| Histories.BackFromDisk | disk/disk.c:156 | In any run, the next time a process that waited for the disk is dispatched, its budget is exactly 0 |
| Histories.PendingOwes | disk/disk.c:121-157 | Every process with a pending request is in the situation that BackFromDisk speaks of |
| Semaphores.SemsAfterOk | semaphore/semaphore.c:112-154 | The number of waiters stays max(0, -S) over every request and release |
| Semaphores.AlwaysAnswerable | semaphore/semaphore.c:142-154 | A release that must wake somebody never takes from an empty list |
| Histories.SemaphoreHistory | semaphore/semaphore.c:112-154 | Over any run S is 1 minus requests plus releases, and those put to sleep, in order, are those woken, in order, followed by the present waiters |
| Histories.StepHistory | semaphore/semaphore.c:112-154 | One step appends to the sleepers, takes from the front for the woken, and moves S by one |
| Mutex.MutualExclusionAlways | semaphore/semaphore.c:112-154 | In every state of every run of disciplined programs, holders of a semaphore plus max(S, 0) is 1, also right after a hand-over |
| Mutex.InsideAdvance | process/process.h:8 | Advancing pc over an instruction moves a process in or out of a critical section by exactly what the instruction requests or releases |
| Deadlock.DeadlockFree | semaphore/semaphore.c:112-154 | In every state of every run of disciplined programs with one common order, while a process lives one is on the CPU, ready, or waiting for the disk |
| Deadlock.HigherWaiter | kernel/kernel.c:271-285 | In a stuck state a semaphore with waiters has a holder, and that holder itself waits, for a semaphore of higher rank |
| Termination.RoundDecreases | cpu/cpu.c:50-124 | One CPU step followed by one disk turn decreases the measure from every state that is not stuck, unless the CPU overruns |
| Termination.TickServes | disk/disk.c:191-219 | In every reachable state a disk turn appends those it serves to the low queue in request order, takes exactly them out of the blocked queue, and touches neither CPU, high queue nor records |
| Completion.DriverEnds | cpu/cpu.c:50-124 | Alternating CPU steps, with the gate open, and disk turns empties the process table, or overruns a program, within as many rounds as the measure |
| Completion.EverybodyFinishes | cpu/cpu.c:50-124 | From every reachable state of disciplined, ordered programs that end on the CPU, the driver finishes every process and everything is given back |
| Completion.EmptyReturned | process/process.c:108-142 | With no process left, queues, requests, files and segments are empty, the memory is whole and every semaphore has value 1 |
| CodeBounds.NoOverrun | cpu/cpu.c:66-122 | In every run of every mix of programs no program that ends in an execution or a release is fetched past its end, and every live process with such a program has code left unless the CPU is about to test it |
| Fairness.FairRoundDecreases | cpu/cpu.c:63-124 | Under any clock, every round in which the gate opens on a loaded CPU, or the CPU was never loaded, brings the end nearer, in any order and number of steps |
| Fairness.OpenGateIsFair | cpu/cpu.c:69-74 | With the gate open, three CPU steps and a disk turn are a fair round from any state |
| Fairness.EverybodyFinishesFairly | cpu/cpu.c:50-124 | From every reachable state of disciplined, ordered programs that end on the CPU, every schedule of enough fair rounds finishes everybody and everything is given back |
| Overruns.OverrunExactly | cpu/cpu.c:66-108 | Any valid program can be fetched past its end in some run of some mix if and only if its last instruction is a read, a write, a print or a request |
| Overruns.SomeRunOverruns | cpu/cpu.c:66-108 | The run that shows it: helpers tune the semaphores so that only requests of the last semaphore put the program to sleep, and wake it each time, until it is fetched past its end |
| Overruns.GameIsLost | cpu/cpu.c:66-122 | From every state so tuned the run goes on to the fetch past the end, whatever the program does before its last instruction |
| Effects.ScheduleQueues | sched/sched.c:50-82 | For every flag the dispatched process leaves the front of the high queue, or of the low one if the high one is empty; the preempted process goes to the end of the high queue, the blocked one to the end of the blocked queue; everybody else keeps the place |
| Effects.ScheduleRecords | sched/sched.c:54-79 | For every flag the record of the process that had the CPU changes in its state only, and no record but that of the dispatched process changes besides |
| Effects.ClosingTest | cpu/cpu.c:105-122 | In every reachable state at the closing test with code left: with budget left the same process keeps the CPU and nothing changes; with none it is last in the high queue, ready, its budget as it is, and the old head of the high queue, else of the low one, has the CPU |
| Effects.LoopHeadEffect | cpu/cpu.c:50-74 | An idle CPU gets the head of the high queue, else of the low one, and nothing else changes; with the gate closed nothing changes |
| Effects.TeardownEffect | process/process.c:108-142 | At the end of a process the next one gets the CPU, the queues keep their order, the finished process is in no table, exactly its segment leaves, and its size is free again |
| Effects.ExecEffect | kernel/kernel.c:219-226 | An execution of length v takes v from the budget of its process and changes nothing else but pc and the used bit |
| Effects.GrantedEffect | kernel/kernel.c:227-237 | A request that is granted costs its process 200, never below zero, and moves nobody |
| Effects.RefusedEffect | semaphore/semaphore.c:112-128 | A request that is not granted puts its process at the end of the blocked queue, unpaid, and the next process has the CPU |
| Effects.ReleaseEffect | kernel/kernel.c:238-244 | A release costs 200, never below zero, whether it wakes somebody or not; the longest waiter goes from the blocked queue to the end of the high one |
| Effects.FetchEffect | cpu/cpu.c:76-91 | Every executed instruction marks page pc / 256 of the segment of its process, and every other bit of every segment stays as it was |
| Effects.DiskEffect | kernel/kernel.c:113-152 | A read or write of a track puts its process at the end of the blocked queue, charges it, appends the request, and uses the file of the track: the list of the process gains the inode at its end unless it was in it, and the other lists stay |
| Effects.AccessEffect | file/file.c:125-199 | The inode is active afterwards, its count goes up by one exactly on the first use by the process, and no other inode changes |
| Effects.PrintStep | kernel/kernel.c:153-161 | A print charges its process, which leaves the CPU for the end of the low queue, while nobody stays in the blocked queue for it |
| Effects.CreateEffect | kernel/kernel.c:182-195 | A creation appends a ready process without budget to the process table and to the high queue for priority 1, else to the low one; its segment of 1024 bytes per kilobyte is loaded, its new semaphores have value 1, and nothing else changes |
| Effects.CreationGivesUp | process/instruction.c:26-33 | A creation exits exactly when the code names a semaphore that neither exists nor is in the list of the program |
| Effects.OthersPend | disk/disk.c:191-219 | What stays pending are exactly the requests on other tracks, in their order |
| Effects.DiskTurnEffect | disk/disk.c:62-78 | A disk turn changes the requests, the arm and the queues and nothing else |
| Scan.ChargeMeetsMotion | disk/disk.c:121-140 | The charge is 5000 plus 100 per head move the loop really makes, plus 100 per move of a way from the track down to 0 and back up exactly when the arm goes backward and already stands on it |
| Scan.SingleCycle | disk/disk.c:65-78 | The 402 arm states form one cycle that meets each state exactly once |
| Service.ServedInTime | disk/disk.c:191-219 | In every run from a reachable state, a pending request stays pending up to the disk turn numbered Delay, at most the 401st, taken with the arm on its track; then it is gone and its process is in the low queue |
| Service.TickKeepsOrServes | disk/disk.c:62-78 | A disk turn serves a pending request exactly when the arm stands on its track |
| Service.OverchargeReached | disk/disk.c:134-140 | After 201 disk turns a request for the last track is charged two whole sweeps although the next turn serves it |
| Scan.ServiceBound | disk/disk.c:65-78 | The arm first stands on a given track after Delay turns, which is at most 400 |
| Scan.ServiceBoundTight | disk/disk.h:22 | The bound is attained |
| SegmentFacts.LoadEffect | memory/memory.c:189-209 | A load that fits takes its size and changes no bit; one that does not sweeps: in each old segment a first stretch of bits is cleared, which ends at the first page with which enough is freed or at the last page, one page is free for each of them unused, and nothing else is free; the new segment is last |
| SegmentFacts.LoadAccounted | memory/memory.c:189-209 | Of the memory account: free memory stays non-negative and, with the live segments, at least the whole, and stays exact while no swap is needed; what a load frees is in LoadEffect |
| SegmentFacts.FreeAccounted | memory/memory.c:140-166 | Freeing keeps the account, keeps it exact if it was, and gives back the whole memory with the last segment |
| Histories.ExactUntilSwap | memory/memory.c:189-209 | Until the first page swap of a run, free memory and live segments add up to the whole memory |
| SegmentFacts.SweepEffect | memory/memory.c:73-93 | A sweep clears exactly a first stretch of used bits in each segment, frees one page for each of them unused on entry, and each stretch ends where the size is reached or at the last page |
| SegmentFacts.SweepBound | memory/memory.c:73-93 | A sweep frees less than the size plus one page per segment, because the break leaves the inner loop only |
| SegmentFacts.SecondSweep | memory/memory.c:73-93 | A second sweep with no execution between frees at least the size, or every page there is |
| SegmentFacts.MatchedAdd | memory/memory.c:189-209 | A load with an unused id keeps segments and live processes in one-to-one correspondence by id |
| SegmentFacts.MatchedFree | memory/memory.c:140-166 | A teardown frees the segment of its process and no other |
| FileCounts.AccessOk | file/file.c:125-199 | Of the invariant: inode ids stay distinct, every count equal to the number of processes that list the inode and at least 1, and every list without duplicates; what a read or write opens is in Effects.DiskEffect |
| FileCounts.CloseAllOk | file/file.c:228-247 | A finishing process gives up exactly its own uses, and inodes nobody uses leave the table |
| FileCounts.NobodyNothing | file/file.c:228-247 | Without live processes no file is open |
| FileCounts.InodeNumberInjective | file/file.h:20 | Different tracks are different files, and the inverse macros lead back from the inode number to the track |
| LinkedList.List.Add | tools/list.c:69-86 | Appends, and keeps head, tail, next, prev and size consistent |
| LinkedList.List.Search | tools/list.c:102-108 | Returns the first node whose content matches, or null if there is none |
| LinkedList.List.Empty | tools/list.c:117-119 | Says whether the sequence is empty |
| LinkedList.List.RemoveHead | tools/list.c:127-143 | Drops and detaches the first node, or returns null |
| LinkedList.List.RemoveNode | tools/list.c:152-162 | Deletes a member at its place, and leaves the node its own links |
| LinkedList.List.RemoveTail | tools/list.c:172-188 | Drops and detaches the last node, or returns null |
| Scheduling.Scheduler.ScheduleProcess | sched/sched.c:50-82 | The queues, the process on the CPU, budgets and states become what the state machine says, for every flag; Effects.ScheduleQueues and ScheduleRecords say what that is |
| Scheduling.Scheduler.UnblockProcess | sched/sched.c:92-114 | The first such process leaves the blocked queue and joins the end of the high or low one; otherwise nothing changes |
| Scheduling.Extract | process/process.c:154-156 | Search by process id and removal together delete the first entry with that id, and say whether there was one |
| Scheduling.Scheduler.Enlist | kernel/kernel.c:182-195 | The new process is READY at the end of the queue its priority selects |
| SemaphoreTables.Semaphore.P | semaphore/semaphore.c:112-128 | S goes down by one, and below zero the process on the CPU joins the waiters and is put to sleep |
| SemaphoreTables.Semaphore.V | semaphore/semaphore.c:142-154 | S goes up by one, and up to zero the longest waiter goes to the high queue |
| SemaphoreTables.SemaphoreTable.AddNew | semaphore/semaphore.c:50-83 | Registers a semaphore of value 1 unless the name is taken |
| SemaphoreTables.SemaphoreTable.Find | semaphore/semaphore.c:93-100 | Finds the first semaphore of that name |
| DiskSchedulers.DiskScheduler.Turnaround | disk/disk.c:121-140 | Computes the charge of the state machine |
| DiskSchedulers.DiskScheduler.MakeRequest | disk/disk.c:121-157 | Appends the request and charges exactly its process |
| DiskSchedulers.DiskScheduler.Resolve | disk/disk.c:191-219 | Walking the linked list while removing from it leaves exactly the requests on other tracks, in order, and unblocks the served processes in request order |
| DiskSchedulers.DiskScheduler.MoveArm | disk/disk.c:68-78 | Moves the arm one track, or turns it at an end |
| DiskSchedulers.DiskScheduler.Turn | disk/disk.c:62-78 | One turn of the disk loop is one disk step of the state machine |
| FileTables.FileTable.FindInode | file/file.c:103-110 | Finds the first inode with that number |
| FileTables.HasOpened | process/process.c:328-335 | Says whether the process lists the inode |
| FileTables.FileTable.OpenRequest | file/file.c:208-218 | Appends an inode that nobody uses yet |
| FileTables.FileTable.Request | file/file.c:125-199 | Activates the inode if need be and counts the process as a user once |
| FileTables.FileTable.CloseRequest | file/file.c:228-247 | One user less; the inode leaves the table with its last user |
| FileTables.FileTable.CloseFiles | process/process.c:119-121 | Closes the files of a process in the order of its list |
| SegmentTables.Segment.constructor | memory/memory.c:17-33 | Pages are counted by rounding up |
| SegmentTables.Segment.Populate | memory/memory.c:43-49 | After both loops every instruction is where a fetch looks for it, no write destroyed an earlier one, and no page is marked used |
| SegmentTables.Segment.Fetch | cpu/cpu.c:76-92 | A fetch through page number and offset returns the instruction at pc and marks its page |
| SegmentTables.PlacesDiffer | memory/memory.h:18-21 | Different instructions have different places in the page table |
| SegmentTables.Segment.SweepPagesOf | memory/memory.c:78-89 | The inner loop of the sweep |
| SegmentTables.SegmentTable.PageSwap | memory/memory.c:73-93 | The second-chance sweep over all segments, in place |
| SegmentTables.SegmentTable.Find | memory/memory.c:122-129 | Finds the first segment with that id |
| SegmentTables.SegmentTable.LoadRequest | memory/memory.c:189-209 | Reserves memory with a swap if need be and adds the populated segment, as Load does, which SegmentFacts.LoadEffect describes page by page |
| SegmentTables.SegmentTable.FreeSegment | memory/memory.c:140-166 | Drops the segment and gives back its size, up to the whole memory |
| Kernels.Kernel.constructor | kernel/kernel.c:45-73 | A new kernel is the initial state of the state machine, and all its objects are new |
| Kernels.Kernel.RequestDisk | kernel/kernel.c:113-152 | Parking, charging, queueing and counting the file together are one disk request of the state machine, whose effect is Effects.DiskEffect |
| Kernels.Kernel.RequestPrint | io/print.c:15-21 | The process is parked, charged and unblocked again within the call |
| Kernels.Kernel.EvalInstr | kernel/kernel.c:217-263 | One instruction changes the objects as the state machine says |
| Kernels.Kernel.FetchInstr | cpu/cpu.c:76-92 | pc is taken and advanced, the instruction read through the segment table is the one of the program, and its page is marked as in Effects.FetchEffect |
| Kernels.Kernel.FinishCurrent | process/process.c:108-142 | From any state that satisfies the invariant, the teardown leaves no object that names the process, and adds none |
| Kernels.Kernel.CpuTurn | cpu/cpu.c:50-124 | A CPU step of the objects is a CPU step of the state machine (Effects.ClosingTest, LoopHeadEffect and TeardownEffect, and one effect for each instruction), keeps the global invariant, and adds only new objects |
| Kernels.Kernel.DiskTurn | disk/disk.c:62-78 | A disk turn of the objects is a disk step of the state machine and adds no object |
| Kernels.Kernel.RegisterSemaphores | process/process.c:300-305 | The names of a program are registered in order |
| Kernels.Kernel.CheckCode | process/instruction.c:26-33 | Says whether every semaphore the code names is registered |
| Kernels.Kernel.CreateProcess | process/process.c:74-98 | Creates exactly what the state machine creates, adding only new objects, and gives up exactly where it exits |
| Simulations.StepDisk | disk/disk.c:62-78 | From any state that satisfies the invariant, a disk turn of the objects is the disk step of a run and keeps the invariant |
| Simulations.StepCreate | process/process.c:74-98 | An allowed creation on the objects is the creation step of a run and keeps the invariant, or exits where the run does |
| Simulations.Run | kernel/kernel.c:83-207 | The objects go through any sequence of CPU steps, disk turns and creations exactly as the state machine does, and keep the invariant |
| Simulations.Simulate | cpu/cpu.c:50-124 | From a new kernel, every run of programs that end on the CPU goes through to its last step or to a creation that exits |

## Left out

- `terminal/terminal.c`, `terminal/log.c`, `main.c`: windows, log lists and counters; the count of semaphore waiters is kept as a definition.
- Threads, mutexes and real time: see "Atomic steps"; races inside a system call are not modelled.
- Reading and parsing program files: a creation takes a parsed program.
- Allocation failure, `free`, leaks and the exits on out of memory.
- Integer width: sizes, budgets and ids are unbounded integers.
- `angular_v`, inode sizes, timestamps and modes, `page_qtd`, `page_inuse_index`, process names: nothing depends on them.
- The endless loops of `cpu/cpu.c` and `disk/disk.c`: a method is one turn of the loop; runs are sequences of turns.
- The lists of the scheduler, the waiters, the files, the segments and the process table are sequence fields; the linked nodes of `tools/list.c` are modelled once, and used for the pending requests, which are removed during the walk over them.
- `semaphore_find` returns a place in the table where the source returns a pointer into it, and `realloc` of the table is an append.
- A fetch past the end of the code reads memory that is not there; the model stops with `Overrun`, and `Kernels.Kernel.CpuTurn` requires that this does not happen, which `Simulations.Simulate` discharges over whole runs for programs that end on the CPU.
