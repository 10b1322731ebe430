/** The kernel as a state machine on values: its state, and every system call, interrupt and CPU step as a function.
    The classes of the imperative modules are proved against these functions. */
module KernelState {
  import opened Program
  import opened Scan

  type Id = int

  datatype Option<+T> = None | Some(value: T)

  function Max(a: int, b: int): int { if a >= b then a else b }

  function Min(a: int, b: int): int { if a <= b then a else b }

  // ------------------------------------------------------------ sched/sched.c

  datatype ProcState = NEW | BLOCKED | READY | RUNNING | TERMINATED

  /** code is the program that was loaded for the process; the CPU reads it through the segment table only. */
  datatype Proc = Proc(code: seq<Instr>, segId: int, pc: nat, remaining: int, state: ProcState)

  datatype Flag = NONE | IO_REQUESTED | QUANTUM_COMPLETED | SEMAPHORE_BLOCKED

  const HIGH_QUANTUM := 1000
  const LOW_QUANTUM := 2000

  datatype Sched = Sched(procs: map<Id, Proc>, cur: Option<Id>, high: seq<Id>, low: seq<Id>, blocked: seq<Id>)

  predicate Known(q: Sched) {
    && (q.cur.Some? ==> q.cur.value in q.procs)
    && (forall id | id in q.high :: id in q.procs)
    && (forall id | id in q.low :: id in q.procs)
    && (forall id | id in q.blocked :: id in q.procs)
  }

  function SetRemaining(q: Sched, id: Id, r: int): Sched
    requires id in q.procs
  {
    q.(procs := q.procs[id := q.procs[id].(remaining := r)])
  }

  function SetState(q: Sched, id: Id, s: ProcState): Sched
    requires id in q.procs
  {
    q.(procs := q.procs[id := q.procs[id].(state := s)])
  }

  /** The head of the high queue, else of the low one, with its budget renewed. */
  function Take(q: Sched): (Option<Id>, Sched)
    requires Known(q)
  {
    if q.high != [] then
      var id := q.high[0];
      (Some(id), SetRemaining(q.(high := q.high[1..]), id,
                              Max(1000, Min(HIGH_QUANTUM, q.procs[id].remaining + HIGH_QUANTUM))))
    else if q.low != [] then
      var id := q.low[0];
      (Some(id), SetRemaining(q.(low := q.low[1..]), id,
                              Max(0, Min(LOW_QUANTUM, q.procs[id].remaining + LOW_QUANTUM))))
    else (None, q)
  }

  /** Where the process that had the CPU goes. */
  function Park(q: Sched, flag: Flag): Sched
    requires q.cur.Some? ==> q.cur.value in q.procs
  {
    if q.cur.None? then q
    else match flag
         case IO_REQUESTED => SetState(q.(blocked := q.blocked + [q.cur.value]), q.cur.value, BLOCKED)
         case SEMAPHORE_BLOCKED => SetState(q.(blocked := q.blocked + [q.cur.value]), q.cur.value, BLOCKED)
         case QUANTUM_COMPLETED => SetState(q.(high := q.high + [q.cur.value]), q.cur.value, READY)
         case NONE => q
  }

  function Install(q: Sched, next: Option<Id>): Sched
    requires next.Some? ==> next.value in q.procs
  {
    match next
    case None => q.(cur := None)
    case Some(id) => SetState(q, id, RUNNING).(cur := next)
  }

  function Schedule(q: Sched, flag: Flag): Sched
    requires Known(q)
  {
    var (next, taken) := Take(q);
    Install(Park(taken, flag), next)
  }

  /** s without its first x. */
  function Remove<T(==)>(s: seq<T>, x: T): seq<T> {
    if s == [] then [] else if s[0] == x then s[1..] else [s[0]] + Remove(s[1..], x)
  }

  function Unblock(q: Sched, id: Id, toHigh: bool): Sched {
    if id !in q.blocked then q
    else
      var removed := q.(blocked := Remove(q.blocked, id));
      if toHigh then removed.(high := q.high + [id]) else removed.(low := q.low + [id])
  }

  // ------------------------------------------------------------ semaphore/semaphore.c

  datatype Sem = Sem(name: string, S: int, waiters: seq<Id>)

  /** The place of the first semaphore with that name; |sems| if there is none. */
  function SemIndex(sems: seq<Sem>, name: string): (i: nat)
    ensures i <= |sems| && (i < |sems| ==> sems[i].name == name) && forall j | 0 <= j < i :: sems[j].name != name
  {
    if sems == [] then 0 else if sems[0].name == name then 0 else 1 + SemIndex(sems[1..], name)
  }

  predicate Registered(sems: seq<Sem>, name: string) {
    SemIndex(sems, name) < |sems|
  }

  function Register(sems: seq<Sem>, name: string): seq<Sem> {
    if Registered(sems, name) then sems else sems + [Sem(name, 1, [])]
  }

  function RegisterAll(sems: seq<Sem>, names: seq<string>): seq<Sem>
    decreases |names|
  {
    if names == [] then sems else RegisterAll(Register(sems, names[0]), names[1..])
  }

  // ------------------------------------------------------------ disk/disk.c

  datatype Request = Request(proc: Id, track: int, read: bool, turnaround: int)

  datatype Disk = Disk(pending: seq<Request>, arm: Arm)

  function NotOn(pending: seq<Request>, track: int): seq<Request> {
    if pending == [] then [] else (if pending[0].track == track then [] else [pending[0]]) + NotOn(pending[1..], track)
  }

  function Served(pending: seq<Request>, track: int): seq<Id> {
    if pending == [] then []
    else (if pending[0].track == track then [pending[0].proc] else []) + Served(pending[1..], track)
  }

  function UnblockAll(q: Sched, ids: seq<Id>): Sched
    decreases |ids|
  {
    if ids == [] then q else UnblockAll(Unblock(q, ids[0], false), ids[1..])
  }

  // ------------------------------------------------------------ file/file.c

  datatype Inode = Inode(id: int, count: int)

  /** open holds the o_files list of every live process. */
  datatype Files = Files(inodes: seq<Inode>, open: map<Id, seq<int>>)

  function InodeNumber(track: int): int {
    (track * 521 + 8) * 948 + 5
  }

  /** The place of the first inode with that number; |inodes| if there is none. */
  function InodeIndex(inodes: seq<Inode>, num: int): (i: nat)
    ensures i <= |inodes| && (i < |inodes| ==> inodes[i].id == num) && forall j | 0 <= j < i :: inodes[j].id != num
  {
    if inodes == [] then 0 else if inodes[0].id == num then 0 else 1 + InodeIndex(inodes[1..], num)
  }

  /** A read or write of the file by a process that lists these files: activate its inode if need be, and count the
      process as a user once. */
  function AccessInodes(inodes: seq<Inode>, list: seq<int>, num: int): seq<Inode> {
    var i := InodeIndex(inodes, num);
    var active := if i < |inodes| then inodes else inodes + [Inode(num, 0)];
    if num in list then active else active[i := Inode(num, active[i].count + 1)]
  }

  function AccessList(list: seq<int>, num: int): seq<int> {
    if num in list then list else list + [num]
  }

  function Access(f: Files, id: Id, num: int): Files
    requires id in f.open
  {
    Files(AccessInodes(f.inodes, f.open[id], num), f.open[id := AccessList(f.open[id], num)])
  }

  function Close(inodes: seq<Inode>, num: int): seq<Inode> {
    var i := InodeIndex(inodes, num);
    if i == |inodes| then inodes
    else if inodes[i].count - 1 == 0 then inodes[..i] + inodes[i + 1..]
    else inodes[i := Inode(num, inodes[i].count - 1)]
  }

  function CloseAll(inodes: seq<Inode>, nums: seq<int>): seq<Inode>
    decreases |nums|
  {
    if nums == [] then inodes else CloseAll(Close(inodes, nums[0]), nums[1..])
  }

  // ------------------------------------------------------------ memory/memory.c

  const MAX_MEM_SIZE := 1024 * 1024 * 1024
  const INSTRUCTIONS_PER_PAGE := 256
  const PAGE_SIZE := 4096

  function PageCount(n: nat): nat {
    (n + INSTRUCTIONS_PER_PAGE - 1) / INSTRUCTIONS_PER_PAGE
  }

  /** A segment: the code its pages hold and the used bit of each page. */
  datatype Seg = Seg(id: int, size: int, code: seq<Instr>, used: seq<bool>)

  datatype Segs = Segs(list: seq<Seg>, listSize: int, remaining: int)

  /** The inner loop of the sweep, from page i on. */
  function SweepPages(used: seq<bool>, i: nat, freed: int, size: int): (r: (seq<bool>, int))
    requires i <= |used|
    ensures |r.0| == |used|
    decreases |used| - i
  {
    if i == |used| then (used, freed)
    else
      var freed' := if used[i] then freed else freed + PAGE_SIZE;
      if freed' >= size then (used[i := false], freed')
      else SweepPages(used[i := false], i + 1, freed', size)
  }

  function SweepSegs(list: seq<Seg>, freed: int, size: int): (r: (seq<Seg>, int))
    ensures |r.0| == |list|
  {
    if list == [] then (list, freed)
    else
      var (used, freed') := SweepPages(list[0].used, 0, freed, size);
      var (rest, freed'') := SweepSegs(list[1..], freed', size);
      ([list[0].(used := used)] + rest, freed'')
  }

  function NewSeg(id: int, kilobytes: int, code: seq<Instr>): Seg {
    Seg(id, kilobytes * 1024, code, seq(PageCount(|code|), _ => false))
  }

  function Load(t: Segs, seg: Seg): Segs {
    var newRemaining := t.remaining - seg.size;
    if newRemaining >= 0 then Segs(t.list + [seg], t.listSize + 1, newRemaining)
    else
      var (list, freed) := SweepSegs(t.list, 0, seg.size);
      Segs(list + [seg], t.listSize + 1, freed)
  }

  /** The place of the first segment with that id; |list| if there is none. */
  function SegIndex(list: seq<Seg>, id: int): (i: nat)
    ensures i <= |list| && (i < |list| ==> list[i].id == id) && forall j | 0 <= j < i :: list[j].id != id
  {
    if list == [] then 0 else if list[0].id == id then 0 else 1 + SegIndex(list[1..], id)
  }

  function Free(t: Segs, id: int): Segs
    requires SegIndex(t.list, id) < |t.list|
  {
    var i := SegIndex(t.list, id);
    Segs(t.list[..i] + t.list[i + 1..], t.listSize, Min(MAX_MEM_SIZE, t.remaining + t.list[i].size))
  }

  /** The fetch marks the page of pc as used. */
  function Touch(list: seq<Seg>, i: nat, pc: nat): seq<Seg>
    requires i < |list| && pc / INSTRUCTIONS_PER_PAGE < |list[i].used|
  {
    list[i := list[i].(used := list[i].used[pc / INSTRUCTIONS_PER_PAGE := true])]
  }

  // ------------------------------------------------------------ kernel/kernel.c, process/process.c, cpu/cpu.c

  /** atTest says that the CPU loop stands before the test that closes its do-while. */
  datatype KState = KState(q: Sched, table: seq<Id>, nextId: int, sems: seq<Sem>, disk: Disk, files: Files, segs: Segs,
                           atTest: bool)

  function Init(): KState {
    KState(Sched(map[], None, [], [], []), [], 1, [], Disk([], Arm(0, true)), Files([], map[]),
           Segs([], 0, MAX_MEM_SIZE), false)
  }

  /** Every process named anywhere is live: what the pointers of the kernel's lists rely on. */
  predicate Linked(k: KState) {
    && Known(k.q)
    && k.files.open.Keys == k.q.procs.Keys
    && (forall r | r in k.disk.pending :: r.proc in k.q.procs)
    && (forall i | 0 <= i < |k.sems| :: forall id | id in k.sems[i].waiters :: id in k.q.procs)
  }

  function PRequest(k: KState, i: nat): KState
    requires Known(k.q) && k.q.cur.Some? && i < |k.sems|
  {
    var sem := k.sems[i];
    if sem.S - 1 < 0 then
      k.(sems := k.sems[i := Sem(sem.name, sem.S - 1, sem.waiters + [k.q.cur.value])],
         q := Schedule(k.q, SEMAPHORE_BLOCKED))
    else k.(sems := k.sems[i := sem.(S := sem.S - 1)])
  }

  function VRequest(k: KState, i: nat): KState
    requires i < |k.sems| && (k.sems[i].S < 0 ==> k.sems[i].waiters != [])
  {
    var sem := k.sems[i];
    if sem.S + 1 <= 0 then
      k.(sems := k.sems[i := Sem(sem.name, sem.S + 1, sem.waiters[1..])], q := Unblock(k.q, sem.waiters[0], true))
    else k.(sems := k.sems[i := sem.(S := sem.S + 1)])
  }

  /** A process pays 200 for an operation on a semaphore. */
  function PayForSem(q: Sched, id: Id): Sched
    requires id in q.procs
  {
    SetRemaining(q, id, Max(0, q.procs[id].remaining - 200))
  }

  function DiskOp(k: KState, track: int, read: bool): KState
    requires Known(k.q) && k.q.cur.Some? && k.q.cur.value in k.files.open
  {
    var id := k.q.cur.value;
    var cost := Charge(k.disk.arm, track);
    var q := Schedule(k.q, IO_REQUESTED);
    k.(q := SetRemaining(q, id, q.procs[id].remaining - cost),
       disk := k.disk.(pending := k.disk.pending + [Request(id, track, read, cost)]),
       files := Access(k.files, id, InodeNumber(track)))
  }

  function PrintOp(k: KState, duration: int): KState
    requires Known(k.q) && k.q.cur.Some?
  {
    var id := k.q.cur.value;
    var q := Schedule(k.q, IO_REQUESTED);
    k.(q := Unblock(SetRemaining(q, id, q.procs[id].remaining - duration), id, false))
  }

  /** Whether the semaphore that the instruction names exists and, for a release that must wake, has someone to wake. */
  predicate Answerable(k: KState, instr: Instr) {
    match instr
    case SemP(s) => Registered(k.sems, s)
    case SemV(s) => var i := SemIndex(k.sems, s); i < |k.sems| && (k.sems[i].S < 0 ==> k.sems[i].waiters != [])
    case _ => true
  }

  function Eval(k: KState, instr: Instr): KState
    requires Linked(k) && k.q.cur.Some? && Answerable(k, instr)
  {
    var id := k.q.cur.value;
    match instr
    case Exec(v) => k.(q := SetRemaining(k.q, id, k.q.procs[id].remaining - v))
    case SemP(s) =>
      var k' := PRequest(k, SemIndex(k.sems, s));
      if k'.q.procs[id].state != BLOCKED then k'.(q := PayForSem(k'.q, id)) else k'
    case SemV(s) =>
      var k' := VRequest(k, SemIndex(k.sems, s));
      k'.(q := PayForSem(k'.q, id))
    case Read(t) => DiskOp(k, t, true)
    case Write(t) => DiskOp(k, t, false)
    case Print(d) => PrintOp(k, d)
  }

  /** What a step leads to: a state, a fetch past the end of the code, a use of something that is not there
      (or the exit that guards it), or the exit for a program that names an unregistered semaphore. */
  datatype Outcome = Running(k: KState) | Overrun(code: seq<Instr>) | Fault | Exit

  function Advance(q: Sched, id: Id): Sched
    requires id in q.procs
  {
    q.(procs := q.procs[id := q.procs[id].(pc := q.procs[id].pc + 1)])
  }

  /** After the fetch: pc is past the instruction, and its page is marked as used. */
  function Fetched(k: KState, i: nat): KState
    requires k.q.cur.Some? && k.q.cur.value in k.q.procs
    requires i < |k.segs.list| && k.q.procs[k.q.cur.value].pc / INSTRUCTIONS_PER_PAGE < |k.segs.list[i].used|
  {
    k.(q := Advance(k.q, k.q.cur.value),
       segs := k.segs.(list := Touch(k.segs.list, i, k.q.procs[k.q.cur.value].pc)))
  }

  /** Fetch one instruction through the segment table and evaluate it. */
  function ExecuteOne(k: KState): Outcome
    requires Linked(k) && k.q.cur.Some?
  {
    var id := k.q.cur.value;
    var pc := k.q.procs[id].pc;
    var i := SegIndex(k.segs.list, k.q.procs[id].segId);
    if i == |k.segs.list| then Fault
    else if pc >= |k.segs.list[i].code| then Overrun(k.q.procs[id].code)
    else if pc / INSTRUCTIONS_PER_PAGE >= |k.segs.list[i].used| then Fault
    else
      var instr := k.segs.list[i].code[pc];
      var fetched := Fetched(k, i);
      if !Answerable(fetched, instr) then Fault
      else Running(Eval(fetched, instr).(atTest := true))
  }

  /** The teardown of the process that has the CPU. */
  function Finish(k: KState): Outcome
    requires Linked(k) && k.q.cur.Some?
  {
    var id := k.q.cur.value;
    if SegIndex(k.segs.list, k.q.procs[id].segId) == |k.segs.list| then Fault
    else
      var q := Schedule(k.q, NONE);
      Running(k.(q := Purge(q, id).(procs := q.procs - {id}),
                 table := Remove(k.table, id),
                 files := Files(CloseAll(k.files.inodes, k.files.open[id]), k.files.open - {id}),
                 segs := Free(k.segs, k.q.procs[id].segId)))
  }

  /** A finished process is looked for in the high queue, else the low one, else among the blocked. */
  function Purge(q: Sched, id: Id): Sched {
    if id in q.high then q.(high := Remove(q.high, id))
    else if id in q.low then q.(low := Remove(q.low, id))
    else q.(blocked := Remove(q.blocked, id))
  }

  /** One step of the CPU thread; gate says whether a second has elapsed. */
  function CpuStep(k: KState, gate: bool): Outcome
    requires Linked(k)
  {
    if !k.atTest then
      if k.q.cur.None? then Running(k.(q := Schedule(k.q, NONE)))
      else if gate then ExecuteOne(k)
      else Running(k.(atTest := true))
    else
      var back := k.(atTest := false);
      if k.q.cur.None? then Running(back)
      else
        var p := k.q.procs[k.q.cur.value];
        if p.remaining > 0 && p.pc < |p.code| then Running(back)
        else if p.pc >= |p.code| then Finish(back)
        else Running(back.(q := Schedule(k.q, QUANTUM_COMPLETED)))
  }

  /** One turn of the disk thread. */
  function DiskTick(k: KState): KState {
    k.(q := UnblockAll(k.q, Served(k.disk.pending, k.disk.arm.track)),
       disk := Disk(NotOn(k.disk.pending, k.disk.arm.track), Move(k.disk.arm)))
  }

  /** A new process goes to the end of the queue that its priority selects. */
  function Placed(q: Sched, id: Id, priority: int): Sched {
    if priority == 1 then q.(high := q.high + [id]) else q.(low := q.low + [id])
  }

  function Create(k: KState, p: Prog): Outcome {
    var sems := RegisterAll(k.sems, p.sems);
    if exists i | 0 <= i < |p.code| :: (p.code[i].SemP? || p.code[i].SemV?) && !Registered(sems, p.code[i].sem) then Exit
    else
      var id := k.nextId;
      var q := k.q.(procs := k.q.procs[id := Proc(p.code, p.segId, 0, 0, READY)]);
      Running(k.(q := Placed(q, id, p.priority),
                 table := k.table + [id],
                 nextId := id + 1,
                 sems := sems,
                 files := k.files.(open := k.files.open[id := []]),
                 segs := Load(k.segs, NewSeg(p.segId, p.segSize, p.code))))
  }
}
