/** Parsed synthetic programs: the instructions of process/instruction.h, what one creation request carries,
    and the properties of a program that the run-wide results ask for. */
module Program {

  datatype Instr =
    | Exec(value: int)
    | Read(track: int)
    | Write(track: int)
    | Print(duration: int)
    | SemP(sem: string)
    | SemV(sem: string)

  datatype Prog = Prog(segId: int, segSize: int, priority: int, sems: seq<string>, code: seq<Instr>)

  const TRACK_LIMIT := 200

  predicate ValidInstr(i: Instr) {
    match i
    case Exec(v) => 0 <= v
    case Read(t) => 0 <= t <= TRACK_LIMIT
    case Write(t) => 0 <= t <= TRACK_LIMIT
    case Print(d) => 0 <= d
    case SemP(_) => true
    case SemV(_) => true
  }

  /** The standing hypotheses on a program: some code, non-negative times and sizes, tracks that exist. */
  ghost predicate ValidProg(p: Prog) {
    p.code != [] && 0 <= p.segSize && forall i | 0 <= i < |p.code| :: ValidInstr(p.code[i])
  }

  function Delta(i: Instr, s: string): int {
    if i == SemP(s) then 1 else if i == SemV(s) then -1 else 0
  }

  /** Requests minus releases of semaphore s among the first n instructions. */
  ghost function Balance(code: seq<Instr>, n: nat, s: string): int
    requires n <= |code|
  {
    if n == 0 then 0 else Balance(code, n - 1, s) + Delta(code[n - 1], s)
  }

  ghost predicate Alternates(code: seq<Instr>, s: string) {
    Balance(code, |code|, s) == 0 && forall n | 0 <= n <= |code| :: 0 <= Balance(code, n, s) <= 1
  }

  /** Requests and releases of every semaphore alternate, starting with a request and ending with a release. */
  ghost predicate Disciplined(code: seq<Instr>) {
    forall s: string :: Alternates(code, s)
  }

  /** Every request is for a semaphore ranked above all those the program then holds. */
  ghost predicate Ordered(code: seq<Instr>, rank: string -> int) {
    forall n, s | 0 <= n < |code| && code[n].SemP? && Balance(code, n, s) == 1 :: rank(s) < rank(code[n].sem)
  }

  /** Instructions that may take the process off the CPU while it executes them. */
  predicate MayBlock(i: Instr) {
    !i.Exec? && !i.SemV?
  }

  predicate EndsOnCpu(code: seq<Instr>) {
    code != [] && !MayBlock(code[|code| - 1])
  }
}
