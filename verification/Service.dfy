/** How long a disk request waits, whatever else the system does. */
module Service {
  import opened Program
  import opened Scan
  import opened KernelState
  import opened Budget
  import opened Runs
  import opened Termination
  import opened Histories

  /** Disk turns of a run. */
  function TickCount(ls: seq<Label>): nat {
    if ls == [] then 0 else (if ls[0] == Tick then 1 else 0) + TickCount(ls[1..])
  }

  lemma ExecuteKeepsRequest(k: KState, r: Request)
    requires Inv(k) && CanFetch(k) && r in k.disk.pending
    ensures Linked(k) && ExecuteOne(k).Running?
    ensures ExecuteOne(k).k.disk.arm == k.disk.arm && r in ExecuteOne(k).k.disk.pending
  {
    hide Inv, Linked, Schedule, ExecuteOne;
    ExecuteOneInv(k);
    FetchReady(k);
    ExecuteIs(k);
  }

  lemma FinishKeepsDisk(k: KState)
    requires Inv(k) && k.q.cur.Some?
    ensures var back := k.(atTest := false); Linked(back) && Finish(back).Running? && Finish(back).k.disk == k.disk
  {
    ControlInv(k, false);
    FinishRuns(k.(atTest := false));
  }

  /** Steps of the CPU and creations move neither the arm nor a pending request. */
  lemma OtherKeepsRequest(k: KState, l: Label, r: Request)
    requires Inv(k) && Allowed(k, l) && Next(k, l).Running? && l != Tick && r in k.disk.pending
    ensures Next(k, l).k.disk.arm == k.disk.arm && r in Next(k, l).k.disk.pending
  {
    hide Inv, ExecuteOne, Finish, Schedule, RegisterAll, Load, NewSeg;
    InvLinked(k);
    if l.Cpu? {
      CpuStepInv(k, l.gate);
      if k.atTest {
        if k.q.cur.Some? {
          FinishKeepsDisk(k);
        }
      } else if k.q.cur.Some? && l.gate {
        ExecuteKeepsRequest(k, r);
      }
    }
  }

  /** A turn of the disk serves the requests on the track of the arm and keeps the others. */
  lemma TickKeepsOrServes(k: KState, r: Request)
    requires Inv(k) && r in k.disk.pending
    ensures var k' := DiskTick(k);
            && Next(k, Tick) == Running(k')
            && k'.disk.arm == Move(k.disk.arm)
            && (r in k'.disk.pending <==> r.track != k.disk.arm.track)
            && (r.track == k.disk.arm.track ==> r.proc in k'.q.low)
  {
    InvLinked(k);
    NotOnSubset(k.disk.pending, k.disk.arm.track, r);
    TickServes(k);
    if r.track == k.disk.arm.track {
      ServedHas(k.disk.pending, r, k.disk.arm.track);
    }
  }

  /** The state of the run before its step i. */
  ghost function Before(k: KState, ls: seq<Label>, i: nat): Outcome
    requires i <= |ls|
  {
    RunFrom(k, ls[..i])
  }

  lemma BeforeNext(k: KState, ls: seq<Label>, i: nat)
    requires ls != [] && Next(k, ls[0]).Running? && 0 < i <= |ls|
    ensures Before(k, ls, i) == Before(Next(k, ls[0]).k, ls[1..], i - 1)
  {
    assert ls[..i][0] == ls[0] && ls[..i][1..] == ls[1..][..i - 1];
  }

  ghost predicate PendingAt(k: KState, ls: seq<Label>, i: nat, r: Request)
    requires i <= |ls|
  {
    Before(k, ls, i).Running? && r in Before(k, ls, i).k.disk.pending
  }

  /** The request is pending up to step i, a turn of the disk with the arm on its track; then it is gone, and its
      process is in the low queue. */
  ghost predicate ServedAt(k: KState, ls: seq<Label>, i: nat, r: Request)
    requires i < |ls|
  {
    && ls[i] == Tick
    && (forall j | 0 <= j <= i :: PendingAt(k, ls, j, r))
    && PendingAt(k, ls, i, r) && Before(k, ls, i).k.disk.arm.track == r.track
    && Before(k, ls, i + 1).Running?
    && r !in Before(k, ls, i + 1).k.disk.pending && r.proc in Before(k, ls, i + 1).k.q.low
  }

  lemma ServedNow(k: KState, ls: seq<Label>, r: Request)
    requires Inv(k) && r in k.disk.pending && ls != [] && ls[0] == Tick && k.disk.arm.track == r.track
    ensures ServedAt(k, ls, 0, r)
  {
    InvLinked(k);
    TickKeepsOrServes(k, r);
    TickInv(k);
    assert Before(k, ls, 0) == Running(k);
    BeforeNext(k, ls, 1);
    assert Next(k, ls[0]) == Running(DiskTick(k)) && ls[1..][..0] == [];
  }

  lemma ServedLater(k: KState, ls: seq<Label>, i: nat, r: Request)
    requires ls != [] && Next(k, ls[0]).Running? && r in k.disk.pending && i < |ls| - 1
    requires ServedAt(Next(k, ls[0]).k, ls[1..], i, r)
    ensures ServedAt(k, ls, i + 1, r)
  {
    var k' := Next(k, ls[0]).k;
    forall j | 0 <= j <= i + 1
      ensures PendingAt(k, ls, j, r)
    {
      if j == 0 {
        assert Before(k, ls, 0) == Running(k);
      } else {
        BeforeNext(k, ls, j);
        assert PendingAt(k', ls[1..], j - 1, r);
      }
    }
    BeforeNext(k, ls, i + 1);
    BeforeNext(k, ls, i + 2);
  }

  lemma RequestInRange(k: KState, r: Request)
    requires Inv(k) && r in k.disk.pending
    ensures InRange(k.disk.arm) && 0 <= r.track <= TRACK_LIMIT
  {
  }

  /** In every run from a reachable state a pending request is served by the disk turn numbered Delay, counting from
      0, by no earlier one, and so by one of the next 401, however CPU steps and creations interleave with them. */
  lemma {:induction false} ServedInTime(k: KState, ls: seq<Label>, r: Request) returns (i: nat)
    requires Inv(k) && r in k.disk.pending && AllAllowed(k, ls) && RunFrom(k, ls).Running?
    requires TickCount(ls) > Delay(k.disk.arm, r.track)
    ensures i < |ls| && TickCount(ls[..i]) == Delay(k.disk.arm, r.track) <= 400 && ServedAt(k, ls, i, r)
    decreases |ls|
  {
    hide Inv, Next, ServedAt, Delay, InRange;
    RequestInRange(k, r);
    ServiceBound(k.disk.arm, r.track);
    DelayStep(k.disk.arm, r.track);
    NextInv(k, ls[0]);
    var k' := Next(k, ls[0]).k;
    if ls[0] == Tick && k.disk.arm.track == r.track {
      i := 0;
      ServedNow(k, ls, r);
    } else {
      InvLinked(k);
      if ls[0] == Tick {
        TickKeepsOrServes(k, r);
      } else {
        OtherKeepsRequest(k, ls[0], r);
      }
      var j := ServedInTime(k', ls[1..], r);
      i := j + 1;
      assert ls[..i][0] == ls[0] && ls[..i][1..] == ls[1..][..j];
      ServedLater(k, ls, j, r);
    }
  }

  // ------------------------------------------------------------ the overcharge is reached

  function Turns(n: nat): seq<Label> {
    if n == 0 then [] else [Tick] + Turns(n - 1)
  }

  lemma {:induction false} TurnsMoveArm(k: KState, n: nat)
    requires Inv(k)
    ensures AllAllowed(k, Turns(n)) && RunFrom(k, Turns(n)).Running?
    ensures Inv(RunFrom(k, Turns(n)).k) && RunFrom(k, Turns(n)).k.disk.arm == Ticks(k.disk.arm, n)
    decreases n
  {
    hide Inv;
    if n > 0 {
      InvLinked(k);
      TickInv(k);
      assert Turns(n)[0] == Tick && Turns(n)[1..] == Turns(n - 1);
      TurnsMoveArm(DiskTick(k), n - 1);
    }
  }

  /** After 201 turns the arm stands on the last track and goes backward: a request for that track is then charged
      two whole sweeps, although the next turn serves it without a head move. */
  lemma OverchargeReached()
    ensures AllAllowed(Init(), Turns(201)) && RunFrom(Init(), Turns(201)).Running?
    ensures var a := RunFrom(Init(), Turns(201)).k.disk.arm;
            && InRange(a) && Delay(a, TRACK_LIMIT) == 0 && HeadMoves(a, 0) == 0
            && Charge(a, TRACK_LIMIT) == OPERATION_TIME + TRACK_MOVE_TIME * 400
  {
    hide Inv, Turns, RunFrom, AllAllowed, Ticks;
    InvInit();
    TurnsMoveArm(Init(), 201);
    TicksPos(Arm(0, true), 201);
    PosInjective(Ticks(Arm(0, true), 201), Arm(TRACK_LIMIT, false));
  }
}
