/** The SCAN arm of disk/disk.c: its stepwise motion, the closed cost formula, and how the two agree. */
module Scan {
  import opened Program

  const OPERATION_TIME := 5000
  const TRACK_MOVE_TIME := 100

  datatype Arm = Arm(track: int, forward: bool)

  predicate InRange(a: Arm) {
    0 <= a.track <= TRACK_LIMIT
  }

  /** One turn of the disk loop, after the current track has been served. */
  function Move(a: Arm): Arm {
    if a.forward then
      if a.track == TRACK_LIMIT then a.(forward := false) else a.(track := a.track + 1)
    else
      if a.track == 0 then a.(forward := true) else a.(track := a.track - 1)
  }

  function Ticks(a: Arm, n: nat): Arm
    decreases n
  {
    if n == 0 then a else Ticks(Move(a), n - 1)
  }

  /** How many of the first n turns move the head to another track. */
  function HeadMoves(a: Arm, n: nat): nat
    decreases n
  {
    if n == 0 then 0 else (if Move(a).track != a.track then 1 else 0) + HeadMoves(Move(a), n - 1)
  }

  /** The turnaround that disk_request charges. */
  function Charge(a: Arm, track: int): int {
    OPERATION_TIME + TRACK_MOVE_TIME *
    if a.forward then
      if track >= a.track then track - a.track else (TRACK_LIMIT - a.track) + (TRACK_LIMIT - track)
    else
      if track < a.track then a.track - track else a.track + track
  }

  /** Place of an arm state on the cycle that the arm runs through. */
  function Pos(a: Arm): int {
    if a.forward then a.track else 401 - a.track
  }

  /** x brought back onto the cycle, for x less than one round off it. */
  function Wrap(x: int): int {
    if x < 0 then x + 402 else if x >= 402 then x - 402 else x
  }

  /** Turns the arm makes before it stands on the track. */
  function Delay(a: Arm, track: int): nat
    requires InRange(a) && 0 <= track <= TRACK_LIMIT
  {
    var up, down := Wrap(track - Pos(a)), Wrap(401 - track - Pos(a));
    if up <= down then up else down
  }

  lemma {:induction false} TicksPos(a: Arm, n: nat)
    requires InRange(a) && n <= 402
    ensures InRange(Ticks(a, n)) && Pos(Ticks(a, n)) == Wrap(Pos(a) + n)
    decreases n
  {
    if n > 0 {
      TicksPos(Move(a), n - 1);
    }
  }

  lemma PosInjective(a: Arm, b: Arm)
    requires InRange(a) && InRange(b) && Pos(a) == Pos(b)
    ensures a == b
  {
  }

  /** The 402 arm states form one cycle: from any state, every state is met exactly once in 402 turns. */
  lemma SingleCycle(a: Arm, b: Arm, n: nat)
    requires InRange(a) && InRange(b) && n < 402
    ensures Ticks(a, n) == b <==> n == Wrap(Pos(b) - Pos(a))
    ensures Ticks(a, 402) == a
  {
    TicksPos(a, n);
    TicksPos(a, 402);
    PosInjective(Ticks(a, 402), a);
    if Pos(Ticks(a, n)) == Pos(b) {
      PosInjective(Ticks(a, n), b);
    }
  }

  /** A request on an existing track is served by the turn numbered Delay (counting from 0), not before,
      and that is one of the next 401 turns. */
  lemma ServiceBound(a: Arm, track: int)
    requires InRange(a) && 0 <= track <= TRACK_LIMIT
    ensures Ticks(a, Delay(a, track)).track == track
    ensures forall n | 0 <= n < Delay(a, track) :: Ticks(a, n).track != track
    ensures Delay(a, track) <= 400
  {
    TicksPos(a, Delay(a, track));
    forall n | 0 <= n < Delay(a, track)
      ensures Ticks(a, n).track != track
    {
      TicksPos(a, n);
    }
  }

  /** The bound of 401 turns is attained. */
  lemma ServiceBoundTight()
    ensures exists a, track :: InRange(a) && 0 <= track <= TRACK_LIMIT && Delay(a, track) == 400
  {
    assert Delay(Arm(1, true), 0) == 400;
  }

  lemma DelayStep(a: Arm, track: int)
    requires InRange(a) && 0 <= track <= TRACK_LIMIT
    ensures Delay(a, track) == 0 <==> a.track == track
    ensures a.track != track ==> Delay(Move(a), track) == Delay(a, track) - 1
  {
  }

  lemma {:induction false} HeadMovesSplit(a: Arm, m: nat, n: nat)
    ensures Ticks(a, m + n) == Ticks(Ticks(a, m), n)
    ensures HeadMoves(a, m + n) == HeadMoves(a, m) + HeadMoves(Ticks(a, m), n)
    decreases m
  {
    if m > 0 {
      HeadMovesSplit(Move(a), m - 1, n);
    }
  }

  lemma {:induction false} Sweep(a: Arm, n: nat)
    requires InRange(a) && n <= if a.forward then TRACK_LIMIT - a.track else a.track
    ensures Ticks(a, n) == a.(track := if a.forward then a.track + n else a.track - n) && HeadMoves(a, n) == n
    decreases n
  {
    if n > 0 {
      Sweep(Move(a), n - 1);
    }
  }

  lemma SweepTurnSweep(a: Arm, n: nat)
    requires InRange(a) && n <= TRACK_LIMIT
    ensures var m := if a.forward then TRACK_LIMIT - a.track else a.track;
            HeadMoves(a, m + 1 + n) == m + n
  {
    var m := if a.forward then TRACK_LIMIT - a.track else a.track;
    Sweep(a, m);
    HeadMovesSplit(a, m, 1 + n);
    var turned := Move(Ticks(a, m));
    assert turned.track == Ticks(a, m).track;
    Sweep(turned, n);
  }

  /** The head moves that the formula charges although the arm does not make them. */
  function Overcharged(a: Arm, track: int): int {
    if !a.forward && track == a.track then 2 * track else 0
  }

  /** The charge for an arm that makes m head moves before it stands on the track. */
  predicate ChargedFor(a: Arm, track: int, m: int) {
    Charge(a, track) == 5000 + 100 * (m + Overcharged(a, track))
  }

  lemma DelayAhead(a: Arm, track: int)
    requires InRange(a) && 0 <= track <= TRACK_LIMIT && if a.forward then track >= a.track else track <= a.track
    ensures Delay(a, track) == if a.forward then track - a.track else a.track - track
  {
  }

  lemma DelayBehind(a: Arm, track: int)
    requires InRange(a) && 0 <= track <= TRACK_LIMIT && if a.forward then track < a.track else track > a.track
    ensures Delay(a, track) ==
            if a.forward then TRACK_LIMIT - a.track + 1 + (TRACK_LIMIT - track) else a.track + 1 + track
  {
  }

  /** The track lies ahead of the arm, or under it. */
  lemma ChargeAhead(a: Arm, track: int)
    requires InRange(a) && 0 <= track <= TRACK_LIMIT && if a.forward then track >= a.track else track <= a.track
    ensures ChargedFor(a, track, HeadMoves(a, Delay(a, track)))
  {
    DelayAhead(a, track);
    hide Delay, HeadMoves, Ticks;
    Sweep(a, if a.forward then track - a.track else a.track - track);
  }

  lemma ChargeOfTurn(a: Arm, track: int)
    requires InRange(a) && 0 <= track <= TRACK_LIMIT && if a.forward then track < a.track else track > a.track
    ensures Charge(a, track) == 5000 + 100 * if a.forward then 200 - a.track + (200 - track) else a.track + track
    ensures Overcharged(a, track) == 0
  {
  }

  lemma MovesOfTurn(a: Arm, track: int)
    requires InRange(a) && 0 <= track <= TRACK_LIMIT && if a.forward then track < a.track else track > a.track
    ensures HeadMoves(a, Delay(a, track)) == if a.forward then 200 - a.track + (200 - track) else a.track + track
  {
    hide Delay, HeadMoves, Ticks;
    DelayBehind(a, track);
    SweepTurnSweep(a, if a.forward then TRACK_LIMIT - track else track);
  }

  /** The track lies behind the arm, which has to turn first. */
  lemma ChargeBehind(a: Arm, track: int)
    requires InRange(a) && 0 <= track <= TRACK_LIMIT && if a.forward then track < a.track else track > a.track
    ensures ChargedFor(a, track, HeadMoves(a, Delay(a, track)))
  {
    hide Delay, HeadMoves, Charge, Overcharged;
    ChargeOfTurn(a, track);
    MovesOfTurn(a, track);
  }

  /** The formula charges the operation time plus the head moves the loop really makes, and is exact unless the
      arm goes backward and already stands on the requested track (other than track 0): it then charges a
      whole way down and back for a request that the next turn serves. */
  lemma ChargeMeetsMotion(a: Arm, track: int)
    requires InRange(a) && 0 <= track <= TRACK_LIMIT
    ensures Charge(a, track) == 5000 + 100 * (HeadMoves(a, Delay(a, track)) + Overcharged(a, track))
    ensures Charge(a, track) == 5000 + 100 * HeadMoves(a, Delay(a, track))
            <==> !(!a.forward && track == a.track && track > 0)
  {
    hide HeadMoves, Delay;
    if if a.forward then track >= a.track else track <= a.track {
      ChargeAhead(a, track);
    } else {
      ChargeBehind(a, track);
    }
  }
}
