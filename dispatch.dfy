/**
 * One pass of the dispatcher loop `Control.condition` (Code/Server/Control.py) as a
 * transition on the controller's state: the idle guard, then the first matching branch
 * of POSITION, ATTITUDE, MOVE, BALANCE and CALIBRATION.
 *
 * An `int()` that cannot read its text or an index past the end of the order raises in
 * the source, which ends the dispatcher thread: the transition then reports `Crashed`
 * with the state as far as it got. A BALANCE order hands control to the balancing loop
 * `imu6050`, reported as `Balancing` after its first, level posture; that loop ends when an
 * order with a non-empty first field arrives, and the dispatcher's loop carries on.
 */
module Dispatch {
  import opened Wrappers
  import opened Numeric
  import opened Kinematics
  import opened Gait
  import PointFile

  /** The command names of the protocol (`cmd.CMD_POSITION` and the rest). */
  datatype Commands = Commands(position: string, attitude: string, move: string, balance: string, calibration: string)

  datatype Outcome =
    | Continue   // the loop goes on with the next pass
    | Balancing  // `imu6050` has taken over until an order with a non-empty first field arrives
    | Crashed    // an exception ended the dispatcher thread

  /** The fields of `Control` the dispatcher reads and writes. */
  datatype Robot = Robot(
    order: seq<string>,       // the last order received, split into fields
    flag: int,                // the mode last entered: 1 position, 2 attitude, 3 move, 4 balance
    timeout: real,            // time of the last idle relax; 0 when never
    height: int,              // body height, the z of every body point
    body: seq<Point>,         // `body_point`
    table: seq<seq<int>>,     // `calibration_leg_point`, as read from the point file
    legs: seq<Point>,         // `leg_point`
    offsets: seq<Angles>,     // `calibration_angle`
    act: Actuation,           // `angle` and the calls made to the servo driver
    pointFile: string)        // contents of the point file

  datatype Stepped = Stepped(outcome: Outcome, robot: Robot)

  /** A calibration table the controller can use: six rows of at least x, y, z, and no empty row. */
  predicate TableShape(t: seq<seq<int>>)
  {
    |t| >= Legs && (forall i :: 0 <= i < |t| ==> t[i] != []) && forall i :: 0 <= i < Legs ==> |t[i]| >= 3
  }

  predicate Wellformed(r: Robot)
  {
    |r.body| == Legs && |r.legs| == Legs && |r.offsets| == Legs && |r.act.angle| == Legs && TableShape(r.table)
  }

  /** The six saved calibration points. */
  function CalPoints(t: seq<seq<int>>): (c: seq<IntPoint>)
    requires TableShape(t)
    ensures |c| == Legs
  {
    seq(Legs, i requires 0 <= i < Legs => IntPoint(t[i][0], t[i][1], t[i][2]))
  }

  /** The order the dispatcher leaves behind once it has served one. */
  const Cleared: seq<string> := ["", "", "", "", "", ""]

  // ---------------------------------------------------------------- the building blocks

  /** `setLegAngle()`. */
  function SetLegAngleOn(ik: IK, r: Robot): (r': Robot)
    requires Wellformed(r)
    ensures Wellformed(r')
  {
    r.(act := Actuate(ik, r.legs, r.offsets, r.act))
  }

  /**
   * `calibration()`: the leg points go back to (140, 0, 0), the offsets are recomputed
   * from the table, and `angle` is left holding the raw angles of the nominal point.
   */
  function CalibrationOn(ik: IK, r: Robot): (r': Robot)
    requires Wellformed(r)
    ensures Wellformed(r')
  {
    r.(legs := NominalLegs(), offsets := CalibrationOffsets(ik, CalPoints(r.table)),
       act := r.act.(angle := seq(Legs, i => RawAngles(ik, Nominal))))
  }

  /** `coordinateTransformation(pts)` then `setLegAngle()`. */
  function UpdateOn(ik: IK, trig: Trig, r: Robot, pts: seq<Point>): (r': Robot)
    requires Wellformed(r) && |pts| == Legs
    ensures Wellformed(r')
  {
    SetLegAngleOn(ik, r.(legs := Transform(trig, pts)))
  }

  /** `relax(flag)`: every servo off, or the current pose sent again. */
  function RelaxOn(ik: IK, r: Robot, off: bool): (r': Robot)
    requires Wellformed(r)
    ensures Wellformed(r')
  {
    if off then r.(act := r.act.(calls := r.act.calls + [RelaxAll])) else SetLegAngleOn(ik, r)
  }

  /** `posittion(x, y, z)`: the body drops to -30 - z and the feet go to the shifted hexagon. */
  function PositionOn(ik: IK, trig: Trig, r: Robot, x: int, y: int, z: int): (r': Robot)
    requires Wellformed(r)
    ensures Wellformed(r')
  {
    var h := -30 - z;
    var body := seq(Legs, i requires 0 <= i < Legs => Point(r.body[i].x, r.body[i].y, h as real));
    UpdateOn(ik, trig, r.(height := h, body := body), StandPose(r.body, x, y, z))
  }

  /** A sequence of posture updates: the leg points of the last frame, every batch sent. */
  function Animate(ik: IK, trig: Trig, r: Robot, frames: seq<seq<Point>>): (r': Robot)
    requires Wellformed(r) && AllFramesSized(frames)
    ensures Wellformed(r')
  {
    if frames == [] then r
    else
      ReplayFlushes(ik, trig, r.offsets, r.act, frames);
      var act := Replay(ik, trig, r.offsets, r.act, frames);
      assert |act.angle| == Legs by {
        ReplayAngles(ik, trig, r.offsets, r.act, frames);
      }
      r.(legs := Transform(trig, frames[|frames| - 1]), act := act)
  }

  lemma {:induction false} ReplayAngles(ik: IK, trig: Trig, cal: seq<Angles>, act: Actuation, frames: seq<seq<Point>>)
    requires |cal| == Legs && AllFramesSized(frames) && |act.angle| == Legs
    ensures |Replay(ik, trig, cal, act, frames).angle| == Legs
    decreases |frames|
  {
    if frames != [] {
      assert AllFramesSized(frames[..|frames| - 1]);
      ReplayAngles(ik, trig, cal, act, frames[..|frames| - 1]);
    }
  }

  /** `run(order)` once the order has been parsed. */
  function RunOn(ik: IK, trig: Trig, r: Robot, m: Move): (r': Robot)
    requires Wellformed(r) && m.f != 0
    ensures Wellformed(r')
  {
    Animate(ik, trig, r, RunFrames(trig, r.body, r.height, m))
  }

  /** `int(order[i])`: `None` where the source raises. */
  function IntAt(order: seq<string>, i: nat): Option<int>
  {
    if i < |order| then PointFile.ParseInt(order[i]) else None
  }

  // ---------------------------------------------------------------- the branches

  /** The idle guard: more than 10 s after a non-zero timeout with an empty order, switch everything off. */
  function IdleGuard(r: Robot, now: real): (s: Stepped)
    requires Wellformed(r)
    ensures Wellformed(s.robot) && s.outcome != Balancing
  {
    if now - r.timeout > 10.0 && r.timeout != 0.0 then
      if |r.order| == 0 then Stepped(Crashed, r)
      else if r.order[0] == "" then
        Stepped(Continue, r.(timeout := now, act := r.act.(calls := r.act.calls + [RelaxAll]), flag := 0))
      else Stepped(Continue, r)
    else Stepped(Continue, r)
  }

  /** POSITION x y z: stand with the body shifted by (x, y) and lowered by z, clamped to 40, 40 and 20. */
  function PositionBranch(ik: IK, trig: Trig, r: Robot): (s: Stepped)
    requires Wellformed(r) && |r.order| == 4
    ensures Wellformed(s.robot)
  {
    var r1 := if r.flag != 1 then RelaxOn(ik, r, false) else r;
    var x, y, z := IntAt(r.order, 1), IntAt(r.order, 2), IntAt(r.order, 3);
    if x.None? || y.None? || z.None? then Stepped(Crashed, r1)
    else
      var r2 := PositionOn(ik, trig, r1, Restriction(x.value, -40, 40), Restriction(y.value, -40, 40), Restriction(z.value, -20, 20));
      Stepped(Continue, r2.(flag := 1, order := Cleared))
  }

  /** ATTITUDE r p y: tilt the body by roll, pitch and yaw, each clamped to 15 degrees. */
  function AttitudeBranch(ik: IK, trig: Trig, r: Robot): (s: Stepped)
    requires Wellformed(r) && |r.order| == 4
    ensures Wellformed(s.robot)
  {
    var r1 := if r.flag != 2 then RelaxOn(ik, r, false) else r;
    var a, b, c := IntAt(r.order, 1), IntAt(r.order, 2), IntAt(r.order, 3);
    if a.None? || b.None? || c.None? then Stepped(Crashed, r1)
    else
      var pts := PostureBalance(trig, r1.height as real, Restriction(a.value, -15, 15) as real,
                                Restriction(b.value, -15, 15) as real, Restriction(c.value, -15, 15) as real);
      Stepped(Continue, UpdateOn(ik, trig, r1, pts).(flag := 2, order := Cleared))
  }

  /**
   * MOVE gait x y speed angle: with x and y both the text "0" run once and forget the
   * order; otherwise run and keep the order, so that the next pass runs it again.
   */
  function MoveBranch(ik: IK, trig: Trig, r: Robot): (s: Stepped)
    requires Wellformed(r) && |r.order| == 6
    ensures Wellformed(s.robot)
  {
    var m := ParseMove(r.order);
    if r.order[2] == "0" && r.order[3] == "0" then
      if m.None? then Stepped(Crashed, r)
      else Stepped(Continue, RunOn(ik, trig, r, m.value).(order := Cleared))
    else
      var r1 := if r.flag != 3 then RelaxOn(ik, r, false) else r;
      if m.None? then Stepped(Crashed, r1)
      else Stepped(Continue, RunOn(ik, trig, r1, m.value).(flag := 3))
  }

  /** BALANCE 1: forget the order, enter mode 4 and level the body before the balancing loop. */
  function BalanceBranch(ik: IK, trig: Trig, r: Robot): (s: Stepped)
    requires Wellformed(r) && |r.order| == 2
    ensures Wellformed(s.robot)
  {
    if r.order[1] == "1" then
      var r1 := r.(order := Cleared);
      var r2 := (if r1.flag != 4 then RelaxOn(ik, r1, false) else r1).(flag := 4);
      Stepped(Balancing, UpdateOn(ik, trig, r2, PostureBalance(trig, r2.height as real, 0.0, 0.0, 0.0)))
    else Stepped(Continue, r)
  }

  /** The table row a calibration keyword names. */
  function KeywordRow(word: string): (k: Option<nat>)
    ensures k.Some? ==> k.value < Legs
  {
    if word == "one" then Some(0)
    else if word == "two" then Some(1)
    else if word == "three" then Some(2)
    else if word == "four" then Some(3)
    else if word == "five" then Some(4)
    else if word == "six" then Some(5)
    else None
  }

  /** Whether all three coordinates were written, and the table as far as they got. */
  datatype RowWrite = RowWrite(complete: bool, table: seq<seq<int>>)

  /** Row `k` gets `int(order[2])`, `int(order[3])`, `int(order[4])`, one at a time. */
  function WriteRow(t: seq<seq<int>>, k: nat, order: seq<string>): (w: RowWrite)
    requires TableShape(t) && k < Legs
    ensures TableShape(w.table) && |w.table| == |t|
    ensures forall i :: 0 <= i < |t| && i != k ==> w.table[i] == t[i]
    ensures |w.table[k]| == |t[k]| && w.table[k][3..] == t[k][3..]
    ensures w.complete <==> IntAt(order, 2).Some? && IntAt(order, 3).Some? && IntAt(order, 4).Some?
    ensures w.complete ==> w.table[k][..3] == [IntAt(order, 2).value, IntAt(order, 3).value, IntAt(order, 4).value]
  {
    var a, b, c := IntAt(order, 2), IntAt(order, 3), IntAt(order, 4);
    if a.None? then RowWrite(false, t)
    else
      var t1 := t[k := t[k][0 := a.value]];
      if b.None? then RowWrite(false, t1)
      else
        var t2 := t1[k := t1[k][1 := b.value]];
        if c.None? then RowWrite(false, t2)
        else RowWrite(true, t2[k := t2[k][2 := c.value]])
  }

  /**
   * CALIBRATION [word x y z]: recalibrate and stand; a row keyword stores a new point
   * for that leg and recalibrates again, "save" writes the table to the point file.
   */
  function CalibrationBranch(ik: IK, r: Robot): (s: Stepped)
    requires Wellformed(r)
    ensures Wellformed(s.robot)
  {
    var r1 := SetLegAngleOn(ik, CalibrationOn(ik, r.(timeout := 0.0)));
    if |r.order| >= 2 && KeywordRow(r.order[1]).Some? then
      var w := WriteRow(r1.table, KeywordRow(r.order[1]).value, r.order);
      if !w.complete then Stepped(Crashed, r1.(table := w.table))
      else Stepped(Continue, SetLegAngleOn(ik, CalibrationOn(ik, r1.(table := w.table))).(order := Cleared))
    else if |r.order| >= 2 && r.order[1] == "save" then
      Stepped(Continue, r1.(pointFile := PointFile.Serialize(r1.table), order := Cleared))
    else Stepped(Continue, r1.(order := Cleared))
  }

  datatype Branch = PositionOrder | AttitudeOrder | MoveOrder | BalanceOrder | CalibrationOrder | NoOrder

  /** The first branch whose command is in the order, with the length that branch expects. */
  function Chosen(cmd: Commands, order: seq<string>): (b: Branch)
    ensures b == PositionOrder ==> |order| == 4
    ensures b == AttitudeOrder ==> |order| == 4
    ensures b == MoveOrder ==> |order| == 6
    ensures b == BalanceOrder ==> |order| == 2
  {
    if cmd.position in order && |order| == 4 then PositionOrder
    else if cmd.attitude in order && |order| == 4 then AttitudeOrder
    else if cmd.move in order && |order| == 6 then MoveOrder
    else if cmd.balance in order && |order| == 2 then BalanceOrder
    else if cmd.calibration in order then CalibrationOrder
    else NoOrder
  }

  /** The chosen branch runs; when none is chosen nothing happens. */
  function Serve(ik: IK, trig: Trig, cmd: Commands, r: Robot): (s: Stepped)
    requires Wellformed(r)
    ensures Wellformed(s.robot)
  {
    match Chosen(cmd, r.order)
    case PositionOrder => PositionBranch(ik, trig, r)
    case AttitudeOrder => AttitudeBranch(ik, trig, r)
    case MoveOrder => MoveBranch(ik, trig, r)
    case BalanceOrder => BalanceBranch(ik, trig, r)
    case CalibrationOrder => CalibrationBranch(ik, r)
    case NoOrder => Stepped(Continue, r)
  }

  /** One pass of `condition`'s loop at time `now`. */
  function Next(ik: IK, trig: Trig, cmd: Commands, r: Robot, now: real): (s: Stepped)
    requires Wellformed(r)
    ensures Wellformed(s.robot)
  {
    var g := IdleGuard(r, now);
    if g.outcome == Crashed then g else Serve(ik, trig, cmd, g.robot)
  }

  // ---------------------------------------------------------------- invariants of a pass

  /** `body_point` is always the standing hexagon at the current height. */
  predicate Standing(r: Robot)
  {
    r.body == StandingLayout(r.height as real)
  }

  /**
   * What every step of the dispatcher keeps, as long as the idle relax stays off: only
   * in-range batches are sent, the timeout stays 0, and the body stays the standing hexagon.
   */
  predicate Keeps(r: Robot, r': Robot)
  {
    Batches(r.act.calls, r'.act.calls)
    && (r.timeout == 0.0 ==> r'.timeout == 0.0)
    && (Standing(r) ==> Standing(r'))
  }

  lemma KeepsTrans(a: Robot, b: Robot, c: Robot)
    requires Keeps(a, b) && Keeps(b, c)
    ensures Keeps(a, c)
  {
    BatchesTrans(a.act.calls, b.act.calls, c.act.calls);
  }

  lemma KeepsSame(a: Robot, b: Robot)
    requires a.act.calls == b.act.calls && a.timeout == b.timeout && a.body == b.body && a.height == b.height
    ensures Keeps(a, b)
  {
    assert b.act.calls[..|a.act.calls|] == a.act.calls;
  }

  lemma SetLegAngleKeeps(ik: IK, r: Robot)
    requires Wellformed(r)
    ensures Keeps(r, SetLegAngleOn(ik, r))
  {
    ActuateBatches(ik, r.legs, r.offsets, r.act);
  }

  lemma UpdateKeeps(ik: IK, trig: Trig, r: Robot, pts: seq<Point>)
    requires Wellformed(r) && |pts| == Legs
    ensures Keeps(r, UpdateOn(ik, trig, r, pts))
  {
    var r1 := r.(legs := Transform(trig, pts));
    KeepsSame(r, r1);
    SetLegAngleKeeps(ik, r1);
    KeepsTrans(r, r1, UpdateOn(ik, trig, r, pts));
  }

  lemma CalibrationKeeps(ik: IK, r: Robot)
    requires Wellformed(r)
    ensures Keeps(r, SetLegAngleOn(ik, CalibrationOn(ik, r)))
  {
    KeepsSame(r, CalibrationOn(ik, r));
    SetLegAngleKeeps(ik, CalibrationOn(ik, r));
    KeepsTrans(r, CalibrationOn(ik, r), SetLegAngleOn(ik, CalibrationOn(ik, r)));
  }

  lemma PositionKeeps(ik: IK, trig: Trig, r: Robot, x: int, y: int, z: int)
    requires Wellformed(r)
    ensures Keeps(r, PositionOn(ik, trig, r, x, y, z))
  {
    var h := -30 - z;
    var body := seq(Legs, i requires 0 <= i < Legs => Point(r.body[i].x, r.body[i].y, h as real));
    var r1 := r.(height := h, body := body);
    if Standing(r) {
      assert body == StandingLayout(h as real);
    }
    assert r1.act.calls[..|r.act.calls|] == r.act.calls;
    UpdateKeeps(ik, trig, r1, StandPose(r.body, x, y, z));
    KeepsTrans(r, r1, PositionOn(ik, trig, r, x, y, z));
  }

  lemma AnimateKeeps(ik: IK, trig: Trig, r: Robot, frames: seq<seq<Point>>)
    requires Wellformed(r) && AllFramesSized(frames)
    ensures Keeps(r, Animate(ik, trig, r, frames))
  {
    if frames == [] {
      KeepsSame(r, r);
    } else {
      ReplayBatches(ik, trig, r.offsets, r.act, frames);
    }
  }

  lemma RelaxKeeps(ik: IK, r: Robot, flag: int, mode: int)
    requires Wellformed(r)
    ensures Keeps(r, if flag != mode then RelaxOn(ik, r, false) else r)
  {
    if flag != mode {
      SetLegAngleKeeps(ik, r);
    } else {
      KeepsSame(r, r);
    }
  }

  lemma PositionBranchKeeps(ik: IK, trig: Trig, r: Robot)
    requires Wellformed(r) && |r.order| == 4
    ensures Keeps(r, PositionBranch(ik, trig, r).robot)
  {
    var r1 := if r.flag != 1 then RelaxOn(ik, r, false) else r;
    RelaxKeeps(ik, r, r.flag, 1);
    var x, y, z := IntAt(r.order, 1), IntAt(r.order, 2), IntAt(r.order, 3);
    if !(x.None? || y.None? || z.None?) {
      var r2 := PositionOn(ik, trig, r1, Restriction(x.value, -40, 40), Restriction(y.value, -40, 40), Restriction(z.value, -20, 20));
      PositionKeeps(ik, trig, r1, Restriction(x.value, -40, 40), Restriction(y.value, -40, 40), Restriction(z.value, -20, 20));
      KeepsSame(r2, r2.(flag := 1, order := Cleared));
      KeepsTrans(r1, r2, r2.(flag := 1, order := Cleared));
      KeepsTrans(r, r1, r2.(flag := 1, order := Cleared));
    }
  }

  lemma AttitudeBranchKeeps(ik: IK, trig: Trig, r: Robot)
    requires Wellformed(r) && |r.order| == 4
    ensures Keeps(r, AttitudeBranch(ik, trig, r).robot)
  {
    var r1 := if r.flag != 2 then RelaxOn(ik, r, false) else r;
    RelaxKeeps(ik, r, r.flag, 2);
    var a, b, c := IntAt(r.order, 1), IntAt(r.order, 2), IntAt(r.order, 3);
    if !(a.None? || b.None? || c.None?) {
      var pts := PostureBalance(trig, r1.height as real, Restriction(a.value, -15, 15) as real,
                                Restriction(b.value, -15, 15) as real, Restriction(c.value, -15, 15) as real);
      var r2 := UpdateOn(ik, trig, r1, pts);
      UpdateKeeps(ik, trig, r1, pts);
      KeepsSame(r2, r2.(flag := 2, order := Cleared));
      KeepsTrans(r1, r2, r2.(flag := 2, order := Cleared));
      KeepsTrans(r, r1, r2.(flag := 2, order := Cleared));
    }
  }

  lemma MoveBranchKeeps(ik: IK, trig: Trig, r: Robot)
    requires Wellformed(r) && |r.order| == 6
    ensures Keeps(r, MoveBranch(ik, trig, r).robot)
  {
    var m := ParseMove(r.order);
    if r.order[2] == "0" && r.order[3] == "0" {
      if m.None? {
        KeepsSame(r, r);
      } else {
        var r2 := RunOn(ik, trig, r, m.value);
        AnimateKeeps(ik, trig, r, RunFrames(trig, r.body, r.height, m.value));
        KeepsSame(r2, r2.(order := Cleared));
        KeepsTrans(r, r2, r2.(order := Cleared));
      }
    } else {
      var r1 := if r.flag != 3 then RelaxOn(ik, r, false) else r;
      RelaxKeeps(ik, r, r.flag, 3);
      if m.Some? {
        var r2 := RunOn(ik, trig, r1, m.value);
        AnimateKeeps(ik, trig, r1, RunFrames(trig, r1.body, r1.height, m.value));
        KeepsSame(r2, r2.(flag := 3));
        KeepsTrans(r1, r2, r2.(flag := 3));
        KeepsTrans(r, r1, r2.(flag := 3));
      }
    }
  }

  lemma BalanceBranchKeeps(ik: IK, trig: Trig, r: Robot)
    requires Wellformed(r) && |r.order| == 2
    ensures Keeps(r, BalanceBranch(ik, trig, r).robot)
  {
    if r.order[1] == "1" {
      var r1 := r.(order := Cleared);
      KeepsSame(r, r1);
      var r15 := if r1.flag != 4 then RelaxOn(ik, r1, false) else r1;
      RelaxKeeps(ik, r1, r1.flag, 4);
      var r2 := r15.(flag := 4);
      KeepsSame(r15, r2);
      UpdateKeeps(ik, trig, r2, PostureBalance(trig, r2.height as real, 0.0, 0.0, 0.0));
      KeepsTrans(r, r1, r15);
      KeepsTrans(r, r15, r2);
      KeepsTrans(r, r2, BalanceBranch(ik, trig, r).robot);
    } else {
      KeepsSame(r, r);
    }
  }

  lemma CalibrationBranchKeeps(ik: IK, r: Robot)
    requires Wellformed(r)
    ensures Keeps(r, CalibrationBranch(ik, r).robot)
  {
    var r0 := r.(timeout := 0.0);
    assert r0.act.calls[..|r.act.calls|] == r.act.calls;
    var r1 := SetLegAngleOn(ik, CalibrationOn(ik, r0));
    CalibrationKeeps(ik, r0);
    KeepsTrans(r, r0, r1);
    var s := CalibrationBranch(ik, r);
    if |r.order| >= 2 && KeywordRow(r.order[1]).Some? {
      var w := WriteRow(r1.table, KeywordRow(r.order[1]).value, r.order);
      KeepsSame(r1, r1.(table := w.table));
      KeepsTrans(r, r1, r1.(table := w.table));
      if w.complete {
        var r2 := SetLegAngleOn(ik, CalibrationOn(ik, r1.(table := w.table)));
        CalibrationKeeps(ik, r1.(table := w.table));
        KeepsSame(r2, r2.(order := Cleared));
        KeepsTrans(r, r1.(table := w.table), r2);
        KeepsTrans(r, r2, r2.(order := Cleared));
      }
    } else {
      KeepsSame(r1, s.robot);
      KeepsTrans(r, r1, s.robot);
    }
  }

  /**
   * A pass with the timeout at 0 (where it always is): the idle guard does nothing, and
   * whatever the order, the pass sends only in-range batches, never switches the servos
   * off, leaves the timeout at 0 and keeps the body the standing hexagon.
   */
  lemma PassKeeps(ik: IK, trig: Trig, cmd: Commands, r: Robot, now: real)
    requires Wellformed(r) && r.timeout == 0.0
    ensures IdleGuard(r, now) == Stepped(Continue, r)
    ensures Keeps(r, Next(ik, trig, cmd, r, now).robot)
  {
    match Chosen(cmd, r.order)
    case PositionOrder => PositionBranchKeeps(ik, trig, r);
    case AttitudeOrder => AttitudeBranchKeeps(ik, trig, r);
    case MoveOrder => MoveBranchKeeps(ik, trig, r);
    case BalanceOrder => BalanceBranchKeeps(ik, trig, r);
    case CalibrationOrder => CalibrationBranchKeeps(ik, r);
    case NoOrder => KeepsSame(r, r);
  }

  // ---------------------------------------------------------------- runs of passes

  /** One output of the PID controller in `imu6050`'s loop: the roll and pitch it asks for. */
  datatype Tilt = Tilt(roll: real, pitch: real)

  /**
   * What happens between two passes: while `imu6050` is balancing it makes one posture per
   * tilt; then the server thread stores a new order, read at time `now`.
   */
  datatype Input = Input(tilts: seq<Tilt>, order: seq<string>, now: real)

  /**
   * Passes of `imu6050`'s loop: each PID output becomes `postureBalance(r, p, 0)`, transformed
   * and sent. The height, the body, the mode, the order and the table stay as they were.
   */
  function Balance(ik: IK, trig: Trig, r: Robot, tilts: seq<Tilt>): (r': Robot)
    requires Wellformed(r)
    ensures Wellformed(r')
    ensures r'.height == r.height && r'.body == r.body && r'.flag == r.flag && r'.order == r.order
    ensures r'.table == r.table && r'.offsets == r.offsets && r'.timeout == r.timeout
    ensures tilts != [] ==> var t := tilts[|tilts| - 1];
              r'.legs == Transform(trig, PostureBalance(trig, r.height as real, t.roll, t.pitch, 0.0))
    decreases |tilts|
  {
    if tilts == [] then r
    else
      var r1 := Balance(ik, trig, r, tilts[..|tilts| - 1]);
      var t := tilts[|tilts| - 1];
      UpdateOn(ik, trig, r1, PostureBalance(trig, r1.height as real, t.roll, t.pitch, 0.0))
  }

  /**
   * The balancing loop meets the next order: it ends when the order's first field is not
   * empty, and the dispatcher's loop then makes its next pass on that order.
   */
  function Resume(ik: IK, trig: Trig, cmd: Commands, r: Robot, input: Input): (s: Stepped)
    requires Wellformed(r)
    ensures Wellformed(s.robot)
  {
    var r1 := Balance(ik, trig, r, input.tilts).(order := input.order);
    if |input.order| == 0 then Stepped(Crashed, r1)
    else if input.order[0] == "" then Stepped(Balancing, r1)
    else Next(ik, trig, cmd, r1, input.now)
  }

  /** Passes driven by a sequence of inputs; the run ends at the first pass that crashes. */
  function Drive(ik: IK, trig: Trig, cmd: Commands, r: Robot, inputs: seq<Input>): (s: Stepped)
    requires Wellformed(r)
    ensures Wellformed(s.robot)
    decreases |inputs|
  {
    if inputs == [] then Stepped(Continue, r)
    else
      var s := Drive(ik, trig, cmd, r, inputs[..|inputs| - 1]);
      var last := inputs[|inputs| - 1];
      if s.outcome == Crashed then s
      else if s.outcome == Balancing then Resume(ik, trig, cmd, s.robot, last)
      else Next(ik, trig, cmd, s.robot.(order := last.order), last.now)
  }

  /** Once a pass crashes, later inputs change nothing: the dispatcher thread has ended. */
  lemma {:induction false} DriveStops(ik: IK, trig: Trig, cmd: Commands, r: Robot, inputs: seq<Input>, n: nat)
    requires Wellformed(r) && n <= |inputs|
    requires Drive(ik, trig, cmd, r, inputs[..n]).outcome == Crashed
    ensures Drive(ik, trig, cmd, r, inputs) == Drive(ik, trig, cmd, r, inputs[..n])
    decreases |inputs|
  {
    if n == |inputs| {
      assert inputs[..n] == inputs;
    } else {
      var init := inputs[..|inputs| - 1];
      assert init[..n] == inputs[..n];
      DriveStops(ik, trig, cmd, r, init, n);
    }
  }

  /** The balancing loop keeps what every pass keeps. */
  lemma {:induction false} BalanceKeeps(ik: IK, trig: Trig, r: Robot, tilts: seq<Tilt>)
    requires Wellformed(r)
    ensures Keeps(r, Balance(ik, trig, r, tilts))
    decreases |tilts|
  {
    if tilts == [] {
      KeepsSame(r, r);
    } else {
      var r1 := Balance(ik, trig, r, tilts[..|tilts| - 1]);
      var t := tilts[|tilts| - 1];
      BalanceKeeps(ik, trig, r, tilts[..|tilts| - 1]);
      UpdateKeeps(ik, trig, r1, PostureBalance(trig, r1.height as real, t.roll, t.pitch, 0.0));
      KeepsTrans(r, r1, Balance(ik, trig, r, tilts));
    }
  }

  /** Meeting the next order keeps it too, when the timeout is 0. */
  lemma ResumeKeeps(ik: IK, trig: Trig, cmd: Commands, r: Robot, input: Input)
    requires Wellformed(r) && r.timeout == 0.0
    ensures Keeps(r, Resume(ik, trig, cmd, r, input).robot)
  {
    var r0 := Balance(ik, trig, r, input.tilts);
    var r1 := r0.(order := input.order);
    BalanceKeeps(ik, trig, r, input.tilts);
    KeepsSame(r0, r1);
    KeepsTrans(r, r0, r1);
    if |input.order| != 0 && input.order[0] != "" {
      PassKeeps(ik, trig, cmd, r1, input.now);
      KeepsTrans(r, r1, Resume(ik, trig, cmd, r, input).robot);
    }
  }

  /**
   * Whatever orders arrive, the balancing loop included, the timeout stays 0, so the idle
   * relax of `condition` never fires: the dispatcher never switches the servos off, and
   * every batch it sends is in range; the body stays the standing hexagon throughout.
   */
  lemma {:induction false} DriveKeeps(ik: IK, trig: Trig, cmd: Commands, r: Robot, inputs: seq<Input>)
    requires Wellformed(r) && r.timeout == 0.0
    ensures Keeps(r, Drive(ik, trig, cmd, r, inputs).robot)
    ensures Drive(ik, trig, cmd, r, inputs).robot.timeout == 0.0
    decreases |inputs|
  {
    if inputs == [] {
      KeepsSame(r, r);
    } else {
      var s := Drive(ik, trig, cmd, r, inputs[..|inputs| - 1]);
      DriveKeeps(ik, trig, cmd, r, inputs[..|inputs| - 1]);
      var last := inputs[|inputs| - 1];
      if s.outcome == Balancing {
        ResumeKeeps(ik, trig, cmd, s.robot, last);
        KeepsTrans(r, s.robot, Drive(ik, trig, cmd, r, inputs).robot);
      } else if s.outcome == Continue {
        var r1 := s.robot.(order := last.order);
        KeepsSame(s.robot, r1);
        PassKeeps(ik, trig, cmd, r1, last.now);
        KeepsTrans(r, s.robot, r1);
        KeepsTrans(r, r1, Drive(ik, trig, cmd, r, inputs).robot);
      }
    }
  }

  // ---------------------------------------------------------------- what each order does

  /**
   * POSITION x y z: the feet go to the standing hexagon shifted by the clamped (-x, -y)
   * at height -30 - z, mode 1 is entered and the order is forgotten.
   */
  lemma PositionServed(ik: IK, trig: Trig, cmd: Commands, r: Robot, now: real)
    requires Wellformed(r) && r.timeout == 0.0 && Chosen(cmd, r.order) == PositionOrder
    requires IntAt(r.order, 1).Some? && IntAt(r.order, 2).Some? && IntAt(r.order, 3).Some?
    ensures var s := Next(ik, trig, cmd, r, now);
            var x, y, z := Restriction(IntAt(r.order, 1).value, -40, 40), Restriction(IntAt(r.order, 2).value, -40, 40),
                           Restriction(IntAt(r.order, 3).value, -20, 20);
            s.outcome == Continue && s.robot.flag == 1 && s.robot.order == Cleared
            && s.robot.height == -30 - z && s.robot.legs == Transform(trig, StandPose(r.body, x, y, z))
  {
  }

  /**
   * ATTITUDE r p y: the feet go to the foot hexagon tilted by the clamped roll, pitch and
   * yaw at the current height; mode 2 is entered, the order is forgotten, and the servos
   * see the current pose again first when the robot was in another mode.
   */
  lemma AttitudeServed(ik: IK, trig: Trig, cmd: Commands, r: Robot, now: real)
    requires Wellformed(r) && r.timeout == 0.0 && Chosen(cmd, r.order) == AttitudeOrder
    requires IntAt(r.order, 1).Some? && IntAt(r.order, 2).Some? && IntAt(r.order, 3).Some?
    ensures var s := Next(ik, trig, cmd, r, now);
            var a, b, c := Restriction(IntAt(r.order, 1).value, -15, 15), Restriction(IntAt(r.order, 2).value, -15, 15),
                           Restriction(IntAt(r.order, 3).value, -15, 15);
            var act := if r.flag != 2 then Actuate(ik, r.legs, r.offsets, r.act) else r.act;
            -15 <= a <= 15 && -15 <= b <= 15 && -15 <= c <= 15
            && s.outcome == Continue && s.robot.flag == 2 && s.robot.order == Cleared
            && s.robot.height == r.height && s.robot.body == r.body && s.robot.table == r.table
            && s.robot.legs == Transform(trig, PostureBalance(trig, r.height as real, a as real, b as real, c as real))
            && s.robot.act == Actuate(ik, s.robot.legs, r.offsets, act)
  {
  }

  /**
   * BALANCE 1: mode 4, the order forgotten, the level posture at the current height (the
   * standing hexagon for a true sine and cosine), and the balancing loop entered.
   */
  lemma BalanceServed(ik: IK, trig: Trig, cmd: Commands, r: Robot, now: real)
    requires Wellformed(r) && r.timeout == 0.0 && Chosen(cmd, r.order) == BalanceOrder && r.order[1] == "1"
    ensures var s := Next(ik, trig, cmd, r, now);
            s.outcome == Balancing && s.robot.flag == 4 && s.robot.order == Cleared && s.robot.height == r.height
            && s.robot.legs == Transform(trig, PostureBalance(trig, r.height as real, 0.0, 0.0, 0.0))
            && (trig.sin(0.0) == 0.0 && trig.cos(0.0) == 1.0 ==> s.robot.legs == Transform(trig, StandingLayout(r.height as real)))
  {
    assert IdleGuard(r, now) == Stepped(Continue, r);
    assert Next(ik, trig, cmd, r, now) == BalanceBranch(ik, trig, r);
    var r1 := r.(order := Cleared);
    var r2 := (if r1.flag != 4 then RelaxOn(ik, r1, false) else r1).(flag := 4);
    assert r2.height == r.height;
    if trig.sin(0.0) == 0.0 && trig.cos(0.0) == 1.0 {
      LevelPostureIsStanding(trig, r.height as real);
    }
  }

  /** A BALANCE order whose argument is not "1" is not served: nothing changes, and the order stays. */
  lemma BalanceIgnored(ik: IK, trig: Trig, cmd: Commands, r: Robot, now: real)
    requires Wellformed(r) && r.timeout == 0.0 && Chosen(cmd, r.order) == BalanceOrder && r.order[1] != "1"
    ensures Next(ik, trig, cmd, r, now) == Stepped(Continue, r)
  {
  }

  /**
   * A MOVE order with a gait other than "1" and "2" and something to do sends no frame:
   * the legs stay where they were, and the only batch sent is the current pose again,
   * on entering mode 3 from another mode.
   */
  lemma OtherGaitStill(ik: IK, trig: Trig, cmd: Commands, r: Robot, now: real)
    requires Wellformed(r) && r.timeout == 0.0 && Chosen(cmd, r.order) == MoveOrder && ParseMove(r.order).Some?
    requires var m := ParseMove(r.order).value; m.gait != "1" && m.gait != "2" && !(m.x == 0 && m.y == 0 && m.angle == 0)
    ensures var s := Next(ik, trig, cmd, r, now);
            var resend := r.flag != 3 && !(r.order[2] == "0" && r.order[3] == "0");
            s.outcome == Continue && s.robot.legs == r.legs && s.robot.height == r.height && s.robot.body == r.body
            && s.robot.act == (if resend then Actuate(ik, r.legs, r.offsets, r.act) else r.act)
  {
    var m := ParseMove(r.order).value;
    assert RunFrames(trig, r.body, r.height, m) == [];
  }

  /**
   * A MOVE order with a non-zero stride is kept: the pass runs one cycle in mode 3, and
   * the next pass, finding the same order, runs the same cycle again without a relax in
   * between, so the robot walks until another order arrives.
   */
  lemma MoveRepeats(ik: IK, trig: Trig, cmd: Commands, r: Robot, now: real, later: real)
    requires Wellformed(r) && r.timeout == 0.0 && Chosen(cmd, r.order) == MoveOrder
    requires !(r.order[2] == "0" && r.order[3] == "0") && ParseMove(r.order).Some?
    ensures var s := Next(ik, trig, cmd, r, now);
            s.outcome == Continue && s.robot.order == r.order && s.robot.flag == 3
            && Next(ik, trig, cmd, s.robot, later)
               == Stepped(Continue, RunOn(ik, trig, s.robot, ParseMove(r.order).value).(flag := 3))
  {
    var s := Next(ik, trig, cmd, r, now);
    PassKeeps(ik, trig, cmd, r, now);
    PassKeeps(ik, trig, cmd, s.robot, later);
  }

  /**
   * A MOVE order whose x and y are the text "0" is served once: one run (for a zero
   * angle, the feet set down on the standing hexagon), then the order is forgotten and
   * the mode is left as it was.
   */
  lemma StopServedOnce(ik: IK, trig: Trig, cmd: Commands, r: Robot, now: real)
    requires Wellformed(r) && r.timeout == 0.0 && Chosen(cmd, r.order) == MoveOrder
    requires r.order[2] == "0" && r.order[3] == "0" && ParseMove(r.order).Some?
    ensures var s := Next(ik, trig, cmd, r, now);
            s.outcome == Continue && s.robot.order == Cleared && s.robot.flag == r.flag
            && (ParseMove(r.order).value.angle == 0 ==> s.robot == Animate(ik, trig, r, [r.body]).(order := Cleared))
  {
    PassKeeps(ik, trig, cmd, r, now);
    assert Next(ik, trig, cmd, r, now) == MoveBranch(ik, trig, r);
    var m := ParseMove(r.order).value;
    assert PointFile.ParseInt("0") == Some(0) by {
      assert "0"[1..] == [];
    }
    assert m.x == 0 && m.y == 0;
  }

  /**
   * CALIBRATION word x y z with a leg keyword: that leg's saved point becomes (x, y, z),
   * nothing else in the table changes, the offsets are recomputed from the new table,
   * and the legs stand at the nominal point with the calibrated angles.
   */
  lemma CalibrationRowServed(ik: IK, trig: Trig, cmd: Commands, r: Robot, now: real)
    requires Wellformed(r) && r.timeout == 0.0 && Chosen(cmd, r.order) == CalibrationOrder
    requires |r.order| >= 5 && KeywordRow(r.order[1]).Some?
    requires IntAt(r.order, 2).Some? && IntAt(r.order, 3).Some? && IntAt(r.order, 4).Some?
    ensures var s := Next(ik, trig, cmd, r, now);
            var k := KeywordRow(r.order[1]).value;
            s.outcome == Continue && s.robot.order == Cleared && |s.robot.table| == |r.table|
            && s.robot.table[k][..3] == [IntAt(r.order, 2).value, IntAt(r.order, 3).value, IntAt(r.order, 4).value]
            && s.robot.table[k][3..] == r.table[k][3..]
            && (forall i :: 0 <= i < |r.table| && i != k ==> s.robot.table[i] == r.table[i])
            && s.robot.offsets == CalibrationOffsets(ik, CalPoints(s.robot.table))
            && s.robot.legs == NominalLegs()
            && s.robot.act.angle == AssembleAll(ik, NominalLegs(), s.robot.offsets)
  {
  }

  /** CALIBRATION save: the point file now reads back as exactly the table in memory. */
  lemma SaveServed(ik: IK, trig: Trig, cmd: Commands, r: Robot, now: real)
    requires Wellformed(r) && r.timeout == 0.0 && Chosen(cmd, r.order) == CalibrationOrder
    requires |r.order| >= 2 && r.order[1] == "save"
    ensures var s := Next(ik, trig, cmd, r, now);
            s.outcome == Continue && s.robot.order == Cleared && s.robot.table == r.table
            && PointFile.Parse(s.robot.pointFile) == Some(r.table)
  {
    PassKeeps(ik, trig, cmd, r, now);
    assert Next(ik, trig, cmd, r, now) == CalibrationBranch(ik, r);
    var r1 := SetLegAngleOn(ik, CalibrationOn(ik, r.(timeout := 0.0)));
    assert KeywordRow(r.order[1]).None?;
    assert CalibrationBranch(ik, r).robot == r1.(pointFile := PointFile.Serialize(r1.table), order := Cleared);
    PointFile.SaveThenRead(r.table);
  }

  // ---------------------------------------------------------------- start-up and frame by frame

  /**
   * The state `__init__` leaves: height -25, the standing hexagon, the table read from the
   * point file, then `calibration()` and `setLegAngle()`.
   */
  function Boot(ik: IK, text: string, table: seq<seq<int>>): (r: Robot)
    requires TableShape(table)
    ensures Wellformed(r)
  {
    var r0 := Robot(Cleared, 0, 0.0, -25, StandingLayout(-25.0), table, seq(Legs, i => Point(140.0, 0.0, 0.0)),
                    seq(Legs, i => Angles(0, 0, 0)), Actuation(seq(Legs, i => Angles(90, 0, 0)), []), text);
    SetLegAngleOn(ik, CalibrationOn(ik, r0))
  }

  /**
   * Start-up stands the robot on its calibrated nominal pose with one batch, the timeout
   * at 0 and the body the standing hexagon: the premises of DriveKeeps.
   */
  lemma BootStands(ik: IK, text: string, table: seq<seq<int>>)
    requires TableShape(table)
    ensures var r := Boot(ik, text, table);
            r.timeout == 0.0 && Standing(r) && r.flag == 0 && r.legs == NominalLegs()
            && r.offsets == CalibrationOffsets(ik, CalPoints(table))
            && r.act.angle == AssembleAll(ik, NominalLegs(), r.offsets)
            && r.act.calls == [SetLegs(r.act.angle)] && SafeCalls(r.act.calls)
  {
  }

  /** One more frame is one more `coordinateTransformation` and `setLegAngle`. */
  lemma AnimateSnoc(ik: IK, trig: Trig, r: Robot, frames: seq<seq<Point>>, f: seq<Point>)
    requires Wellformed(r) && AllFramesSized(frames) && |f| == Legs
    ensures AllFramesSized(frames + [f])
    ensures Animate(ik, trig, r, frames + [f]) == UpdateOn(ik, trig, Animate(ik, trig, r, frames), f)
  {
    var fs := frames + [f];
    assert fs[..|fs| - 1] == frames;
    assert AllFramesSized(fs);
  }
}
