/**
 * The controller object of Code/Server/Control.py: its fields and the methods that
 * update them in place. Every method is proved against the transition of the same
 * name in the Dispatch module, on the state `State()` the fields spell out.
 */
module Control {
  import opened Wrappers
  import opened Numeric
  import opened Kinematics
  import opened Gait
  import opened Dispatch
  import PointFile

  class Control {
    const ik: IK        // coordinateToAngle
    const trig: Trig    // math.sin, math.cos, math.pi
    const cmd: Commands // the command names

    var flag: int
    var timeout: real
    var height: int
    var bodyPoint: seq<Point>
    var calibrationLegPoint: seq<seq<int>>
    var legPoint: seq<Point>
    var calibrationAngle: seq<Angles>
    var angle: seq<Angles>
    var calls: seq<ServoCall>   // what was sent to the servo driver, in order
    var order: seq<string>
    var pointFile: string       // contents of point.txt

    ghost function State(): Robot
      reads this
    {
      Robot(order, flag, timeout, height, bodyPoint, calibrationLegPoint, legPoint, calibrationAngle,
            Actuation(angle, calls), pointFile)
    }

    ghost predicate Valid()
      reads this
    {
      Wellformed(State())
    }

    /** `__init__`: read the point file, calibrate, stand. */
    constructor (ik: IK, trig: Trig, cmd: Commands, text: string)
      requires PointFile.Parse(text).Some? && TableShape(PointFile.Parse(text).value)
      ensures Valid() && this.ik == ik && this.trig == trig && this.cmd == cmd
      ensures State() == Boot(ik, text, PointFile.Parse(text).value)
    {
      this.ik, this.trig, this.cmd := ik, trig, cmd;
      flag := 0;
      timeout := 0.0;
      height := -25;
      bodyPoint := StandingLayout(-25.0);
      pointFile := text;
      var table := PointFile.ReadFromTxt(text);
      calibrationLegPoint := table.value;
      legPoint := seq(Legs, i => Point(140.0, 0.0, 0.0));
      calibrationAngle := seq(Legs, i => Angles(0, 0, 0));
      angle := seq(Legs, i => Angles(90, 0, 0));
      calls := [];
      order := Cleared;
      new;
      Calibration();
      SetLegAngle();
    }

    /** `checkPoint`: every leg point within 90..248 mm of its hip. */
    method CheckPoint() returns (ok: bool)
      requires Valid()
      ensures ok == Kinematics.CheckPoint(legPoint)
    {
      ok := true;
      var i := 0;
      while i < Legs
        invariant 0 <= i <= Legs
        invariant ok == Kinematics.CheckPoint(legPoint[..i])
      {
        var p := legPoint[i];
        assert legPoint[..i + 1][..i] == legPoint[..i];
        if Norm2(p) > 248.0 * 248.0 || Norm2(p) < 90.0 * 90.0 {
          ok := false;
        }
        i := i + 1;
      }
      assert legPoint[..Legs] == legPoint;
    }

    /** The first loop of `setLegAngle`: the raw IK angles of every leg point. */
    method IkAngles()
      requires Valid()
      modifies this`angle
      ensures |angle| == Legs && forall k :: 0 <= k < Legs ==> angle[k] == RawAngles(ik, legPoint[k])
    {
      var i := 0;
      while i < Legs
        invariant 0 <= i <= Legs && |angle| == Legs
        invariant forall k :: 0 <= k < i ==> angle[k] == RawAngles(ik, legPoint[k])
      {
        angle := angle[i := RawAngles(ik, legPoint[i])];
        i := i + 1;
      }
    }

    /** The second loop of `setLegAngle`: offsets, mirroring and clamping, legs i and i + 3 together. */
    method ClampAngles()
      requires Valid()
      requires |angle| == Legs && forall k :: 0 <= k < Legs ==> angle[k] == RawAngles(ik, legPoint[k])
      modifies this`angle
      ensures angle == AssembleAll(ik, legPoint, calibrationAngle)
    {
      var i := 0;
      while i < 3
        invariant 0 <= i <= 3 && |angle| == Legs
        invariant forall k :: 0 <= k < Legs ==>
          angle[k] == if k % 3 < i then AssembleLeg(k, RawAngles(ik, legPoint[k]), calibrationAngle[k])
                      else RawAngles(ik, legPoint[k])
      {
        angle := angle[i := AssembleLeg(i, angle[i], calibrationAngle[i])];
        angle := angle[i + 3 := AssembleLeg(i + 3, angle[i + 3], calibrationAngle[i + 3])];
        i := i + 1;
      }
    }

    /** `setLegAngle`: recompute and send the angles when the leg points are reachable. */
    method SetLegAngle()
      requires Valid()
      modifies this`angle, this`calls
      ensures Valid() && State() == SetLegAngleOn(ik, old(State()))
    {
      var ok := CheckPoint();
      if ok {
        IkAngles();
        ClampAngles();
        calls := calls + [SetLegs(angle)];
      }
    }

    /** `calibration`: offsets = IK(saved point) - IK(140, 0, 0), leg by leg. */
    method Calibration()
      requires Valid()
      modifies this`legPoint, this`calibrationAngle, this`angle
      ensures Valid() && State() == CalibrationOn(ik, old(State()))
    {
      legPoint := NominalLegs();
      SavedPointAngles();
      IkAngles();
      SubtractNominal();
    }

    /** The first loop of `calibration`: the IK angles of every saved calibration point. */
    method SavedPointAngles()
      requires Valid()
      modifies this`calibrationAngle
      ensures |calibrationAngle| == Legs
      ensures forall k :: 0 <= k < Legs ==> calibrationAngle[k] == CalPointAngles(ik, CalPoints(calibrationLegPoint)[k])
    {
      var i := 0;
      while i < Legs
        modifies this`calibrationAngle
        invariant 0 <= i <= Legs && |calibrationAngle| == Legs
        invariant forall k :: 0 <= k < i ==> calibrationAngle[k] == CalPointAngles(ik, CalPoints(calibrationLegPoint)[k])
      {
        var row := calibrationLegPoint[i];
        calibrationAngle := calibrationAngle[i := ik((-row[2]) as real, row[0] as real, row[1] as real)];
        i := i + 1;
      }
    }

    /** The last loop of `calibration`: subtract the nominal point's angles, leg by leg. */
    method SubtractNominal()
      requires Valid() && legPoint == NominalLegs()
      requires |calibrationAngle| == Legs
      requires forall k :: 0 <= k < Legs ==> calibrationAngle[k] == CalPointAngles(ik, CalPoints(calibrationLegPoint)[k])
      requires |angle| == Legs && forall k :: 0 <= k < Legs ==> angle[k] == RawAngles(ik, legPoint[k])
      modifies this`calibrationAngle
      ensures calibrationAngle == CalibrationOffsets(ik, CalPoints(calibrationLegPoint))
    {
      ghost var pts := CalPoints(calibrationLegPoint);
      var i := 0;
      while i < Legs
        modifies this`calibrationAngle
        invariant 0 <= i <= Legs && |calibrationAngle| == Legs
        invariant forall k :: 0 <= k < Legs ==>
          calibrationAngle[k] == if k < i then Diff(CalPointAngles(ik, pts[k]), RawAngles(ik, Nominal))
                                 else CalPointAngles(ik, pts[k])
      {
        calibrationAngle := calibrationAngle[i := Diff(calibrationAngle[i], angle[i])];
        i := i + 1;
      }
    }

    /** `coordinateTransformation(point)`. */
    method CoordinateTransformation(point: seq<Point>)
      requires |point| == Legs
      modifies this`legPoint
      ensures legPoint == Transform(trig, point)
    {
      var i := 0;
      legPoint := point;
      while i < Legs
        modifies this`legPoint
        invariant 0 <= i <= Legs && |legPoint| == Legs
        invariant forall k :: 0 <= k < i ==> legPoint[k] == TransformLeg(trig, k, point[k])
      {
        var c, s := LegCos(trig, i), LegSin(trig, i);
        legPoint := legPoint[i := Point(point[i].x * c + point[i].y * s + HipOffsetX(i) as real,
                                        -point[i].x * s + point[i].y * c,
                                        point[i].z - 14.0)];
        i := i + 1;
      }
    }

    /** `coordinateTransformation(point)` followed by `setLegAngle()`. */
    method Update(point: seq<Point>)
      requires Valid() && |point| == Legs
      modifies this`legPoint, this`angle, this`calls
      ensures Valid() && State() == UpdateOn(ik, trig, old(State()), point)
    {
      CoordinateTransformation(point);
      SetLegAngle();
    }

    /** `relax(flag)`. */
    method Relax(off: bool)
      requires Valid()
      modifies this`angle, this`calls
      ensures Valid() && State() == RelaxOn(ik, old(State()), off)
    {
      if off {
        calls := calls + [RelaxAll];
      } else {
        SetLegAngle();
      }
    }

    /** `posittion(x, y, z)`. */
    method Posittion(x: int, y: int, z: int)
      requires Valid()
      modifies this`bodyPoint, this`height, this`legPoint, this`angle, this`calls
      ensures Valid() && State() == PositionOn(ik, trig, old(State()), x, y, z)
    {
      var point := bodyPoint;
      var i := 0;
      while i < Legs
        modifies this`bodyPoint, this`height
        invariant 0 <= i <= Legs && |point| == Legs && |bodyPoint| == Legs
        invariant forall k :: 0 <= k < Legs ==> bodyPoint[k].x == old(bodyPoint[k].x) && bodyPoint[k].y == old(bodyPoint[k].y)
        invariant forall k :: 0 <= k < i ==> point[k] == StandPose(old(bodyPoint), x, y, z)[k]
        invariant forall k :: 0 <= k < i ==> bodyPoint[k].z == (-30 - z) as real
        invariant forall k :: i <= k < Legs ==> bodyPoint[k] == old(bodyPoint[k])
        invariant i > 0 ==> height == -30 - z
        invariant i == 0 ==> height == old(height)
      {
        point := point[i := Point(bodyPoint[i].x - x as real, bodyPoint[i].y - y as real, (-30 - z) as real)];
        height := -30 - z;
        bodyPoint := bodyPoint[i := Point(bodyPoint[i].x, bodyPoint[i].y, point[i].z)];
        i := i + 1;
      }
      assert point == StandPose(old(bodyPoint), x, y, z);
      Update(point);
    }

    /** Before its loop, `imu6050` levels the body: `postureBalance(0, 0, 0)`, transformed and sent. */
    method Imu6050()
      requires Valid()
      modifies this`legPoint, this`angle, this`calls
      ensures Valid() && State() == UpdateOn(ik, trig, old(State()), PostureBalance(trig, old(height) as real, 0.0, 0.0, 0.0))
    {
      var point := PostureBalance(trig, height as real, 0.0, 0.0, 0.0);
      Update(point);
    }

    /** `saveToTxt(calibration_leg_point, 'point')`. */
    method SavePoints()
      modifies this`pointFile
      ensures pointFile == PointFile.Serialize(calibrationLegPoint)
    {
      pointFile := PointFile.SaveToTxt(calibrationLegPoint);
    }
  
    /** One pass of the tripod gait's inner loop: the three leg pairs of step `j`. */
    static method TripodPoints(point: seq<Point>, xy: seq<Point>, j: int, f: int, zs: real, lift: real) returns (q: seq<Point>)
      requires |point| == Legs && |xy| == Legs
      ensures q == TripodStep(point, xy, j, f, zs, lift)
    {
      q := point;
      var i := 0;
      while i < 3
        invariant 0 <= i <= 3 && |q| == Legs
        invariant forall k :: 0 <= k < Legs ==>
          q[k] == if k / 2 < i then TripodStep(point, xy, j, f, zs, lift)[k] else point[k]
      {
        q := q[2 * i := FirstLeg(Phase(j, f), q[2 * i], xy[2 * i], zs)];
        q := q[2 * i + 1 := SecondLeg(Phase(j, f), q[2 * i + 1], xy[2 * i + 1], zs, lift)];
        i := i + 1;
      }
    }

    /** One pass of the wave gait's innermost loop: every leg's point at step `j` of visit `i`. */
    static method WavePoints(point: seq<Point>, xy: seq<Point>, zs: real, t: WaveTiming, i: nat, j: int) returns (q: seq<Point>)
      requires |point| == Legs && |xy| == Legs && i < 6
      ensures q == WaveStep(point, xy, zs, t, i, j)
    {
      q := point;
      var k := 0;
      while k < Legs
        invariant 0 <= k <= Legs && |q| == Legs
        invariant forall n :: 0 <= n < Legs ==>
          q[n] == if n < k then WaveStep(point, xy, zs, t, i, j)[n] else point[n]
      {
        q := q[k := WaveLeg(q[k], xy[k], zs, Visit(i) == k, j, t)];
        k := k + 1;
      }
    }

    /** Sending one more frame extends the animation the robot has gone through by that frame. */
    method SendFrame(ghost s0: Robot, ghost frames: seq<seq<Point>>, point: seq<Point>)
      requires Valid() && Wellformed(s0) && AllFramesSized(frames) && |point| == Legs
      requires State() == Animate(ik, trig, s0, frames)
      modifies this`legPoint, this`angle, this`calls
      ensures Valid() && AllFramesSized(frames + [point])
      ensures State() == Animate(ik, trig, s0, frames + [point])
    {
      AnimateSnoc(ik, trig, s0, frames, point);
      Update(point);
    }

    /** The tripod gait of `run`: `f` steps, each sent through `coordinateTransformation` and `setLegAngle`. */
    method Tripod(xy: seq<Point>, f: int, zs: real, lift: real)
      requires Valid() && |xy| == Legs
      modifies this`legPoint, this`angle, this`calls
      ensures Valid()
      ensures State() == Animate(ik, trig, old(State()), TripodFrames(bodyPoint, xy, f, zs, lift, if f > 0 then f else 0))
    {
      ghost var s0 := State();
      ghost var n := if f > 0 then f else 0;
      var p0 := bodyPoint;
      var point := p0;
      var j := 0;
      while j < f
        modifies this`legPoint, this`angle, this`calls
        invariant Valid() && 0 <= j <= n
        invariant point == TripodPose(p0, xy, f, zs, lift, j)
        invariant State() == Animate(ik, trig, s0, TripodFrames(p0, xy, f, zs, lift, j))
      {
        ghost var frames := TripodFrames(p0, xy, f, zs, lift, j);
        point := TripodPoints(point, xy, j, f, zs, lift);
        ghost var next := TripodPose(p0, xy, f, zs, lift, j + 1);
        assert point == next;
        assert TripodFrames(p0, xy, f, zs, lift, j + 1) == frames + [next];
        SendFrame(s0, frames, point);
        j := j + 1;
      }
      assert j == n && bodyPoint == p0;
    }

    /** The wave gait of `run`: six visits of `t.visit` steps each. */
    method Wave(xy: seq<Point>, zs: real, t: WaveTiming)
      requires Valid() && |xy| == Legs
      modifies this`legPoint, this`angle, this`calls
      ensures Valid()
      ensures State() == Animate(ik, trig, old(State()), WaveFrames(bodyPoint, xy, zs, t, 6, 0))
    {
      ghost var s0 := State();
      var p0 := bodyPoint;
      var point := p0;
      var i := 0;
      while i < 6
        modifies this`legPoint, this`angle, this`calls
        invariant Valid() && 0 <= i <= 6
        invariant point == WavePose(p0, xy, zs, t, i, 0)
        invariant State() == Animate(ik, trig, s0, WaveFrames(p0, xy, zs, t, i, 0))
      {
        var j := 0;
        while j < t.visit
          modifies this`legPoint, this`angle, this`calls
          invariant Valid() && 0 <= j <= t.visit
          invariant point == WavePose(p0, xy, zs, t, i, j)
          invariant State() == Animate(ik, trig, s0, WaveFrames(p0, xy, zs, t, i, j))
        {
          point := WavePoints(point, xy, zs, t, i, j);
          SendFrame(s0, WaveFrames(p0, xy, zs, t, i, j), point);
          j := j + 1;
        }
        i := i + 1;
      }
      assert i == 6 && bodyPoint == p0;
    }

    /** `run(data)`: parse the order, then send the frames of the selected gait one by one. */
    method Run(data: seq<string>) returns (ok: bool)
      requires Valid() && |data| >= 6
      modifies this`legPoint, this`angle, this`calls
      ensures Valid() && ok == ParseMove(data).Some?
      ensures State() == if ok then RunOn(ik, trig, old(State()), ParseMove(data).value) else old(State())
    {
      var move := ParseMove(data);
      if move.None? {
        return false;
      }
      ok := true;
      var m := move.value;
      var xy := Stride(trig, bodyPoint, m);
      var zs := LiftStep(m);
      if m.x == 0 && m.y == 0 && m.angle == 0 {
        AnimateSnoc(ik, trig, State(), [], bodyPoint);
        assert [] + [bodyPoint] == [bodyPoint];
        Update(bodyPoint);
      } else if m.gait == "1" {
        Tripod(xy, m.f, zs, (StepHeight + height) as real);
      } else if m.gait == "2" {
        Wave(xy, zs, Timing(m.f));
      }
    }
  
    /** The POSITION branch of `condition`. */
    method ServePosition() returns (outcome: Outcome)
      requires Valid() && |order| == 4
      modifies this
      ensures Valid() && Stepped(outcome, State()) == PositionBranch(ik, trig, old(State()))
    {
      if flag != 1 {
        Relax(false);
      }
      var x, y, z := IntAt(order, 1), IntAt(order, 2), IntAt(order, 3);
      if x.None? || y.None? || z.None? {
        return Crashed;
      }
      Posittion(Restriction(x.value, -40, 40), Restriction(y.value, -40, 40), Restriction(z.value, -20, 20));
      flag := 1;
      order := Cleared;
      return Continue;
    }

    /** The ATTITUDE branch of `condition`. */
    method ServeAttitude() returns (outcome: Outcome)
      requires Valid() && |order| == 4
      modifies this
      ensures Valid() && Stepped(outcome, State()) == AttitudeBranch(ik, trig, old(State()))
    {
      if flag != 2 {
        Relax(false);
      }
      var a, b, c := IntAt(order, 1), IntAt(order, 2), IntAt(order, 3);
      if a.None? || b.None? || c.None? {
        return Crashed;
      }
      var point := PostureBalance(trig, height as real, Restriction(a.value, -15, 15) as real,
                                  Restriction(b.value, -15, 15) as real, Restriction(c.value, -15, 15) as real);
      Update(point);
      flag := 2;
      order := Cleared;
      return Continue;
    }

    /** The MOVE branch of `condition`. */
    method ServeMove() returns (outcome: Outcome)
      requires Valid() && |order| == 6
      modifies this
      ensures Valid() && Stepped(outcome, State()) == MoveBranch(ik, trig, old(State()))
    {
      if order[2] == "0" && order[3] == "0" {
        var ok := Run(order);
        if !ok {
          return Crashed;
        }
        order := Cleared;
      } else {
        if flag != 3 {
          Relax(false);
        }
        var ok := Run(order);
        if !ok {
          return Crashed;
        }
        flag := 3;
      }
      return Continue;
    }

    /** The BALANCE branch of `condition`; `Balancing` stands for entering the endless loop of `imu6050`. */
    method ServeBalance() returns (outcome: Outcome)
      requires Valid() && |order| == 2
      modifies this
      ensures Valid() && Stepped(outcome, State()) == BalanceBranch(ik, trig, old(State()))
    {
      if order[1] == "1" {
        order := Cleared;
        if flag != 4 {
          Relax(false);
        }
        flag := 4;
        Imu6050();
        return Balancing;
      }
      return Continue;
    }

    /** `calibration_leg_point[row][0..2] = int(order[2..4])`, stopping at the first bad number. */
    method WriteCalibrationRow(row: nat) returns (complete: bool)
      requires TableShape(calibrationLegPoint) && row < Legs
      modifies this`calibrationLegPoint
      ensures RowWrite(complete, calibrationLegPoint) == WriteRow(old(calibrationLegPoint), row, order)
    {
      complete := false;
      var a := IntAt(order, 2);
      if a.None? {
        return;
      }
      calibrationLegPoint := calibrationLegPoint[row := calibrationLegPoint[row][0 := a.value]];
      var b := IntAt(order, 3);
      if b.None? {
        return;
      }
      calibrationLegPoint := calibrationLegPoint[row := calibrationLegPoint[row][1 := b.value]];
      var c := IntAt(order, 4);
      if c.None? {
        return;
      }
      calibrationLegPoint := calibrationLegPoint[row := calibrationLegPoint[row][2 := c.value]];
      complete := true;
    }

    /** The CALIBRATION branch of `condition`: the row is written one coordinate at a time. */
    method ServeCalibration() returns (outcome: Outcome)
      requires Valid()
      modifies this
      ensures Valid() && Stepped(outcome, State()) == CalibrationBranch(ik, old(State()))
    {
      timeout := 0.0;
      Calibration();
      SetLegAngle();
      if |order| >= 2 {
        var k := KeywordRow(order[1]);
        if k.Some? {
          var complete := WriteCalibrationRow(k.value);
          if !complete {
            return Crashed;
          }
          Calibration();
          SetLegAngle();
        } else if order[1] == "save" {
          SavePoints();
        }
      }
      order := Cleared;
      return Continue;
    }

    /** The idle guard at the head of `condition`'s loop; `crashed` when `order` is empty. */
    method Guard(now: real) returns (crashed: bool)
      requires Valid()
      modifies this`timeout, this`flag, this`angle, this`calls
      ensures Valid() && Stepped(if crashed then Crashed else Continue, State()) == IdleGuard(old(State()), now)
    {
      crashed := false;
      if now - timeout > 10.0 && timeout != 0.0 {
        if |order| == 0 {
          return true;
        }
        if order[0] == "" {
          timeout := now;
          Relax(true);
          flag := 0;
        }
      }
    }

    /** The `if`/`elif` chain of `condition`: the first branch whose command is in the order. */
    method ServeOrder() returns (outcome: Outcome)
      requires Valid()
      modifies this
      ensures Valid() && Stepped(outcome, State()) == Serve(ik, trig, cmd, old(State()))
    {
      if cmd.position in order && |order| == 4 {
        outcome := ServePosition();
      } else if cmd.attitude in order && |order| == 4 {
        outcome := ServeAttitude();
      } else if cmd.move in order && |order| == 6 {
        outcome := ServeMove();
      } else if cmd.balance in order && |order| == 2 {
        outcome := ServeBalance();
      } else if cmd.calibration in order {
        outcome := ServeCalibration();
      } else {
        outcome := Continue;
      }
    }

    /** One pass of `condition`'s loop at time `now`: the idle guard, then the first matching branch. */
    method Step(now: real) returns (outcome: Outcome)
      requires Valid()
      modifies this
      ensures Valid() && Stepped(outcome, State()) == Next(ik, trig, cmd, old(State()), now)
    {
      var crashed := Guard(now);
      if crashed {
        return Crashed;
      }
      outcome := ServeOrder();
    }

    /** The passes of `imu6050`'s loop before the next order arrives: one posture per PID output. */
    method BalanceLoop(tilts: seq<Tilt>)
      requires Valid()
      modifies this`legPoint, this`angle, this`calls
      ensures Valid() && State() == Balance(ik, trig, old(State()), tilts)
    {
      ghost var s0 := State();
      var i := 0;
      while i < |tilts|
        invariant Valid() && 0 <= i <= |tilts|
        invariant State() == Balance(ik, trig, s0, tilts[..i])
      {
        assert tilts[..i + 1][..i] == tilts[..i];
        var point := PostureBalance(trig, height as real, tilts[i].roll, tilts[i].pitch, 0.0);
        Update(point);
        i := i + 1;
      }
      assert tilts[..i] == tilts;
    }

    /** One input: the balancing loop meets the new order, or the next pass of `condition` finds it. */
    method Feed(input: Input, balancing: bool) returns (outcome: Outcome)
      requires Valid()
      modifies this
      ensures Valid()
      ensures balancing ==> Stepped(outcome, State()) == Resume(ik, trig, cmd, old(State()), input)
      ensures !balancing ==> Stepped(outcome, State()) == Next(ik, trig, cmd, old(State()).(order := input.order), input.now)
    {
      if balancing {
        BalanceLoop(input.tilts);
        order := input.order;
        if |order| == 0 {
          return Crashed;
        }
        if order[0] == "" {
          return Balancing;
        }
      } else {
        order := input.order;
      }
      outcome := Step(input.now);
    }

    /**
     * `condition`'s endless loop, fed with the order each pass finds (another thread writes
     * `order`); it ends at the first pass that crashes or when the inputs run out.
     */
    method Condition(inputs: seq<Input>) returns (outcome: Outcome)
      requires Valid()
      modifies this
      ensures Valid() && Stepped(outcome, State()) == Drive(ik, trig, cmd, old(State()), inputs)
    {
      ghost var s0 := State();
      outcome := Continue;
      var n := 0;
      assert inputs[..0] == [];
      while n < |inputs| && outcome != Crashed
        invariant Valid() && 0 <= n <= |inputs|
        invariant Stepped(outcome, State()) == Drive(ik, trig, cmd, s0, inputs[..n])
      {
        assert inputs[..n + 1][..n] == inputs[..n];
        outcome := Feed(inputs[n], outcome == Balancing);
        n := n + 1;
      }
      if n < |inputs| {
        DriveStops(ik, trig, cmd, s0, inputs, n);
      } else {
        assert inputs[..n] == inputs;
      }
    }
  }
}
