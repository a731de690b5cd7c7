/**
 * The pure part of the hexapod's kinematics (Code/Server/Control.py): the workspace
 * gate `checkPoint`, the assembly of servo angles from inverse-kinematics angles and
 * calibration offsets, the calibration offsets themselves, the per-leg frame change
 * `coordinateTransformation`, the standing pose of `posittion` and the body rotation
 * of `postureBalance`.
 *
 * The floating-point trigonometry is not modelled: the inverse kinematics
 * `coordinateToAngle` is a parameter `ik` returning whole degrees, and sine, cosine
 * and pi are the parameter `trig`. Coordinates are exact reals.
 */
module Kinematics {
  import opened Numeric

  /** A point in millimetres (a body point, a leg point or a direction). */
  datatype Point = Point(x: real, y: real, z: real)

  /** A calibration point as read from the point file: whole millimetres. */
  datatype IntPoint = IntPoint(x: int, y: int, z: int)

  /** The three joint angles of one leg, in whole degrees. */
  datatype Angles = Angles(coxa: int, femur: int, tibia: int)

  /** `coordinateToAngle(ox, oy, oz)`: trigonometry rounded to whole degrees. */
  type IK = (real, real, real) -> Angles

  /** `math.sin`, `math.cos` and `math.pi`. */
  datatype Trig = Trig(sin: real -> real, cos: real -> real, pi: real)

  /** What the controller asks of the servo driver. */
  datatype ServoCall =
    | SetLegs(angles: seq<Angles>)  // setLegServoBatch(self.angle): one batched write of 6x3 angles
    | RelaxAll                      // servo.relax(): channels 8-31 switched off, 0-7 left as they are

  /** The joint angles and the calls made to the servo driver so far. */
  datatype Actuation = Actuation(angle: seq<Angles>, calls: seq<ServoCall>)

  const Legs := 6

  // ---------------------------------------------------------------- workspace gate

  function Norm2(p: Point): real { p.x * p.x + p.y * p.y + p.z * p.z }

  /** The foot lies in the reachable shell: 90 mm <= |p| <= 248 mm, compared squared. */
  predicate InShell(p: Point) { 90.0 * 90.0 <= Norm2(p) <= 248.0 * 248.0 }

  /** `checkPoint`: false as soon as one leg point is farther than 248 mm or nearer than 90 mm. */
  function CheckPoint(pts: seq<Point>): (ok: bool)
    ensures ok <==> forall i :: 0 <= i < |pts| ==> InShell(pts[i])
  {
    if pts == [] then true
    else
      var p := pts[|pts| - 1];
      CheckPoint(pts[..|pts| - 1]) && !(Norm2(p) > 248.0 * 248.0 || Norm2(p) < 90.0 * 90.0)
  }

  // ---------------------------------------------------------------- angle assembly

  predicate InServoRange(a: Angles)
  {
    0 <= a.coxa <= 180 && 0 <= a.femur <= 180 && 0 <= a.tibia <= 180
  }

  /** The inverse kinematics of a leg point, in the argument order (-z, x, y). */
  function RawAngles(ik: IK, p: Point): Angles
  {
    ik(-p.z, p.x, p.y)
  }

  /**
   * The servo angles of leg `i` from its raw angles and calibration offset: legs 0-2
   * use (raw+off, 90-(raw+off), raw+off), legs 3-5 (raw+off, 90+raw+off, 180-(raw+off)),
   * every value clamped to [0, 180].
   */
  function AssembleLeg(i: nat, raw: Angles, off: Angles): (a: Angles)
    requires i < Legs
    ensures InServoRange(a)
  {
    if i < 3 then
      Angles(Restriction(raw.coxa + off.coxa, 0, 180),
             Restriction(90 - (raw.femur + off.femur), 0, 180),
             Restriction(raw.tibia + off.tibia, 0, 180))
    else
      Angles(Restriction(raw.coxa + off.coxa, 0, 180),
             Restriction(90 + raw.femur + off.femur, 0, 180),
             Restriction(180 - (raw.tibia + off.tibia), 0, 180))
  }

  /**
   * The two sides are mirror images: given the same raw angles and offset, a leg of
   * 3-5 gets the coxa angle of a leg of 0-2 and the supplements of its femur and
   * tibia angles.
   */
  lemma MirroredSides(i: nat, raw: Angles, off: Angles)
    requires i < 3
    ensures var l, r := AssembleLeg(i, raw, off), AssembleLeg(i + 3, raw, off);
            r.coxa == l.coxa && r.femur == 180 - l.femur && r.tibia == 180 - l.tibia
  {
    RestrictionReflect(90 - (raw.femur + off.femur), 0, 180);
    RestrictionReflect(raw.tibia + off.tibia, 0, 180);
  }

  /** Where the sums stay within the servo range the clamp is inactive. */
  lemma AssembleLegExact(i: nat, raw: Angles, off: Angles)
    requires i < Legs
    requires 0 <= raw.coxa + off.coxa <= 180 && -90 <= raw.femur + off.femur <= 90
    requires 0 <= raw.tibia + off.tibia <= 180
    ensures var a := AssembleLeg(i, raw, off);
            a.coxa == raw.coxa + off.coxa && a.tibia == (if i < 3 then raw.tibia + off.tibia else 180 - (raw.tibia + off.tibia))
            && a.femur == (if i < 3 then 90 - (raw.femur + off.femur) else 90 + raw.femur + off.femur)
  {
  }

  /** The six servo angle triples for the leg points `pts` and offsets `cal`. */
  function AssembleAll(ik: IK, pts: seq<Point>, cal: seq<Angles>): (angles: seq<Angles>)
    requires |pts| == Legs && |cal| == Legs
    ensures |angles| == Legs && forall i :: 0 <= i < Legs ==> InServoRange(angles[i])
  {
    seq(Legs, i requires 0 <= i < Legs => AssembleLeg(i, RawAngles(ik, pts[i]), cal[i]))
  }

  /**
   * `setLegAngle` on values: when every leg point is in the shell the angles are
   * re-assembled and sent in one batch; otherwise nothing changes and nothing is sent.
   */
  function Actuate(ik: IK, pts: seq<Point>, cal: seq<Angles>, act: Actuation): (r: Actuation)
    requires |pts| == Legs && |cal| == Legs
    ensures !CheckPoint(pts) ==> r == act
    ensures CheckPoint(pts) ==> |r.angle| == Legs && r.calls == act.calls + [SetLegs(r.angle)]
    ensures CheckPoint(pts) ==> forall i :: 0 <= i < Legs ==> InServoRange(r.angle[i])
  {
    if CheckPoint(pts) then
      var angles := AssembleAll(ik, pts, cal);
      Actuation(angles, act.calls + [SetLegs(angles)])
    else act
  }

  /** Every batch the controller sends holds six triples within [0, 180]. */
  predicate SafeCalls(calls: seq<ServoCall>)
  {
    forall k :: 0 <= k < |calls| && calls[k].SetLegs? ==>
      |calls[k].angles| == Legs && forall i :: 0 <= i < Legs ==> InServoRange(calls[k].angles[i])
  }

  lemma ActuateKeepsSafe(ik: IK, pts: seq<Point>, cal: seq<Angles>, act: Actuation)
    requires |pts| == Legs && |cal| == Legs && SafeCalls(act.calls)
    ensures SafeCalls(Actuate(ik, pts, cal, act).calls)
  {
  }

  // ---------------------------------------------------------------- calibration

  const Nominal := Point(140.0, 0.0, 0.0)

  /** The leg points `calibration` resets to: (140, 0, 0) for every leg. */
  function NominalLegs(): (pts: seq<Point>)
    ensures |pts| == Legs && CheckPoint(pts)
  {
    seq(Legs, i => Nominal)
  }

  /** The inverse kinematics of a saved calibration point, in the order (-z, x, y). */
  function CalPointAngles(ik: IK, c: IntPoint): Angles
  {
    ik((-c.z) as real, c.x as real, c.y as real)
  }

  function Diff(a: Angles, b: Angles): Angles
  {
    Angles(a.coxa - b.coxa, a.femur - b.femur, a.tibia - b.tibia)
  }

  /** `calibration`: offset of leg i = IK(saved point i) - IK(140, 0, 0), componentwise. */
  function CalibrationOffsets(ik: IK, cal: seq<IntPoint>): (offs: seq<Angles>)
    requires |cal| == Legs
    ensures |offs| == Legs
  {
    seq(Legs, i requires 0 <= i < Legs => Diff(CalPointAngles(ik, cal[i]), RawAngles(ik, Nominal)))
  }

  /** A leg whose saved point is the nominal one gets a zero offset. */
  lemma NominalPointZeroOffset(ik: IK, cal: seq<IntPoint>, i: nat)
    requires |cal| == Legs && i < Legs && cal[i] == IntPoint(140, 0, 0)
    ensures CalibrationOffsets(ik, cal)[i] == Angles(0, 0, 0)
  {
    assert CalPointAngles(ik, cal[i]) == RawAngles(ik, Nominal);
  }

  /**
   * The meaning of the offsets: at the nominal stance right after `calibration`, every
   * leg is driven to the angles the inverse kinematics gives for its saved point.
   */
  lemma CalibratedNominalPose(ik: IK, cal: seq<IntPoint>)
    requires |cal| == Legs
    ensures forall i :: 0 <= i < Legs ==>
      AssembleAll(ik, NominalLegs(), CalibrationOffsets(ik, cal))[i]
      == AssembleLeg(i, CalPointAngles(ik, cal[i]), Angles(0, 0, 0))
  {
    forall i | 0 <= i < Legs
      ensures AssembleAll(ik, NominalLegs(), CalibrationOffsets(ik, cal))[i]
              == AssembleLeg(i, CalPointAngles(ik, cal[i]), Angles(0, 0, 0))
    {
      var raw, c := RawAngles(ik, Nominal), CalPointAngles(ik, cal[i]);
      var off := CalibrationOffsets(ik, cal)[i];
      assert raw.coxa + off.coxa == c.coxa + 0;
      assert raw.femur + off.femur == c.femur + 0;
      assert raw.tibia + off.tibia == c.tibia + 0;
    }
  }

  // ---------------------------------------------------------------- frames and poses

  /** Mounting angle of each leg, in degrees (front right, clockwise). */
  function MountAngle(i: nat): int
    requires i < Legs
  {
    [54, 0, -54, -126, 180, 126][i]
  }

  /** Distance from the body centre to the hip pivot along the leg's own x axis. */
  function HipOffsetX(i: nat): int
    requires i < Legs
  {
    [-94, -85, -94, -94, -85, -94][i]
  }

  function LegCos(trig: Trig, i: nat): real
    requires i < Legs
  {
    trig.cos(MountAngle(i) as real * trig.pi / 180.0)
  }

  function LegSin(trig: Trig, i: nat): real
    requires i < Legs
  {
    trig.sin(MountAngle(i) as real * trig.pi / 180.0)
  }

  /** `coordinateTransformation` for one leg: rotate by the mounting angle, shift to the hip, drop 14 mm. */
  function TransformLeg(trig: Trig, i: nat, p: Point): Point
    requires i < Legs
  {
    var c, s := LegCos(trig, i), LegSin(trig, i);
    Point(p.x * c + p.y * s + HipOffsetX(i) as real, -p.x * s + p.y * c, p.z - 14.0)
  }

  /** `coordinateTransformation`: body points to leg points, leg by leg. */
  function Transform(trig: Trig, pts: seq<Point>): (legs: seq<Point>)
    requires |pts| == Legs
    ensures |legs| == Legs
  {
    seq(Legs, i requires 0 <= i < Legs => TransformLeg(trig, i, pts[i]))
  }

  /** Each leg point depends on its own body point only, and sits 14 mm below it. */
  lemma TransformPerLeg(trig: Trig, pts: seq<Point>, qs: seq<Point>, i: nat)
    requires |pts| == Legs && |qs| == Legs && i < Legs
    ensures Transform(trig, pts)[i].z == pts[i].z - 14.0
    ensures pts[i] == qs[i] ==> Transform(trig, pts)[i] == Transform(trig, qs)[i]
  {
  }

  /**
   * Since the mounting rotation is a rotation, the horizontal distance of the leg point
   * from the hip equals the horizontal distance of the body point from the body centre.
   */
  lemma TransformKeepsReach(trig: Trig, i: nat, p: Point)
    requires i < Legs
    requires LegCos(trig, i) * LegCos(trig, i) + LegSin(trig, i) * LegSin(trig, i) == 1.0
    ensures var q := TransformLeg(trig, i, p);
            (q.x - HipOffsetX(i) as real) * (q.x - HipOffsetX(i) as real) + q.y * q.y
            == p.x * p.x + p.y * p.y
  {
    var c, s := LegCos(trig, i), LegSin(trig, i);
    var u, v := p.x * c + p.y * s, -p.x * s + p.y * c;
    calc {
      u * u + v * v;
      (p.x * p.x) * (c * c) + 2.0 * (p.x * p.y) * (c * s) + (p.y * p.y) * (s * s)
        + (p.x * p.x) * (s * s) - 2.0 * (p.x * p.y) * (c * s) + (p.y * p.y) * (c * c);
      (p.x * p.x + p.y * p.y) * (c * c + s * s);
    }
  }

  /** x and y of the foot positions of the standing hexagon (also `_footpoint_struc`). */
  function FootX(i: nat): real
    requires i < Legs
  {
    [137.1, 225.0, 137.1, -137.1, -225.0, -137.1][i]
  }

  function FootY(i: nat): real
    requires i < Legs
  {
    [189.4, 0.0, -189.4, -189.4, 0.0, 189.4][i]
  }

  /** `body_point`: the standing hexagon with every foot at height `h`. */
  function StandingLayout(h: real): (pts: seq<Point>)
    ensures |pts| == Legs
  {
    seq(Legs, i requires 0 <= i < Legs => Point(FootX(i), FootY(i), h))
  }

  /** The points `posittion(x, y, z)` hands to `coordinateTransformation`. */
  function StandPose(body: seq<Point>, x: int, y: int, z: int): (pts: seq<Point>)
    requires |body| == Legs
    ensures |pts| == Legs
  {
    seq(Legs, i requires 0 <= i < Legs => Point(body[i].x - x as real, body[i].y - y as real, (-30 - z) as real))
  }

  /**
   * POSITION commands are absolute: `posittion` never moves the x and y of `body_point`,
   * so the pose depends on the command alone, not on the height left by earlier ones,
   * and it shifts the standing hexagon by (-x, -y) at height -30 - z.
   */
  lemma StandPoseIsAbsolute(h: real, x: int, y: int, z: int)
    ensures forall i :: 0 <= i < Legs ==>
      StandPose(StandingLayout(h), x, y, z)[i]
      == Point(StandingLayout(0.0)[i].x - x as real, StandingLayout(0.0)[i].y - y as real, (-30 - z) as real)
    ensures StandPose(StandingLayout(h), 0, 0, z) == StandingLayout((-30 - z) as real)
  {
  }

  // ---------------------------------------------------------------- body rotation

  /** A 3x3 matrix given by its rows. */
  datatype Mat3 = Mat3(r0: Point, r1: Point, r2: Point)

  function Dot(a: Point, b: Point): real { a.x * b.x + a.y * b.y + a.z * b.z }

  function Col0(m: Mat3): Point { Point(m.r0.x, m.r1.x, m.r2.x) }
  function Col1(m: Mat3): Point { Point(m.r0.y, m.r1.y, m.r2.y) }
  function Col2(m: Mat3): Point { Point(m.r0.z, m.r1.z, m.r2.z) }

  function RowTimes(r: Point, m: Mat3): Point
  {
    Point(Dot(r, Col0(m)), Dot(r, Col1(m)), Dot(r, Col2(m)))
  }

  function MatMul(a: Mat3, b: Mat3): Mat3
  {
    Mat3(RowTimes(a.r0, b), RowTimes(a.r1, b), RowTimes(a.r2, b))
  }

  function Apply(m: Mat3, p: Point): Point
  {
    Point(Dot(m.r0, p), Dot(m.r1, p), Dot(m.r2, p))
  }

  const Identity := Mat3(Point(1.0, 0.0, 0.0), Point(0.0, 1.0, 0.0), Point(0.0, 0.0, 1.0))

  function RotX(trig: Trig, a: real): Mat3
  {
    Mat3(Point(1.0, 0.0, 0.0), Point(0.0, trig.cos(a), -trig.sin(a)), Point(0.0, trig.sin(a), trig.cos(a)))
  }

  function RotY(trig: Trig, a: real): Mat3
  {
    Mat3(Point(trig.cos(a), 0.0, -trig.sin(a)), Point(0.0, 1.0, 0.0), Point(trig.sin(a), 0.0, trig.cos(a)))
  }

  function RotZ(trig: Trig, a: real): Mat3
  {
    Mat3(Point(trig.cos(a), -trig.sin(a), 0.0), Point(trig.sin(a), trig.cos(a), 0.0), Point(0.0, 0.0, 1.0))
  }

  /** The rotation `postureBalance(r, p, y)` builds: rotx keyed by pitch, roty by roll, rotz by yaw. */
  function PostureMatrix(trig: Trig, r: real, p: real, y: real): Mat3
  {
    var R, P, Y := r * trig.pi / 180.0, p * trig.pi / 180.0, y * trig.pi / 180.0;
    MatMul(MatMul(RotX(trig, P), RotY(trig, R)), RotZ(trig, Y))
  }

  /** `postureBalance(r, p, y)`: the rotated foot hexagon raised to the current height. */
  function PostureBalance(trig: Trig, height: real, r: real, p: real, y: real): (pts: seq<Point>)
    ensures |pts| == Legs
  {
    RaisedFeet(PostureMatrix(trig, r, p, y), height)
  }

  /** `pos + rot_mat * _footpoint_struc`, one point per leg. */
  function RaisedFeet(m: Mat3, height: real): (pts: seq<Point>)
    ensures |pts| == Legs
  {
    seq(Legs, i requires 0 <= i < Legs => PostureFoot(m, height, i))
  }

  /** Column i of `pos + rot_mat * _footpoint_struc`. */
  function PostureFoot(m: Mat3, height: real, i: nat): Point
    requires i < Legs
  {
    var q := Apply(m, Point(FootX(i), FootY(i), 0.0));
    Point(q.x, q.y, q.z + height)
  }

  lemma ApplyIdentity(p: Point)
    ensures Apply(Identity, p) == p
  {
  }

  lemma LevelMatrix(trig: Trig)
    requires trig.sin(0.0) == 0.0 && trig.cos(0.0) == 1.0
    ensures PostureMatrix(trig, 0.0, 0.0, 0.0) == Identity
  {
    assert 0.0 * trig.pi / 180.0 == 0.0;
    RotationsAtZero(trig);
    IdentityLeft(Identity);
  }

  /** The three rotations by the angle 0 are the identity. */
  lemma RotationsAtZero(trig: Trig)
    requires trig.sin(0.0) == 0.0 && trig.cos(0.0) == 1.0
    ensures RotX(trig, 0.0) == Identity && RotY(trig, 0.0) == Identity && RotZ(trig, 0.0) == Identity
  {
  }

  /** The identity matrix is a left unit of the matrix product. */
  lemma IdentityLeft(m: Mat3)
    ensures MatMul(Identity, m) == m
  {
    assert RowTimes(Point(1.0, 0.0, 0.0), m) == m.r0;
    assert RowTimes(Point(0.0, 1.0, 0.0), m) == m.r1;
    assert RowTimes(Point(0.0, 0.0, 1.0), m) == m.r2;
  }

  /** Without rotation the feet are the standing hexagon at the given height. */
  lemma UnrotatedFeet(height: real)
    ensures RaisedFeet(Identity, height) == StandingLayout(height)
  {
    var pb, st := RaisedFeet(Identity, height), StandingLayout(height);
    forall i | 0 <= i < Legs
      ensures pb[i] == st[i]
    {
      ApplyIdentity(Point(FootX(i), FootY(i), 0.0));
    }
  }

  /** With sin 0 = 0 and cos 0 = 1, the level posture is exactly the standing hexagon. */
  lemma LevelPostureIsStanding(trig: Trig, height: real)
    requires trig.sin(0.0) == 0.0 && trig.cos(0.0) == 1.0
    ensures PostureBalance(trig, height, 0.0, 0.0, 0.0) == StandingLayout(height)
  {
    LevelMatrix(trig);
    UnrotatedFeet(height);
  }

  // ---------------------------------------------------------------- posture updates

  /** One `coordinateTransformation(point)` followed by `setLegAngle()`. */
  function PostureUpdate(ik: IK, trig: Trig, cal: seq<Angles>, act: Actuation, frame: seq<Point>): Actuation
    requires |cal| == Legs && |frame| == Legs
  {
    Actuate(ik, Transform(trig, frame), cal, act)
  }

  predicate AllFramesSized(frames: seq<seq<Point>>)
  {
    forall k :: 0 <= k < |frames| ==> |frames[k]| == Legs
  }

  /** A sequence of posture updates, in order. */
  function Replay(ik: IK, trig: Trig, cal: seq<Angles>, act: Actuation, frames: seq<seq<Point>>): Actuation
    requires |cal| == Legs && AllFramesSized(frames)
  {
    if frames == [] then act
    else PostureUpdate(ik, trig, cal, Replay(ik, trig, cal, act, frames[..|frames| - 1]), frames[|frames| - 1])
  }

  /**
   * Every posture update sends at most one batch, and exactly one when its leg points
   * are in the shell: a run of n frames in the workspace makes exactly n servo flushes.
   */
  lemma {:induction false} ReplayFlushes(ik: IK, trig: Trig, cal: seq<Angles>, act: Actuation, frames: seq<seq<Point>>)
    requires |cal| == Legs && AllFramesSized(frames)
    ensures var r := Replay(ik, trig, cal, act, frames);
            |act.calls| <= |r.calls| <= |act.calls| + |frames|
            && r.calls[..|act.calls|] == act.calls
            && ((forall k :: 0 <= k < |frames| ==> CheckPoint(Transform(trig, frames[k])))
                ==> |r.calls| == |act.calls| + |frames|)
    decreases |frames|
  {
    if frames != [] {
      var n := |frames| - 1;
      assert AllFramesSized(frames[..n]);
      ReplayFlushes(ik, trig, cal, act, frames[..n]);
    }
  }

  /**
   * `after` extends `before` by servo batches only, each of six triples within [0, 180]:
   * nothing was switched off and nothing out of range was sent.
   */
  predicate Batches(before: seq<ServoCall>, after: seq<ServoCall>)
  {
    |before| <= |after| && after[..|before|] == before
    && forall k :: |before| <= k < |after| ==>
         after[k].SetLegs? && |after[k].angles| == Legs
         && forall i :: 0 <= i < Legs ==> InServoRange(after[k].angles[i])
  }

  lemma BatchesTrans(a: seq<ServoCall>, b: seq<ServoCall>, c: seq<ServoCall>)
    requires Batches(a, b) && Batches(b, c)
    ensures Batches(a, c)
  {
    assert c[..|a|] == c[..|b|][..|a|];
  }

  /** Starting from safe calls, appending batches keeps every batch in range. */
  lemma BatchesKeepSafe(a: seq<ServoCall>, b: seq<ServoCall>)
    requires Batches(a, b) && SafeCalls(a)
    ensures SafeCalls(b)
  {
    forall k | 0 <= k < |a|
      ensures b[k] == a[k]
    {
      assert b[..|a|][k] == b[k];
    }
  }

  lemma ActuateBatches(ik: IK, pts: seq<Point>, cal: seq<Angles>, act: Actuation)
    requires |pts| == Legs && |cal| == Legs
    ensures Batches(act.calls, Actuate(ik, pts, cal, act).calls)
  {
  }

  /** A run of posture updates only ever sends batches. */
  lemma {:induction false} ReplayBatches(ik: IK, trig: Trig, cal: seq<Angles>, act: Actuation, frames: seq<seq<Point>>)
    requires |cal| == Legs && AllFramesSized(frames)
    ensures Batches(act.calls, Replay(ik, trig, cal, act, frames).calls)
    decreases |frames|
  {
    if frames != [] {
      var n := |frames| - 1;
      assert AllFramesSized(frames[..n]);
      ReplayBatches(ik, trig, cal, act, frames[..n]);
      var mid := Replay(ik, trig, cal, act, frames[..n]);
      ActuateBatches(ik, Transform(trig, frames[n]), cal, mid);
      BatchesTrans(act.calls, mid.calls, Replay(ik, trig, cal, act, frames).calls);
    }
  }
}
