/**
 * The walking schedule of `Control.run` (Code/Server/Control.py): parsing a MOVE order,
 * the number of frames a step cycle takes, the per-leg stride, and the sequence of body
 * point lists ("frames") the two gaits hand to `coordinateTransformation` one by one.
 *
 * Each frame is a full copy of the six body points after one step of the schedule; the
 * imperative loops that produce them are `Control.Control.Run` (control.dfy).
 */
module Gait {
  import opened Wrappers
  import opened Numeric
  import opened Kinematics
  import PointFile

  /** The default lift `Z` of `run`: a swinging foot rises 40 mm. */
  const StepHeight := 40

  /** A parsed MOVE order: gait, clamped stride, frames per cycle `F`, turning angle. */
  datatype Move = Move(gait: string, x: int, y: int, f: int, angle: int)

  /** `F` of `run`: the speed 2..10 mapped linearly to 126..22 frames (gait "1") or 171..45 (else), rounded. */
  function Cadence(gait: string, speed: int): int
  {
    if gait == "1" then RoundHalfEven(Map(speed as real, 2.0, 10.0, 126.0, 22.0))
    else RoundHalfEven(Map(speed as real, 2.0, 10.0, 171.0, 45.0))
  }

  lemma RoundWhole(n: int)
    ensures RoundHalfEven(n as real) == n
  {
  }

  /** Gait "1" needs no rounding: every speed step removes exactly 13 frames. */
  lemma TripodCadence(speed: int)
    ensures Cadence("1", speed) == 126 - 13 * (speed - 2)
  {
    var k := speed - 2;
    assert Map(speed as real, 2.0, 10.0, 126.0, 22.0) == (126 - 13 * k) as real;
    RoundWhole(126 - 13 * k);
  }

  /** The rounded value of gait "2": a quarter of 684 - 63 k, for k = speed - 2. */
  lemma WaveCadenceValue(gait: string, speed: int)
    requires gait != "1"
    ensures Abs((684 - 63 * (speed - 2)) as real / 4.0 - Cadence(gait, speed) as real) <= 0.5
  {
    var k := speed - 2;
    assert Map(speed as real, 2.0, 10.0, 171.0, 45.0) == (684 - 63 * k) as real / 4.0;
  }

  /**
   * `z = Z / F` never divides by zero: no whole speed gives `F == 0` in either table.
   */
  lemma CadenceNonZero(gait: string, speed: int)
    ensures Cadence(gait, speed) != 0
  {
    if gait == "1" {
      TripodCadence(speed);
    } else {
      WaveCadenceValue(gait, speed);
    }
  }

  /** Over the advertised speeds 2..10, faster means fewer frames, within the table's ends. */
  lemma CadenceRange(gait: string, speed: int, faster: int)
    requires 2 <= speed <= faster <= 10
    ensures gait == "1" ==> 22 <= Cadence(gait, faster) <= Cadence(gait, speed) <= 126
    ensures gait != "1" ==> 45 <= Cadence(gait, faster) <= Cadence(gait, speed) <= 171
  {
    if gait == "1" {
      TripodCadence(speed);
      TripodCadence(faster);
    } else {
      WaveCadenceValue(gait, speed);
      WaveCadenceValue(gait, faster);
      RoundMonotone(Map(faster as real, 2.0, 10.0, 171.0, 45.0), Map(speed as real, 2.0, 10.0, 171.0, 45.0));
    }
  }

  lemma RoundMonotone(a: real, b: real)
    requires a <= b
    ensures RoundHalfEven(a) <= RoundHalfEven(b)
  {
  }

  /**
   * The head of `run`: the stride is parsed and clamped to [-35, 35], a turn cancels the
   * sideways stride, and the speed selects `F`. Any field `int()` cannot read is `None`.
   */
  function ParseMove(data: seq<string>): (m: Option<Move>)
    requires |data| >= 6
    ensures m.Some? <==> PointFile.ParseInt(data[2]).Some? && PointFile.ParseInt(data[3]).Some?
                         && PointFile.ParseInt(data[4]).Some? && PointFile.ParseInt(data[5]).Some?
    ensures m.Some? ==> m.value.gait == data[1] && m.value.angle == PointFile.ParseInt(data[5]).value
    ensures m.Some? ==> -35 <= m.value.x <= 35 && -35 <= m.value.y <= 35 && m.value.f != 0
    ensures m.Some? ==> m.value.y == Restriction(PointFile.ParseInt(data[3]).value, -35, 35)
    ensures m.Some? ==> m.value.x == if m.value.angle != 0 then 0 else Restriction(PointFile.ParseInt(data[2]).value, -35, 35)
  {
    var x, y, s, a := PointFile.ParseInt(data[2]), PointFile.ParseInt(data[3]), PointFile.ParseInt(data[4]), PointFile.ParseInt(data[5]);
    if x.None? || y.None? || s.None? || a.None? then None
    else
      CadenceNonZero(data[1], s.value);
      var cx := Restriction(x.value, -35, 35);
      Some(Move(data[1], if a.value != 0 then 0 else cx, Restriction(y.value, -35, 35), Cadence(data[1], s.value), a.value))
  }

  // ---------------------------------------------------------------- stride

  /** The per-frame stride of one foot: its turn about the body centre plus the translation, over F. */
  function LegStride(trig: Trig, p: Point, m: Move): Point
    requires m.f != 0
  {
    var a := m.angle as real / 180.0 * trig.pi;
    var F := m.f as real;
    Point(((p.x * trig.cos(a) + p.y * trig.sin(a) - p.x) + m.x as real) / F,
          ((-p.x * trig.sin(a) + p.y * trig.cos(a) - p.y) + m.y as real) / F,
          0.0)
  }

  /** `xy` of `run`, one stride per leg. */
  function Stride(trig: Trig, body: seq<Point>, m: Move): (xy: seq<Point>)
    requires |body| == Legs && m.f != 0
    ensures |xy| == Legs
  {
    seq(Legs, i requires 0 <= i < Legs => LegStride(trig, body[i], m))
  }

  /** Without a turn every foot gets the same stride (x, y) / F: the body translates. */
  lemma StraightStride(trig: Trig, body: seq<Point>, m: Move, i: nat)
    requires |body| == Legs && m.f != 0 && m.angle == 0 && i < Legs
    requires trig.sin(0.0) == 0.0 && trig.cos(0.0) == 1.0
    ensures Stride(trig, body, m)[i] == Point(m.x as real / m.f as real, m.y as real / m.f as real, 0.0)
  {
    assert 0.0 / 180.0 * trig.pi == 0.0;
  }

  // ---------------------------------------------------------------- moving a foot

  /** Move a foot horizontally by `c` strides. */
  function Shift(p: Point, c: int, d: Point): Point
  {
    Point(p.x + c as real * d.x, p.y + c as real * d.y, p.z)
  }

  /** Move a foot vertically by `c` lift steps `zs`. */
  function Lift(p: Point, c: int, zs: real): Point
  {
    Point(p.x, p.y, p.z + c as real * zs)
  }

  lemma ShiftAdd(p: Point, a: int, b: int, d: Point)
    ensures Shift(Shift(p, a, d), b, d) == Shift(p, a + b, d)
  {
    var q := Shift(p, a, d);
    assert q.x + b as real * d.x == p.x + (a + b) as real * d.x;
    assert q.y + b as real * d.y == p.y + (a + b) as real * d.y;
  }

  lemma LiftAdd(p: Point, a: int, b: int, zs: real)
    ensures Lift(Lift(p, a, zs), b, zs) == Lift(p, a + b, zs)
  {
    assert (a + b) as real * zs == a as real * zs + b as real * zs;
  }

  /** The foot after `r` lift steps and `s` strides. */
  function Track(p: Point, r: int, s: int, d: Point, zs: real): Point
  {
    Shift(Lift(p, r, zs), s, d)
  }

  lemma TrackShift(p: Point, r: int, s: int, c: int, d: Point, zs: real)
    ensures Shift(Track(p, r, s, d, zs), c, d) == Track(p, r, s + c, d, zs)
  {
    ShiftAdd(Lift(p, r, zs), s, c, d);
  }

  lemma TrackLift(p: Point, r: int, s: int, c: int, d: Point, zs: real)
    ensures Lift(Track(p, r, s, d, zs), c, zs) == Track(p, r + c, s, d, zs)
  {
    LiftAdd(p, r, c, zs);
  }

  lemma TrackStill(p: Point, d: Point, zs: real)
    ensures Track(p, 0, 0, d, zs) == p
  {
  }

  // ---------------------------------------------------------------- gait "1": tripod

  /**
   * The window of step `j` in a cycle of `f` steps: `j < F/8`, `j < F/4`, `j < 3F/8`,
   * `j < 5F/8`, `j < 3F/4`, `j < 7F/8`, else. Each real comparison `j < nF/8` is the
   * integer comparison `8j < nF`.
   */
  function Phase(j: int, f: int): (ph: nat)
    ensures ph <= 6
  {
    if 8 * j < f then 0
    else if 4 * j < f then 1
    else if 8 * j < 3 * f then 2
    else if 8 * j < 5 * f then 3
    else if 4 * j < 3 * f then 4
    else if 8 * j < 7 * f then 5
    else 6
  }

  /** Strides per step of a leg of the first tripod (legs 0, 2, 4) in each window. */
  function FirstShift(ph: nat): int { match ph case 0 => -4 case 1 => -4 case 2 => 0 case 3 => 8 case 4 => 0 case 5 => -4 case _ => -4 }

  /** Lift steps per step of a leg of the first tripod in each window. */
  function FirstRise(ph: nat): int { match ph case 0 => 0 case 1 => 0 case 2 => 8 case 3 => 0 case 4 => -8 case 5 => 0 case _ => 0 }

  /** Strides per step of a leg of the second tripod (legs 1, 3, 5) in each window. */
  function SecondShift(ph: nat): int { match ph case 0 => 8 case 1 => 0 case 2 => -4 case 3 => -4 case 4 => -4 case 5 => 0 case _ => 8 }

  /** Lift steps per step of a leg of the second tripod after the first window. */
  function SecondRise(ph: nat): int { match ph case 0 => 0 case 1 => -8 case 2 => 0 case 3 => 0 case 4 => 0 case 5 => 8 case _ => 0 }

  /** One step of an even leg `2i` in window `ph`. */
  function FirstLeg(ph: nat, p: Point, d: Point, zs: real): Point
  {
    if ph == 2 then Point(p.x, p.y, p.z + zs * 8.0)
    else if ph == 3 then Point(p.x + 8.0 * d.x, p.y + 8.0 * d.y, p.z)
    else if ph == 4 then Point(p.x, p.y, p.z - zs * 8.0)
    else Point(p.x - 4.0 * d.x, p.y - 4.0 * d.y, p.z)
  }

  /** One step of an odd leg `2i+1` in window `ph`; in window 0 it is held at `lift`. */
  function SecondLeg(ph: nat, p: Point, d: Point, zs: real, lift: real): Point
  {
    if ph == 0 then Point(p.x + 8.0 * d.x, p.y + 8.0 * d.y, lift)
    else if ph == 1 then Point(p.x, p.y, p.z - zs * 8.0)
    else if ph == 5 then Point(p.x, p.y, p.z + zs * 8.0)
    else if ph == 6 then Point(p.x + 8.0 * d.x, p.y + 8.0 * d.y, p.z)
    else Point(p.x - 4.0 * d.x, p.y - 4.0 * d.y, p.z)
  }

  /** One step `j` of the tripod gait on all six legs. */
  function TripodStep(pts: seq<Point>, xy: seq<Point>, j: int, f: int, zs: real, lift: real): (q: seq<Point>)
    requires |pts| == Legs && |xy| == Legs
    ensures |q| == Legs
  {
    seq(Legs, k requires 0 <= k < Legs =>
      if k % 2 == 0 then FirstLeg(Phase(j, f), pts[k], xy[k], zs)
      else SecondLeg(Phase(j, f), pts[k], xy[k], zs, lift))
  }

  /** The body points after the first `n` steps of the tripod gait. */
  function TripodPose(p0: seq<Point>, xy: seq<Point>, f: int, zs: real, lift: real, n: nat): (q: seq<Point>)
    requires |p0| == Legs && |xy| == Legs
    ensures |q| == Legs
  {
    if n == 0 then p0 else TripodStep(TripodPose(p0, xy, f, zs, lift, n - 1), xy, n - 1, f, zs, lift)
  }

  /** The frames of the first `n` steps, in order. */
  function TripodFrames(p0: seq<Point>, xy: seq<Point>, f: int, zs: real, lift: real, n: nat): (fr: seq<seq<Point>>)
    requires |p0| == Legs && |xy| == Legs
    ensures |fr| == n && AllFramesSized(fr)
  {
    if n == 0 then [] else TripodFrames(p0, xy, f, zs, lift, n - 1) + [TripodPose(p0, xy, f, zs, lift, n)]
  }

  /** The sum of `coef(Phase(j, f))` over the first `n` steps. */
  function PhaseSum(coef: nat -> int, f: int, n: nat): int
  {
    if n == 0 then 0 else PhaseSum(coef, f, n - 1) + coef(Phase(n - 1, f))
  }

  /** Over a run of steps in one window the sum grows by the window's coefficient per step. */
  lemma {:induction false} WindowSum(coef: nat -> int, f: int, a: nat, b: nat, ph: nat)
    requires a <= b
    requires forall j :: a <= j < b ==> Phase(j, f) == ph
    ensures PhaseSum(coef, f, b) == PhaseSum(coef, f, a) + (b - a) * coef(ph)
    decreases b
  {
    if b > a {
      WindowSum(coef, f, a, b - 1, ph);
      var c := coef(ph);
      assert Phase(b - 1, f) == ph;
      assert PhaseSum(coef, f, b) == PhaseSum(coef, f, b - 1) + c;
      assert (b - a) * c == (b - 1 - a) * c + c;
    }
  }

  /** Two moves in a row are one move by the sums. */
  lemma TrackTrack(p: Point, r: int, s: int, r2: int, s2: int, d: Point, zs: real)
    ensures Track(Track(p, r, s, d, zs), r2, s2, d, zs) == Track(p, r + r2, s + s2, d, zs)
  {
    TrackLift(p, r, s, r2, d, zs);
    TrackShift(p, r + r2, s, s2, d, zs);
  }

  /** In every window a first-tripod step is a move by that window's coefficients. */
  lemma FirstLegMoves(ph: nat, p: Point, d: Point, zs: real)
    requires ph <= 6
    ensures FirstLeg(ph, p, d, zs) == Track(p, FirstRise(ph), FirstShift(ph), d, zs)
  {
  }

  /** After the first window a second-tripod step is a move by that window's coefficients. */
  lemma SecondLegMoves(ph: nat, p: Point, d: Point, zs: real, lift: real)
    requires 0 < ph <= 6
    ensures SecondLeg(ph, p, d, zs, lift) == Track(p, SecondRise(ph), SecondShift(ph), d, zs)
  {
  }

  /**
   * A leg of the first tripod after `n` steps: it has moved by the window sums of its
   * strides and lift steps, whatever the cycle length.
   */
  lemma {:induction false} FirstTrack(p0: seq<Point>, xy: seq<Point>, f: int, zs: real, lift: real, n: nat, k: nat)
    requires |p0| == Legs && |xy| == Legs && k < Legs && k % 2 == 0
    ensures TripodPose(p0, xy, f, zs, lift, n)[k]
            == Track(p0[k], PhaseSum(FirstRise, f, n), PhaseSum(FirstShift, f, n), xy[k], zs)
  {
    if n == 0 {
      TrackStill(p0[k], xy[k], zs);
    } else {
      FirstTrack(p0, xy, f, zs, lift, n - 1, k);
      var q := TripodPose(p0, xy, f, zs, lift, n - 1)[k];
      var ph := Phase(n - 1, f);
      assert TripodPose(p0, xy, f, zs, lift, n)[k] == FirstLeg(ph, q, xy[k], zs);
      FirstLegMoves(ph, q, xy[k], zs);
      TrackTrack(p0[k], PhaseSum(FirstRise, f, n - 1), PhaseSum(FirstShift, f, n - 1), FirstRise(ph), FirstShift(ph), xy[k], zs);
    }
  }

  /**
   * A leg of the second tripod after `n >= 1` steps: it has moved by the window sums of
   * its strides, and stands at the lift height plus the window sum of its lift steps.
   */
  lemma {:induction false} SecondTrack(p0: seq<Point>, xy: seq<Point>, f: int, zs: real, lift: real, n: nat, k: nat)
    requires |p0| == Legs && |xy| == Legs && k < Legs && k % 2 == 1 && 0 < n && 0 < f
    ensures TripodPose(p0, xy, f, zs, lift, n)[k]
            == Track(Point(p0[k].x, p0[k].y, lift), PhaseSum(SecondRise, f, n), PhaseSum(SecondShift, f, n), xy[k], zs)
    decreases n, 1
  {
    var ph := Phase(n - 1, f);
    if ph == 0 {
      SecondTrackHeld(p0, xy, f, zs, lift, n, k);
    } else {
      var q := TripodPose(p0, xy, f, zs, lift, n - 1)[k];
      var top := Point(p0[k].x, p0[k].y, lift);
      assert TripodPose(p0, xy, f, zs, lift, n)[k] == SecondLeg(ph, q, xy[k], zs, lift);
      SecondTrack(p0, xy, f, zs, lift, n - 1, k);
      SecondLegMoves(ph, q, xy[k], zs, lift);
      TrackTrack(top, PhaseSum(SecondRise, f, n - 1), PhaseSum(SecondShift, f, n - 1), SecondRise(ph), SecondShift(ph), xy[k], zs);
    }
  }

  /** SecondTrack for a step of the first window, where the leg is held at the lift height. */
  lemma {:induction false} SecondTrackHeld(p0: seq<Point>, xy: seq<Point>, f: int, zs: real, lift: real, n: nat, k: nat)
    requires |p0| == Legs && |xy| == Legs && k < Legs && k % 2 == 1 && 0 < n && 0 < f
    requires Phase(n - 1, f) == 0
    ensures TripodPose(p0, xy, f, zs, lift, n)[k]
            == Track(Point(p0[k].x, p0[k].y, lift), PhaseSum(SecondRise, f, n), PhaseSum(SecondShift, f, n), xy[k], zs)
    decreases n, 0
  {
    var q := TripodPose(p0, xy, f, zs, lift, n - 1)[k];
    var top := Point(p0[k].x, p0[k].y, lift);
    assert TripodPose(p0, xy, f, zs, lift, n)[k] == SecondLeg(0, q, xy[k], zs, lift);
    WindowSum(SecondRise, f, 0, n, 0);
    WindowSum(SecondShift, f, 0, n - 1, 0);
    var s := PhaseSum(SecondShift, f, n - 1);
    if n == 1 {
      assert q == p0[k];
    } else {
      SecondTrack(p0, xy, f, zs, lift, n - 1, k);
    }
    assert Point(q.x, q.y, lift) == Track(top, 0, s, xy[k], zs);
    assert SecondLeg(0, q, xy[k], zs, lift) == Track(Point(q.x, q.y, lift), 0, 8, xy[k], zs);
    TrackTrack(top, 0, s, 0, 8, xy[k], zs);
  }

  /** The sum over a whole cycle, given where its seven windows begin. */
  lemma CycleSum(coef: nat -> int, f: nat, b1: nat, b2: nat, b3: nat, b4: nat, b5: nat, b6: nat)
    requires b1 <= b2 <= b3 <= b4 <= b5 <= b6 <= f
    requires forall j :: 0 <= j < b1 ==> Phase(j, f) == 0
    requires forall j :: b1 <= j < b2 ==> Phase(j, f) == 1
    requires forall j :: b2 <= j < b3 ==> Phase(j, f) == 2
    requires forall j :: b3 <= j < b4 ==> Phase(j, f) == 3
    requires forall j :: b4 <= j < b5 ==> Phase(j, f) == 4
    requires forall j :: b5 <= j < b6 ==> Phase(j, f) == 5
    requires forall j :: b6 <= j < f ==> Phase(j, f) == 6
    ensures PhaseSum(coef, f, f)
            == b1 * coef(0) + (b2 - b1) * coef(1) + (b3 - b2) * coef(2) + (b4 - b3) * coef(3)
               + (b5 - b4) * coef(4) + (b6 - b5) * coef(5) + (f - b6) * coef(6)
  {
    WindowSum(coef, f, 0, b1, 0);
    WindowSum(coef, f, b1, b2, 1);
    WindowSum(coef, f, b2, b3, 2);
    WindowSum(coef, f, b3, b4, 3);
    WindowSum(coef, f, b4, b5, 4);
    WindowSum(coef, f, b5, b6, 5);
    WindowSum(coef, f, b6, f, 6);
  }

  /** For `F = 8m` the windows hold m, m, m, 2m, m, m and m steps. */
  lemma EvenCycleSums(coef: nat -> int, m: nat)
    ensures PhaseSum(coef, 8 * m, 8 * m)
            == m * (coef(0) + coef(1) + coef(2) + 2 * coef(3) + coef(4) + coef(5) + coef(6))
  {
    var f := 8 * m;
    forall j | 0 <= j < f
      ensures Phase(j, f) == EvenPhase(j, m)
    {
      EvenPhaseIs(j, m);
    }
    CycleSum(coef, f, m, 2 * m, 3 * m, 5 * m, 6 * m, 7 * m);
    var c0, c1, c2, c3, c4, c5, c6 := coef(0), coef(1), coef(2), coef(3), coef(4), coef(5), coef(6);
    assert m * c0 + (2 * m - m) * c1 + (3 * m - 2 * m) * c2 + (5 * m - 3 * m) * c3 + (6 * m - 5 * m) * c4
           + (7 * m - 6 * m) * c5 + (f - 7 * m) * c6
           == m * (c0 + c1 + c2 + 2 * c3 + c4 + c5 + c6);
  }

  /** The window of step `j` of a cycle of `8m` steps, counted in whole multiples of `m`. */
  function EvenPhase(j: int, m: int): nat
  {
    if j < m then 0 else if j < 2 * m then 1 else if j < 3 * m then 2 else if j < 5 * m then 3
    else if j < 6 * m then 4 else if j < 7 * m then 5 else 6
  }

  lemma EvenPhaseIs(j: int, m: int)
    ensures Phase(j, 8 * m) == EvenPhase(j, m)
  {
  }

  /** For `F = 8m` every leg's strides and lift steps sum to zero over the cycle. */
  lemma EvenCycleTotals(m: nat)
    ensures PhaseSum(FirstRise, 8 * m, 8 * m) == 0 && PhaseSum(FirstShift, 8 * m, 8 * m) == 0
    ensures PhaseSum(SecondRise, 8 * m, 8 * m) == 0 && PhaseSum(SecondShift, 8 * m, 8 * m) == 0
  {
    EvenCycleSums(FirstRise, m);
    assert FirstRise(0) + FirstRise(1) + FirstRise(2) + 2 * FirstRise(3) + FirstRise(4) + FirstRise(5) + FirstRise(6) == 0;
    EvenCycleSums(FirstShift, m);
    assert FirstShift(0) + FirstShift(1) + FirstShift(2) + 2 * FirstShift(3) + FirstShift(4) + FirstShift(5) + FirstShift(6) == 0;
    EvenCycleSums(SecondRise, m);
    assert SecondRise(0) + SecondRise(1) + SecondRise(2) + 2 * SecondRise(3) + SecondRise(4) + SecondRise(5) + SecondRise(6) == 0;
    EvenCycleSums(SecondShift, m);
    assert SecondShift(0) + SecondShift(1) + SecondShift(2) + 2 * SecondShift(3) + SecondShift(4) + SecondShift(5) + SecondShift(6) == 0;
  }

  /**
   * The tripod gait closes when `F` is a multiple of 8: after the `F` steps of `run`,
   * every leg of the first tripod is back on its starting point and every leg of the
   * second tripod is above its starting point at the lift height `Z + height`.
   */
  lemma TripodCycleCloses(p0: seq<Point>, xy: seq<Point>, zs: real, lift: real, m: nat)
    requires |p0| == Legs && |xy| == Legs && 0 < m
    ensures forall k :: 0 <= k < Legs && k % 2 == 0 ==> TripodPose(p0, xy, 8 * m, zs, lift, 8 * m)[k] == p0[k]
    ensures forall k :: 0 <= k < Legs && k % 2 == 1 ==>
              TripodPose(p0, xy, 8 * m, zs, lift, 8 * m)[k] == Point(p0[k].x, p0[k].y, lift)
  {
    var f := 8 * m;
    EvenCycleTotals(m);
    forall k | 0 <= k < Legs
      ensures TripodPose(p0, xy, f, zs, lift, f)[k]
              == if k % 2 == 0 then p0[k] else Point(p0[k].x, p0[k].y, lift)
    {
      if k % 2 == 0 {
        FirstTrack(p0, xy, f, zs, lift, f, k);
        TrackStill(p0[k], xy[k], zs);
      } else {
        SecondTrack(p0, xy, f, zs, lift, f, k);
        TrackStill(Point(p0[k].x, p0[k].y, lift), xy[k], zs);
      }
    }
  }

  /** For `F = 100` the windows hold 13, 12, 13, 25, 12, 13 and 12 steps. */
  lemma SpeedFourSums(coef: nat -> int)
    ensures PhaseSum(coef, 100, 100)
            == 13 * coef(0) + 12 * coef(1) + 13 * coef(2) + 25 * coef(3) + 12 * coef(4) + 13 * coef(5) + 12 * coef(6)
  {
    CycleSum(coef, 100, 13, 25, 38, 63, 75, 88);
  }

  /** For `F = 100` every leg rises 8 lift steps more than it sinks, and its strides cancel. */
  lemma SpeedFourTotals()
    ensures PhaseSum(FirstRise, 100, 100) == 8 && PhaseSum(FirstShift, 100, 100) == 0
    ensures PhaseSum(SecondRise, 100, 100) == 8 && PhaseSum(SecondShift, 100, 100) == 0
  {
    SpeedFourFirst();
    SpeedFourSecond();
  }

  lemma SpeedFourFirst()
    ensures PhaseSum(FirstRise, 100, 100) == 8 && PhaseSum(FirstShift, 100, 100) == 0
  {
    SpeedFourSums(FirstRise);
    assert 13 * FirstRise(2) + 12 * FirstRise(4) == 8;
    SpeedFourSums(FirstShift);
    assert 13 * FirstShift(0) + 12 * FirstShift(1) + 25 * FirstShift(3) + 13 * FirstShift(5) + 12 * FirstShift(6) == 0;
  }

  lemma SpeedFourSecond()
    ensures PhaseSum(SecondRise, 100, 100) == 8 && PhaseSum(SecondShift, 100, 100) == 0
  {
    SpeedFourSums(SecondRise);
    assert 12 * SecondRise(1) + 13 * SecondRise(5) == 8;
    SpeedFourSums(SecondShift);
    assert 13 * SecondShift(0) + 13 * SecondShift(2) + 25 * SecondShift(3) + 12 * SecondShift(4) + 12 * SecondShift(6) == 0;
  }

  /** A move without strides is a lift. */
  lemma TrackUpright(p: Point, r: int, d: Point, zs: real)
    ensures Track(p, r, 0, d, zs) == Lift(p, r, zs)
  {
  }

  /**
   * At speed 4 (`F = 100`) the windows are 13, 12, 13, 25, 12, 13 and 12 steps long: a
   * first-tripod leg is raised for 13 steps and lowered for 12, so all six legs end the
   * cycle 8 lift steps (8 * 40/100 = 3.2 mm) higher than the closed cycle would leave them.
   */
  lemma TripodDriftAtSpeedFour(p0: seq<Point>, xy: seq<Point>, zs: real, lift: real)
    requires |p0| == Legs && |xy| == Legs
    ensures forall k :: 0 <= k < Legs && k % 2 == 0 ==>
              TripodPose(p0, xy, 100, zs, lift, 100)[k] == Lift(p0[k], 8, zs)
    ensures forall k :: 0 <= k < Legs && k % 2 == 1 ==>
              TripodPose(p0, xy, 100, zs, lift, 100)[k] == Lift(Point(p0[k].x, p0[k].y, lift), 8, zs)
  {
    SpeedFourTotals();
    forall k | 0 <= k < Legs
      ensures TripodPose(p0, xy, 100, zs, lift, 100)[k]
              == if k % 2 == 0 then Lift(p0[k], 8, zs) else Lift(Point(p0[k].x, p0[k].y, lift), 8, zs)
    {
      if k % 2 == 0 {
        FirstTrack(p0, xy, 100, zs, lift, 100, k);
        TrackUpright(p0[k], 8, xy[k], zs);
      } else {
        SecondTrack(p0, xy, 100, zs, lift, 100, k);
        TrackUpright(Point(p0[k].x, p0[k].y, lift), 8, xy[k], zs);
      }
    }
  }

  // ---------------------------------------------------------------- gait "2": one leg at a time

  /** The order in which the wave gait swings the legs. */
  function Visit(i: nat): (k: nat)
    requires i < 6
    ensures k < Legs
  {
    [5, 2, 1, 0, 3, 4][i]
  }

  /** `int(F/18)`, `int(F/9)` and `int(F/6)`: steps spent lifting, lifting plus swinging, per visit. */
  datatype WaveTiming = WaveTiming(lift: int, swing: int, visit: nat)

  /** The timing of `run` for `F` frames; a negative `int(F/6)` makes an empty `range`. */
  function Timing(f: int): WaveTiming
  {
    var w := Trunc(f as real / 6.0);
    WaveTiming(Trunc(f as real / 18.0), Trunc(f as real / 9.0), if w < 0 then 0 else w)
  }

  /** For `F >= 0` the truncations are floor divisions, so lifting ends before swinging ends before the visit does. */
  lemma TimingOrdered(f: int)
    requires 0 <= f
    ensures Timing(f) == WaveTiming(f / 18, f / 9, f / 6)
    ensures 0 <= Timing(f).lift <= Timing(f).swing <= Timing(f).visit
  {
    TruncDivFloor(f, 18);
    TruncDivFloor(f, 9);
    TruncDivFloor(f, 6);
  }

  /** One step `j` of the visit for one leg: the visited leg lifts, swings and lowers; the others push back. */
  function WaveLeg(p: Point, d: Point, zs: real, active: bool, j: int, t: WaveTiming): Point
  {
    if active then
      if j < t.lift then Point(p.x, p.y, p.z + 18.0 * zs)
      else if j < t.swing then Point(p.x + 30.0 * d.x, p.y + 30.0 * d.y, p.z)
      else if j < t.visit then Point(p.x, p.y, p.z - 18.0 * zs)
      else p
    else Point(p.x - 2.0 * d.x, p.y - 2.0 * d.y, p.z)
  }

  /** Step `j` of visit `i` on all six legs. */
  function WaveStep(pts: seq<Point>, xy: seq<Point>, zs: real, t: WaveTiming, i: nat, j: int): (q: seq<Point>)
    requires |pts| == Legs && |xy| == Legs && i < 6
    ensures |q| == Legs
  {
    seq(Legs, k requires 0 <= k < Legs => WaveLeg(pts[k], xy[k], zs, Visit(i) == k, j, t))
  }

  /** Whether (i, j) is a point of the nested loops: visit i, step j of it. */
  predicate WaveIndex(t: WaveTiming, i: nat, j: nat)
  {
    i <= 6 && j <= t.visit && (i == 6 ==> j == 0)
  }

  /** The body points after the visits before `i` and the first `j` steps of visit `i`. */
  function WavePose(p0: seq<Point>, xy: seq<Point>, zs: real, t: WaveTiming, i: nat, j: nat): (q: seq<Point>)
    requires |p0| == Legs && |xy| == Legs && WaveIndex(t, i, j)
    ensures |q| == Legs
    decreases i, j
  {
    if j > 0 then WaveStep(WavePose(p0, xy, zs, t, i, j - 1), xy, zs, t, i, j - 1)
    else if i > 0 then WavePose(p0, xy, zs, t, i - 1, t.visit)
    else p0
  }

  /** The frames of those steps, in order. */
  function WaveFrames(p0: seq<Point>, xy: seq<Point>, zs: real, t: WaveTiming, i: nat, j: nat): (fr: seq<seq<Point>>)
    requires |p0| == Legs && |xy| == Legs && WaveIndex(t, i, j)
    ensures |fr| == i * t.visit + j && AllFramesSized(fr)
    decreases i, j
  {
    if j > 0 then WaveFrames(p0, xy, zs, t, i, j - 1) + [WavePose(p0, xy, zs, t, i, j)]
    else if i > 0 then WaveFrames(p0, xy, zs, t, i - 1, t.visit)
    else []
  }

  /** Lift steps of the visited leg after `j` steps of its visit: up while lifting, down after swinging. */
  function VisitRise(t: WaveTiming, j: int): int
  {
    (if j < t.lift then j else t.lift) - (if j < t.swing then 0 else j - t.swing)
  }

  /** Strides of the visited leg after `j` steps of its visit. */
  function VisitShift(t: WaveTiming, j: int): int
  {
    if j < t.lift then 0 else if j < t.swing then j - t.lift else t.swing - t.lift
  }

  /** Every wave step of a leg is a move by whole lift steps and strides. */
  lemma WaveLegMoves(p: Point, d: Point, zs: real, active: bool, j: nat, t: WaveTiming)
    requires 0 <= t.lift <= t.swing <= t.visit && j < t.visit
    ensures WaveLeg(p, d, zs, active, j, t)
            == if active then Track(p, 18 * (VisitRise(t, j + 1) - VisitRise(t, j)), 30 * (VisitShift(t, j + 1) - VisitShift(t, j)), d, zs)
               else Track(p, 0, -2, d, zs)
  {
    if active {
      if j < t.lift {
        assert VisitRise(t, j + 1) - VisitRise(t, j) == 1 && VisitShift(t, j + 1) == VisitShift(t, j);
      } else if j < t.swing {
        assert VisitRise(t, j + 1) == VisitRise(t, j) && VisitShift(t, j + 1) - VisitShift(t, j) == 1;
      } else {
        assert VisitRise(t, j + 1) - VisitRise(t, j) == -1 && VisitShift(t, j + 1) == VisitShift(t, j);
      }
    }
  }

  /** Within visit `i`: the visited leg follows VisitRise/VisitShift, every other leg is pushed back 2 strides a step. */
  lemma {:induction false} VisitTrack(p0: seq<Point>, xy: seq<Point>, zs: real, t: WaveTiming, i: nat, j: nat, k: nat)
    requires |p0| == Legs && |xy| == Legs && i < 6 && j <= t.visit && k < Legs
    requires 0 <= t.lift <= t.swing <= t.visit
    ensures WavePose(p0, xy, zs, t, i, j)[k]
            == if Visit(i) == k then Track(WavePose(p0, xy, zs, t, i, 0)[k], 18 * VisitRise(t, j), 30 * VisitShift(t, j), xy[k], zs)
               else Track(WavePose(p0, xy, zs, t, i, 0)[k], 0, -2 * j, xy[k], zs)
    decreases j
  {
    var start := WavePose(p0, xy, zs, t, i, 0)[k];
    if j == 0 {
      TrackStill(start, xy[k], zs);
    } else {
      VisitTrack(p0, xy, zs, t, i, j - 1, k);
      var q := WavePose(p0, xy, zs, t, i, j - 1)[k];
      assert WavePose(p0, xy, zs, t, i, j)[k] == WaveLeg(q, xy[k], zs, Visit(i) == k, j - 1, t);
      WaveLegMoves(q, xy[k], zs, Visit(i) == k, j - 1, t);
      if Visit(i) == k {
        TrackTrack(start, 18 * VisitRise(t, j - 1), 30 * VisitShift(t, j - 1),
                   18 * (VisitRise(t, j) - VisitRise(t, j - 1)), 30 * (VisitShift(t, j) - VisitShift(t, j - 1)), xy[k], zs);
      } else {
        TrackTrack(start, 0, -2 * (j - 1), 0, -2, xy[k], zs);
      }
    }
  }

  /** Lift steps of leg `k` over the first `i` visits. */
  function LegRise(t: WaveTiming, k: nat, i: nat): int
    requires i <= 6
  {
    if i == 0 then 0 else LegRise(t, k, i - 1) + (if Visit(i - 1) == k then 18 * VisitRise(t, t.visit) else 0)
  }

  /** Strides of leg `k` over the first `i` visits. */
  function LegShift(t: WaveTiming, k: nat, i: nat): int
    requires i <= 6
  {
    if i == 0 then 0 else LegShift(t, k, i - 1) + (if Visit(i - 1) == k then 30 * VisitShift(t, t.visit) else -2 * t.visit)
  }

  /** After `i` whole visits every leg has moved by its visit sums. */
  lemma {:induction false} WaveTrack(p0: seq<Point>, xy: seq<Point>, zs: real, t: WaveTiming, i: nat, k: nat)
    requires |p0| == Legs && |xy| == Legs && i <= 6 && k < Legs
    requires 0 <= t.lift <= t.swing <= t.visit
    ensures WavePose(p0, xy, zs, t, i, 0)[k] == Track(p0[k], LegRise(t, k, i), LegShift(t, k, i), xy[k], zs)
  {
    if i == 0 {
      TrackStill(p0[k], xy[k], zs);
    } else {
      var r0, s0 := LegRise(t, k, i - 1), LegShift(t, k, i - 1);
      var rv := if Visit(i - 1) == k then 18 * VisitRise(t, t.visit) else 0;
      var sv := if Visit(i - 1) == k then 30 * VisitShift(t, t.visit) else -2 * t.visit;
      WaveTrack(p0, xy, zs, t, i - 1, k);
      var q := WavePose(p0, xy, zs, t, i - 1, 0)[k];
      assert q == Track(p0[k], r0, s0, xy[k], zs);
      VisitTrack(p0, xy, zs, t, i - 1, t.visit, k);
      assert WavePose(p0, xy, zs, t, i - 1, t.visit)[k] == Track(q, rv, sv, xy[k], zs);
      assert WavePose(p0, xy, zs, t, i, 0) == WavePose(p0, xy, zs, t, i - 1, t.visit);
      TrackTrack(p0[k], r0, s0, rv, sv, xy[k], zs);
      assert LegRise(t, k, i) == r0 + rv && LegShift(t, k, i) == s0 + sv;
    }
  }

  /** Each leg is visited exactly once: one swing, five visits of pushing back. */
  lemma WaveTotals(t: WaveTiming, k: nat)
    requires k < Legs
    ensures LegRise(t, k, 6) == 18 * VisitRise(t, t.visit)
    ensures LegShift(t, k, 6) == 30 * VisitShift(t, t.visit) - 10 * t.visit
  {
    var r, s, b := 18 * VisitRise(t, t.visit), 30 * VisitShift(t, t.visit), -2 * t.visit;
    assert LegRise(t, k, 1) == if k == 5 then r else 0;
    assert LegRise(t, k, 2) == if k in {5, 2} then r else 0;
    assert LegRise(t, k, 3) == if k in {5, 2, 1} then r else 0;
    assert LegRise(t, k, 4) == if k in {5, 2, 1, 0} then r else 0;
    assert LegRise(t, k, 5) == if k in {5, 2, 1, 0, 3} then r else 0;
    assert LegShift(t, k, 1) == if k == 5 then s else b;
    assert LegShift(t, k, 2) == if k in {5, 2} then s + b else 2 * b;
    assert LegShift(t, k, 3) == if k in {5, 2, 1} then s + 2 * b else 3 * b;
    assert LegShift(t, k, 4) == if k in {5, 2, 1, 0} then s + 3 * b else 4 * b;
    assert LegShift(t, k, 5) == if k in {5, 2, 1, 0, 3} then s + 4 * b else 5 * b;
  }

  /**
   * After the `6 * int(F/6)` steps of a wave run every leg has been lifted `int(F/18)`
   * times and lowered `int(F/6) - int(F/9)` times, and has swung forward
   * `30 * (int(F/9) - int(F/18))` strides against `10 * int(F/6)` pushed back.
   */
  lemma WaveCycle(p0: seq<Point>, xy: seq<Point>, zs: real, t: WaveTiming, k: nat)
    requires |p0| == Legs && |xy| == Legs && k < Legs
    requires 0 <= t.lift <= t.swing <= t.visit
    ensures WavePose(p0, xy, zs, t, 6, 0)[k]
            == Track(p0[k], 18 * (t.lift - (t.visit - t.swing)), 30 * (t.swing - t.lift) - 10 * t.visit, xy[k], zs)
  {
    WaveTrack(p0, xy, zs, t, 6, k);
    WaveTotals(t, k);
  }

  /** The wave gait closes when `F` is a multiple of 18: every leg ends where it started. */
  lemma WaveCycleCloses(p0: seq<Point>, xy: seq<Point>, zs: real, n: nat)
    requires |p0| == Legs && |xy| == Legs
    ensures forall k :: 0 <= k < Legs ==> WavePose(p0, xy, zs, Timing(18 * n), 6, 0)[k] == p0[k]
  {
    TimingOrdered(18 * n);
    var t := Timing(18 * n);
    assert 18 * n / 18 == n && 18 * n / 9 == 2 * n && 18 * n / 6 == 3 * n;
    assert t == WaveTiming(n, 2 * n, 3 * n);
    assert 18 * (t.lift - (t.visit - t.swing)) == 0 && 30 * (t.swing - t.lift) - 10 * t.visit == 0;
    forall k | 0 <= k < Legs
      ensures WavePose(p0, xy, zs, t, 6, 0)[k] == p0[k]
    {
      WaveCycle(p0, xy, zs, t, k);
      TrackStill(p0[k], xy[k], zs);
    }
  }

  /**
   * At speed 4 of gait "2" (`F = 140`: lift 7 steps, swing until 15, visit 23) each leg
   * is lowered 8 times but lifted only 7: it ends the run one lowering step (18 * 40/140
   * mm) below where it started, and 10 strides off.
   */
  lemma WaveDriftAtSpeedFour(p0: seq<Point>, xy: seq<Point>, zs: real)
    requires |p0| == Legs && |xy| == Legs
    ensures Cadence("2", 4) == 140 && Timing(140) == WaveTiming(7, 15, 23)
    ensures forall k :: 0 <= k < Legs ==> WavePose(p0, xy, zs, Timing(140), 6, 0)[k] == Track(p0[k], -18, 10, xy[k], zs)
  {
    WaveCadenceValue("2", 4);
    TimingOrdered(140);
    var t := Timing(140);
    assert t == WaveTiming(7, 15, 23);
    assert 18 * (t.lift - (t.visit - t.swing)) == -18 && 30 * (t.swing - t.lift) - 10 * t.visit == 10;
    forall k | 0 <= k < Legs
      ensures WavePose(p0, xy, zs, t, 6, 0)[k] == Track(p0[k], -18, 10, xy[k], zs)
    {
      WaveCycle(p0, xy, zs, t, k);
    }
  }

  // ---------------------------------------------------------------- the whole run

  /** The lift step `z = Z / F`. */
  function LiftStep(m: Move): real
    requires m.f != 0
  {
    StepHeight as real / m.f as real
  }

  /**
   * The point lists `run` hands to `coordinateTransformation`, one per `setLegAngle`:
   * the untouched body points once when there is nothing to do, `F` tripod steps for
   * gait "1", `6 * int(F/6)` wave steps for gait "2", nothing for any other gait.
   */
  function RunFrames(trig: Trig, body: seq<Point>, height: int, m: Move): (fr: seq<seq<Point>>)
    requires |body| == Legs && m.f != 0
    ensures AllFramesSized(fr)
  {
    var xy := Stride(trig, body, m);
    if m.x == 0 && m.y == 0 && m.angle == 0 then [body]
    else if m.gait == "1" then TripodFrames(body, xy, m.f, LiftStep(m), (StepHeight + height) as real, if m.f > 0 then m.f else 0)
    else if m.gait == "2" then WaveFrames(body, xy, LiftStep(m), Timing(m.f), 6, 0)
    else []
  }

  /** Frames of a tripod run are its poses; the last is the pose after all the steps. */
  lemma {:induction false} TripodFramesArePoses(p0: seq<Point>, xy: seq<Point>, f: int, zs: real, lift: real, n: nat, j: nat)
    requires |p0| == Legs && |xy| == Legs && j < n
    ensures TripodFrames(p0, xy, f, zs, lift, n)[j] == TripodPose(p0, xy, f, zs, lift, j + 1)
  {
    if j < n - 1 {
      TripodFramesArePoses(p0, xy, f, zs, lift, n - 1, j);
    }
  }

  /**
   * How many frames a move sends, and where the last one leaves the legs: after the
   * last tripod step, or after the sixth wave visit.
   */
  lemma RunFramesEnd(trig: Trig, body: seq<Point>, height: int, m: Move)
    requires |body| == Legs && m.f > 0 && !(m.x == 0 && m.y == 0 && m.angle == 0)
    ensures m.gait == "1" ==> var fr := RunFrames(trig, body, height, m);
              |fr| == m.f
              && fr[m.f - 1] == TripodPose(body, Stride(trig, body, m), m.f, LiftStep(m), (StepHeight + height) as real, m.f)
    ensures m.gait == "2" ==> var fr := RunFrames(trig, body, height, m);
              |fr| == 6 * (m.f / 6)
              && (m.f >= 6 ==> fr[|fr| - 1] == WavePose(body, Stride(trig, body, m), LiftStep(m), Timing(m.f), 6, 0))
  {
    if m.gait == "1" {
      TripodFramesArePoses(body, Stride(trig, body, m), m.f, LiftStep(m), (StepHeight + height) as real, m.f, m.f - 1);
    } else if m.gait == "2" {
      var t := Timing(m.f);
      TimingOrdered(m.f);
      if m.f >= 6 {
        var xy := Stride(trig, body, m);
        assert WaveFrames(body, xy, LiftStep(m), t, 6, 0) == WaveFrames(body, xy, LiftStep(m), t, 5, t.visit);
        assert WavePose(body, xy, LiftStep(m), t, 6, 0) == WavePose(body, xy, LiftStep(m), t, 5, t.visit);
      }
    }
  }
}
