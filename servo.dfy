/**
 * The servo driver of Code/Server/Servo.py: two PCA9685 chips at I2C addresses 0x40 and
 * 0x41 drive 32 servo channels. The chips are seen only through the `setPWM` writes they
 * receive, which a `Servo` object records in order.
 */
module Servo {
  import opened Numeric

  /** The chip at 0x41 (`pwm_41`) drives channels 0-15, the one at 0x40 (`pwm_40`) 16-31. */
  const Chip40: int := 0x40
  const Chip41: int := 0x41
  const Channels: int := 32

  /** One `setPWM(channel, on, off)` call on the chip at address `chip`. */
  datatype Write = Write(chip: int, channel: int, on: int, off: int)

  /** Counts per degree and counts at 0 degrees: 0-180 degrees is 500-2500 us of a 20 ms period. */
  const ServoScale: real := 4095.0 * 2000.0 / (20000.0 * 180.0)
  const ServoOffset: real := 4095.0 * 500.0 / 20000.0

  /** The duty count `setServoAngle` sends for `angle`. */
  function Duty(angle: int): int
  {
    Trunc(ServoScale * angle as real + ServoOffset)
  }

  /** The duty is the truncation of (91 angle + 4095) / 40. */
  lemma DutyExact(angle: int)
    ensures Duty(angle) == Trunc((91 * angle + 4095) as real / 40.0)
  {
    assert ServoScale == 91.0 / 40.0 && ServoOffset == 4095.0 / 40.0;
  }

  /** On the servo range 0..180 the duty lies in [102, 511], with both ends reached. */
  lemma DutyRange(angle: int)
    requires 0 <= angle <= 180
    ensures 102 <= Duty(angle) <= 511
    ensures Duty(0) == 102 && Duty(90) == 307 && Duty(180) == 511
  {
    DutyExact(angle);
    DutyExact(0);
    DutyExact(90);
    DutyExact(180);
    TruncDivFloor(91 * angle + 4095, 40);
    TruncDivFloor(4095, 40);
    TruncDivFloor(91 * 90 + 4095, 40);
    TruncDivFloor(91 * 180 + 4095, 40);
  }

  /** A larger angle never gives a smaller duty. */
  lemma DutyMonotone(a: int, b: int)
    requires a <= b
    ensures Duty(a) <= Duty(b)
  {
    TruncMonotone(ServoScale * a as real + ServoOffset, ServoScale * b as real + ServoOffset);
  }

  /** The servo channel a write reaches: 0x41 holds channels 0-15, 0x40 holds 16-31. */
  function Register(w: Write): int
  {
    if w.chip == Chip41 then w.channel else 16 + w.channel
  }

  /** The writes of `setServoAngle(channel, angle)`. */
  function AngleWrites(channel: int, angle: int): (w: seq<Write>)
    ensures Channels <= channel <==> w == []
    ensures 0 <= channel < Channels ==>
      |w| == 1 && Register(w[0]) == channel && 0 <= w[0].channel < 16 && w[0].on == 0 && w[0].off == Duty(angle)
      && w[0].chip == (if channel < 16 then Chip41 else Chip40)
    ensures channel < 0 ==> w == [Write(Chip41, channel, 0, Duty(angle))]
  {
    if channel < 16 then [Write(Chip41, channel, 0, Duty(angle))]
    else if channel < 32 then [Write(Chip40, channel - 16, 0, Duty(angle))]
    else []
  }

  /** The servo channels a sequence of writes reaches. */
  function Registers(w: seq<Write>): set<int>
  {
    set k | 0 <= k < |w| :: Register(w[k])
  }

  /** Round `i` of `relax`: three full-off writes. */
  function RelaxRound(i: int): seq<Write>
  {
    [Write(Chip41, i + 8, 4096, 4096), Write(Chip40, i, 4096, 4096), Write(Chip40, i + 8, 4096, 4096)]
  }

  /** The writes of the first `n` rounds of `relax`. */
  function RelaxWrites(n: nat): (w: seq<Write>)
    ensures |w| == 3 * n
  {
    if n == 0 then [] else RelaxWrites(n - 1) + RelaxRound(n - 1)
  }

  /** Write `k` of the relax sequence belongs to round `k / 3`. */
  lemma {:induction false} RelaxAt(n: nat, k: nat)
    requires k < 3 * n
    ensures RelaxWrites(n)[k] == RelaxRound(k / 3)[k % 3]
  {
    if k < 3 * (n - 1) {
      RelaxAt(n - 1, k);
    }
  }

  /**
   * `relax` makes 24 full-off writes, one to each of the servo channels 8-31 and none
   * to another: channels 0-7 of the chip at 0x41 are never written.
   */
  lemma RelaxRegisters()
    ensures |RelaxWrites(8)| == 24
    ensures forall k :: 0 <= k < 24 ==>
      RelaxWrites(8)[k].on == 4096 && RelaxWrites(8)[k].off == 4096 && 0 <= RelaxWrites(8)[k].channel < 16
      && 8 <= Register(RelaxWrites(8)[k]) < Channels
      && RelaxWrites(8)[k].chip == (if Register(RelaxWrites(8)[k]) < 16 then Chip41 else Chip40)
    ensures forall k, l :: 0 <= k < l < 24 ==> Register(RelaxWrites(8)[k]) != Register(RelaxWrites(8)[l])
    ensures forall c :: 8 <= c < Channels ==> c in Registers(RelaxWrites(8))
  {
    var w := RelaxWrites(8);
    forall k | 0 <= k < 24
      ensures w[k] == RelaxRound(k / 3)[k % 3]
    {
      RelaxAt(8, k);
    }
    forall c | 8 <= c < Channels
      ensures c in Registers(w)
    {
      var i, m := if c < 16 then c - 8 else if c < 24 then c - 16 else c - 24, if c < 16 then 0 else if c < 24 then 1 else 2;
      RelaxSlot(i, m);
      assert Register(w[3 * i + m]) == c;
    }
  }

  /** Write `m` of round `i` is write `3i + m` of the relax sequence. */
  lemma RelaxSlot(i: nat, m: nat)
    requires i < 8 && m < 3
    ensures RelaxWrites(8)[3 * i + m] == RelaxRound(i)[m]
  {
    RelaxAt(8, 3 * i + m);
    assert (3 * i + m) / 3 == i && (3 * i + m) % 3 == m;
  }

  /** The angle `servo_installation_position` gives channel `i`. */
  function InstallAngle(i: int): int
  {
    if i == 10 || i == 13 || i == 31 then 0
    else if i == 18 || i == 21 || i == 27 then 180
    else 90
  }

  /** The writes of the first `n` rounds of `servo_installation_position`. */
  function InstallWrites(n: nat): (w: seq<Write>)
    requires n <= Channels
    ensures |w| == n
  {
    if n == 0 then [] else InstallWrites(n - 1) + AngleWrites(n - 1, InstallAngle(n - 1))
  }

  /** Write `k` of the installation sequence sets channel `k`. */
  lemma {:induction false} InstallAt(n: nat, k: nat)
    requires k < n <= Channels
    ensures InstallWrites(n)[k] == AngleWrites(k, InstallAngle(k))[0]
  {
    if k < n - 1 {
      InstallAt(n - 1, k);
    }
  }

  /**
   * `servo_installation_position` writes every channel 0..31 once, in order: 10, 13 and 31
   * at the 0 degree duty 102, 18, 21 and 27 at the 180 degree duty 511, all others at 307.
   */
  lemma InstallationTable()
    ensures |InstallWrites(Channels)| == Channels
    ensures forall k :: 0 <= k < Channels ==>
      Register(InstallWrites(Channels)[k]) == k && InstallWrites(Channels)[k].on == 0
      && InstallWrites(Channels)[k].chip == (if k < 16 then Chip41 else Chip40)
      && InstallWrites(Channels)[k].off == (if k in {10, 13, 31} then 102 else if k in {18, 21, 27} then 511 else 307)
  {
    DutyRange(0);
    forall k | 0 <= k < Channels
      ensures InstallWrites(Channels)[k] == AngleWrites(k, InstallAngle(k))[0]
    {
      InstallAt(Channels, k);
    }
  }

  /** A driver object, seen through the `setPWM` writes it has sent. */
  class Servo {
    var log: seq<Write>

    /** `__init__`: the chips are set up; no channel has been written. */
    constructor ()
      ensures log == []
    {
      log := [];
    }

    /** `setServoAngle`: one write of the duty for `angle`, routed to the chip that holds `channel`. */
    method SetServoAngle(channel: int, angle: int)
      modifies this
      ensures log == old(log) + AngleWrites(channel, angle)
    {
      var date := Duty(angle);
      if channel < 16 {
        log := log + [Write(Chip41, channel, 0, date)];
      } else if channel >= 16 && channel < 32 {
        log := log + [Write(Chip40, channel - 16, 0, date)];
      }
    }

    /** `relax`: eight rounds of three full-off writes. */
    method Relax()
      modifies this
      ensures log == old(log) + RelaxWrites(8)
    {
      var i := 0;
      while i < 8
        invariant 0 <= i <= 8
        invariant log == old(log) + RelaxWrites(i)
      {
        log := log + [Write(Chip41, i + 8, 4096, 4096)];
        log := log + [Write(Chip40, i, 4096, 4096)];
        log := log + [Write(Chip40, i + 8, 4096, 4096)];
        assert log == old(log) + RelaxWrites(i) + RelaxRound(i);
        i := i + 1;
      }
    }
  }

  /** `servo_installation_position`: a fresh driver sets every channel to its mounting angle. */
  method InstallationPosition() returns (s: Servo)
    ensures fresh(s) && s.log == InstallWrites(Channels)
  {
    s := new Servo();
    var i := 0;
    while i < 32
      invariant 0 <= i <= 32
      invariant s.log == InstallWrites(i)
    {
      if i == 10 || i == 13 || i == 31 {
        s.SetServoAngle(i, 0);
      } else if i == 18 || i == 21 || i == 27 {
        s.SetServoAngle(i, 180);
      } else {
        s.SetServoAngle(i, 90);
      }
      i := i + 1;
    }
  }
}
