/**
 * Integer and real helpers shared by the controller and the servo driver:
 * the saturating clamp `restriction`, the linear interpolation `map`/`mapNum`,
 * and Python's `round` and `int` on a float, written out exactly.
 */
module Numeric {

  /** Saturate `v` into `[lo, hi]` (Control.restriction). */
  function Restriction(v: int, lo: int, hi: int): (r: int)
    ensures lo <= hi ==> lo <= r <= hi
    ensures lo <= v <= hi ==> r == v
    ensures v < lo ==> r == lo
    ensures lo <= v && hi < v ==> r == hi
  {
    if v < lo then lo else if v > hi then hi else v
  }

  /** Clamping never reverses the order of two values. */
  lemma RestrictionMonotone(v: int, w: int, lo: int, hi: int)
    requires lo <= hi && v <= w
    ensures Restriction(v, lo, hi) <= Restriction(w, lo, hi)
  {
  }

  /** Clamping commutes with the reflection `v |-> lo + hi - v` of the interval. */
  lemma RestrictionReflect(v: int, lo: int, hi: int)
    requires lo <= hi
    ensures Restriction(lo + hi - v, lo, hi) == lo + hi - Restriction(v, lo, hi)
  {
  }

  lemma DivideOut(k: real, d: real)
    requires d != 0.0
    ensures k * d / d == k
  {
  }

  /** Linear interpolation (Control.map and Servo.mapNum, true division). */
  function Map(value: real, fromLow: real, fromHigh: real, toLow: real, toHigh: real): (r: real)
    requires fromHigh != fromLow
    ensures value == fromLow ==> r == toLow
    ensures value == fromHigh ==> r == toHigh
  {
    var d := fromHigh - fromLow;
    var k := toHigh - toLow;
    assert value == fromHigh ==> k * (value - fromLow) / d == k by {
      if value == fromHigh {
        DivideOut(k, d);
      }
    }
    k * (value - fromLow) / d + toLow
  }

  /** Map is affine: equal steps of the input give equal steps of the output. */
  lemma MapAffine(v: real, w: real, fromLow: real, fromHigh: real, toLow: real, toHigh: real)
    requires fromHigh != fromLow
    ensures Map(w, fromLow, fromHigh, toLow, toHigh) - Map(v, fromLow, fromHigh, toLow, toHigh)
            == (toHigh - toLow) * (w - v) / (fromHigh - fromLow)
  {
    var d := fromHigh - fromLow;
    calc {
      Map(w, fromLow, fromHigh, toLow, toHigh) - Map(v, fromLow, fromHigh, toLow, toHigh);
      (toHigh - toLow) * (w - fromLow) / d - (toHigh - toLow) * (v - fromLow) / d;
      ((toHigh - toLow) * (w - fromLow) - (toHigh - toLow) * (v - fromLow)) / d;
      (toHigh - toLow) * (w - v) / d;
    }
  }

  function Abs(r: real): real { if r < 0.0 then -r else r }

  /** Python's `round(x)` on a float: nearest integer, ties to the even neighbour. */
  function RoundHalfEven(x: real): (n: int)
    ensures Abs(x - n as real) <= 0.5
    ensures Abs(x - n as real) == 0.5 ==> n % 2 == 0
  {
    var f := x.Floor;
    var d := x - f as real;
    if d < 0.5 then f
    else if d > 0.5 then f + 1
    else if f % 2 == 0 then f else f + 1
  }

  /** Python's `int(x)` on a float: truncation toward zero. */
  function Trunc(x: real): (n: int)
    ensures 0.0 <= x ==> n as real <= x < n as real + 1.0
    ensures x < 0.0 ==> n as real - 1.0 < x <= n as real
  {
    if x >= 0.0 then x.Floor else -((-x).Floor)
  }

  /** Truncation toward zero never reverses the order of two reals. */
  lemma TruncMonotone(x: real, y: real)
    requires x <= y
    ensures Trunc(x) <= Trunc(y)
  {
  }

  /** `int(a / d)` for integers: for a non-negative numerator it is floor division. */
  lemma TruncDivFloor(a: int, d: int)
    requires 0 <= a && 0 < d
    ensures Trunc(a as real / d as real) == a / d
  {
    var q, r := a / d, a % d;
    assert a == q * d + r && 0 <= r < d;
    QuotientSplit(q, r, d);
    FractionBound(r, d);
  }

  lemma QuotientSplit(q: int, r: int, d: int)
    requires 0 < d
    ensures (q * d + r) as real / d as real == q as real + r as real / d as real
  {
    var x, y := q as real, r as real;
    var e := d as real;
    assert (q * d + r) as real == x * e + y;
    assert (x * e + y) / e == x * e / e + y / e;
    assert x * e / e == x;
  }

  lemma FractionBound(r: int, d: int)
    requires 0 <= r < d
    ensures 0.0 <= r as real / d as real < 1.0
  {
    assert r as real < d as real;
  }
}
