/**
 * Range reduction and quadrant logic of the sun-position solver, over exact
 * reals. `Pi` is the exact value of the double `Math.PI`. The values that the
 * source takes from `Math.Atan`, `Math.Atan2` and `Math.Asin` enter as
 * parameters. Each parameter is constrained only by the range of its function
 * and, for `Math.Atan`, by its sign.
 */
module Angles {

  /** The exact value of the IEEE double `Math.PI`. */
  const Pi: real := 3.141592653589793115997963468544185161590576171875
  /** One full turn, `2 * Math.PI`. */
  const TwoPi: real := 2.0 * Pi
  const HalfPi: real := Pi / 2.0
  /** `Deg2Rad` and `Rad2Deg`, without the rounding of the double divisions. */
  const Deg2Rad: real := Pi / 180.0
  const Rad2Deg: real := 180.0 / Pi

  /** `q` is a whole number. */
  predicate IsWhole(q: real) {
    q.Floor as real == q
  }

  /** `a` and `b` differ by a whole multiple of `m`. */
  predicate CongruentMod(a: real, b: real, m: real)
    requires m > 0.0
  {
    IsWhole((a - b) / m)
  }

  lemma WholeShift(q: real, k: int)
    requires IsWhole(q)
    ensures IsWhole(q + k as real) && IsWhole(k as real - q)
  {
    assert (q + k as real).Floor == q.Floor + k;
    assert (k as real - q).Floor == k - q.Floor;
  }

  /** `Math.Abs`. */
  function Abs(x: real): (r: real)
    ensures r >= 0.0 && (r == x || r == -x)
  {
    if x < 0.0 then -x else x
  }

  /** Rounding towards zero, as the C# `%` operator on doubles uses it. */
  function Truncate(q: real): (n: int)
    ensures q >= 0.0 ==> 0 <= n && n as real <= q < n as real + 1.0
    ensures q < 0.0 ==> n <= 0 && n as real - 1.0 < q <= n as real
  {
    if q >= 0.0 then q.Floor else -((-q).Floor)
  }

  /**
   * `x % (2 * Math.PI)`: `x` minus the whole number of turns obtained by
   * truncating `x / (2 * Math.PI)`. The result differs from `x` by whole
   * turns, has the sign of `x` and is less than one turn away from zero.
   */
  function RemTurn(x: real): (r: real)
    ensures x >= 0.0 ==> 0.0 <= r < TwoPi
    ensures x < 0.0 ==> -TwoPi < r <= 0.0
    ensures CongruentMod(r, x, TwoPi)
  {
    x - Truncate(x / TwoPi) as real * TwoPi
  }

  /**
   * `CorrectAngle`: a negative angle becomes one turn minus the remainder of
   * its magnitude, an angle above one turn becomes its remainder, any other
   * angle is returned as it is. The result differs from the input by whole
   * turns and lies in `[0, 2*Pi]`. Angles already there are kept, angles above
   * one turn land in `[0, 2*Pi)` and negative angles land in `(0, 2*Pi]`.
   */
  function CorrectAngle(angle: real): (r: real)
    ensures 0.0 <= r <= TwoPi
    ensures CongruentMod(r, angle, TwoPi)
    ensures 0.0 <= angle <= TwoPi ==> r == angle
    ensures angle > TwoPi ==> r < TwoPi
    ensures angle < 0.0 ==> 0.0 < r
  {
    if angle < 0.0 then
      var rem := RemTurn(Abs(angle));
      assert (TwoPi - rem - angle) / TwoPi == 1.0 - (rem - Abs(angle)) / TwoPi;
      WholeShift((rem - Abs(angle)) / TwoPi, 1);
      TwoPi - rem
    else if angle > TwoPi then RemTurn(angle)
    else angle
  }

  /**
   * Two angles of `[0, 2*Pi]` that differ by whole turns are equal, or are the
   * two ends of the interval. So the contract of `CorrectAngle` fixes its
   * result up to the choice between 0 and one full turn.
   */
  lemma CanonicalInTurn(a: real, b: real)
    requires 0.0 <= a <= TwoPi && 0.0 <= b <= TwoPi
    requires CongruentMod(a, b, TwoPi)
    ensures a == b || (a == 0.0 && b == TwoPi) || (a == TwoPi && b == 0.0)
  {
    var k := ((a - b) / TwoPi).Floor;
    assert a - b == k as real * TwoPi;
    assert -1 <= k <= 1;
  }

  /** An exact negative multiple of one turn is corrected to a full turn, not to 0. */
  lemma CorrectAngleNegativeTurns(k: int)
    requires k >= 1
    ensures CorrectAngle(-(k as real) * TwoPi) == TwoPi
  {
    assert RemTurn(k as real * TwoPi) == 0.0;
  }

  /** A full turn is inside the accepted interval and is returned unchanged. */
  lemma CorrectAngleFullTurn()
    ensures CorrectAngle(TwoPi) == TwoPi && CorrectAngle(0.0) == 0.0
  {
  }

  /** Correcting twice changes nothing. */
  lemma CorrectAngleIdempotent(angle: real)
    ensures CorrectAngle(CorrectAngle(angle)) == CorrectAngle(angle)
  {
  }

  /**
   * The hour angle: the corrected local sidereal time in radians minus the
   * right ascension, moved down by one turn when it exceeds `Pi`. With a right
   * ascension from `Math.Atan2`, in `[-Pi, Pi]`, the single correction is
   * enough: the hour angle lies in `[-Pi, Pi]` and differs from sidereal time
   * minus right ascension by whole turns.
   */
  function HourAngle(siderealTimeDegrees: real, rightAscension: real): (h: real)
    requires -Pi <= rightAscension <= Pi
    ensures -Pi <= h <= Pi
    ensures CongruentMod(h, siderealTimeDegrees * Deg2Rad - rightAscension, TwoPi)
  {
    var corrected := CorrectAngle(siderealTimeDegrees * Deg2Rad);
    var hourAngle := corrected - rightAscension;
    var q := (corrected - siderealTimeDegrees * Deg2Rad) / TwoPi;
    assert (hourAngle - (siderealTimeDegrees * Deg2Rad - rightAscension)) / TwoPi == q;
    assert (hourAngle - TwoPi - (siderealTimeDegrees * Deg2Rad - rightAscension)) / TwoPi == q + (-1) as real;
    WholeShift(q, -1);
    if hourAngle > Pi then hourAngle - TwoPi else hourAngle
  }

  /** What the code relies on about `a == Math.Atan(x)`: its range, and that it has the sign of `x`. */
  predicate IsAtanOf(x: real, a: real) {
    -HalfPi <= a <= HalfPi && (a < 0.0 <==> x < 0.0) && (a == 0.0 <==> x == 0.0)
  }

  lemma QuotientSign(num: real, den: real)
    requires den != 0.0
    ensures num / den < 0.0 <==> (num < 0.0 && den > 0.0) || (num > 0.0 && den < 0.0)
    ensures num / den == 0.0 <==> num == 0.0
  {
    if den > 0.0 {
      assert num / den * den == num;
    } else {
      assert num / den * den == num;
    }
  }

  /**
   * The azimuth in radians before the conversion to degrees: `Math.Atan` of
   * `num / den`, moved by half a turn when the denominator is negative (second
   * and third quadrant) and by a full turn when only the numerator is negative
   * (fourth quadrant). The result lies in `[0, 2*Pi)`, in the quadrant named by
   * the signs of `den` and `num`, and differs from the arctangent by whole
   * half-turns, so it has the same tangent.
   */
  function AzimuthQuadrant(num: real, den: real, atanValue: real): (az: real)
    requires den != 0.0 && IsAtanOf(num / den, atanValue)
    ensures 0.0 <= az < TwoPi
    ensures den < 0.0 ==> HalfPi <= az <= Pi + HalfPi
    ensures den > 0.0 && num >= 0.0 ==> 0.0 <= az <= HalfPi
    ensures den > 0.0 && num < 0.0 ==> Pi + HalfPi <= az < TwoPi
    ensures CongruentMod(az, atanValue, Pi)
  {
    QuotientSign(num, den);
    if den < 0.0 then atanValue + Pi
    else if num < 0.0 then atanValue + TwoPi
    else atanValue
  }

  /**
   * The stored azimuth: the quadrant-corrected angle in degrees plus 180. It
   * lies in `[180, 540)` degrees and not in `[0, 360)`.
   */
  function AzimuthDegrees(num: real, den: real, atanValue: real): (deg: real)
    requires den != 0.0 && IsAtanOf(num / den, atanValue)
    ensures 180.0 <= deg < 540.0
  {
    AzimuthQuadrant(num, den, atanValue) * Rad2Deg + 180.0
  }

  /** The stored altitude: `Math.Asin` of a value, in degrees, so within `[-90, 90]`. */
  function AltitudeDegrees(asinValue: real): (deg: real)
    requires -HalfPi <= asinValue <= HalfPi
    ensures -90.0 <= deg <= 90.0
    ensures (deg < 0.0) == (asinValue < 0.0)
  {
    asinValue * Rad2Deg
  }
}
