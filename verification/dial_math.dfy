/**
 * Angle/time arithmetic of the timer dial: the conversions between a dial
 * angle (degrees clockwise from 12 o'clock) and a duration in seconds, the
 * five-minute snapping used while dragging, and the two rounding operations
 * of the C++ code (Qt's qRound and the implicit qreal-to-int conversion).
 *
 * Angles are exact rationals here; the C++ code uses double precision.
 */
module DialMath {

  /** Diameter of the dial in scene units (DIAL_SIZE). */
  const DialSize: int := 180
  /** The hit radius of a press: DIAL_SIZE / 2 in integer arithmetic. */
  const HitRadius: int := DialSize / 2
  /**
   * Period of the countdown tick, in milliseconds (UPDATE_INTERVAL_MS). The
   * model has no clock: each tick is one call of TimerDial.UpdateTimer.
   */
  const UpdateIntervalMs: int := 1000
  /** A full turn of the dial, in degrees. */
  const FullTurn: real := 360.0
  /** Dragging snaps to multiples of five minutes. */
  const SnapSeconds: int := 300

  /** Qt's qRound on a non-negative value: the nearest integer, halves rounded up. */
  function QRound(x: real): (n: int)
    requires x >= 0.0
    ensures n >= 0
    ensures n as real - 0.5 <= x < n as real + 0.5
  {
    (x + 0.5).Floor
  }

  /** The implicit C++ conversion from qreal to int: truncation toward zero. */
  function Trunc(x: real): (n: int)
    ensures x >= 0.0 ==> 0 <= n && n as real <= x < n as real + 1.0
    ensures x < 0.0 ==> n <= 0 && n as real - 1.0 < x <= n as real
  {
    if x >= 0.0 then x.Floor else -((-x).Floor)
  }

  /** The multiple of five minutes nearest to a raw number of seconds. */
  function SnapToFiveMinutes(rawSeconds: real): (t: int)
    requires rawSeconds >= 0.0
    ensures t >= 0 && t % SnapSeconds == 0
    ensures t as real - 150.0 <= rawSeconds < t as real + 150.0
  {
    QRound(rawSeconds / 300.0) * SnapSeconds
  }

  /** The share of the full-dial duration that an angle covers, unrounded. */
  function RawSeconds(angle: real, maxTime: int): (r: real)
    requires angle >= 0.0 && maxTime >= 0
    ensures r >= 0.0
  {
    angle / FullTurn * maxTime as real
  }

  /**
   * angleToTime: the duration an angle covers, snapped to the nearest five
   * minutes while the handle is being dragged and exact otherwise.
   */
  function AngleToTime(angle: real, maxTime: int, snapping: bool): (r: real)
    requires angle >= 0.0 && maxTime >= 0
    ensures r >= 0.0
    ensures !snapping ==> r == RawSeconds(angle, maxTime)
    ensures snapping ==> r == r.Floor as real && r.Floor % SnapSeconds == 0
    ensures snapping ==> r - 150.0 <= RawSeconds(angle, maxTime) < r + 150.0
  {
    var rawSeconds := RawSeconds(angle, maxTime);
    if snapping then SnapToFiveMinutes(rawSeconds) as real else rawSeconds
  }

  /** timeToAngle: the angle that a number of seconds covers on the dial. */
  function TimeToAngle(seconds: int, maxTime: int): (a: real)
    requires maxTime > 0
    ensures 0 <= seconds ==> 0.0 <= a
    ensures seconds <= maxTime ==> a <= FullTurn
  {
    seconds as real / maxTime as real * FullTurn
  }

  /**
   * The pointer's bearing as qAtan2 yields it, in [-180, 180], brought into
   * [0, 360) by adding a full turn to negative values.
   */
  function NormalizeBearing(bearing: real): (angle: real)
    requires -180.0 <= bearing <= 180.0
    ensures 0.0 <= angle < FullTurn
    ensures angle == bearing || angle == bearing + FullTurn
  {
    if bearing < 0.0 then bearing + FullTurn else bearing
  }

  /** A press lands on the dial when its distance from the centre is at most the hit radius. */
  predicate OnDial(x: real, y: real)
  {
    x * x + y * y <= (HitRadius * HitRadius) as real
  }

  /** Without snapping, converting seconds to an angle and back is exact. */
  lemma AngleTimeRoundTrip(seconds: int, maxTime: int)
    requires 0 <= seconds && maxTime > 0
    ensures AngleToTime(TimeToAngle(seconds, maxTime), maxTime, false) == seconds as real
  {
    var m := maxTime as real;
    var a := seconds as real / m * FullTurn;
    assert a / FullTurn == seconds as real / m;
    assert seconds as real / m * m == seconds as real;
  }

  /** An angle that encodes a five-minute multiple snaps back to that multiple. */
  lemma SnapRoundTrip(k: nat, maxTime: int)
    requires maxTime > 0
    ensures AngleToTime(TimeToAngle(k * SnapSeconds, maxTime), maxTime, true) == (k * SnapSeconds) as real
  {
    var a := TimeToAngle(k * SnapSeconds, maxTime);
    AngleTimeRoundTrip(k * SnapSeconds, maxTime);
    assert RawSeconds(a, maxTime) == (k * SnapSeconds) as real;
    assert (k * SnapSeconds) as real / 300.0 == k as real;
    assert QRound(k as real) == k;
  }

  /** Below a full turn, the raw time stays below the dial's duration. */
  lemma RawSecondsBelowMax(angle: real, maxTime: int)
    requires 0.0 <= angle < FullTurn && maxTime > 0
    ensures RawSeconds(angle, maxTime) < maxTime as real
  {
    var f := angle / FullTurn;
    assert f < 1.0;
    ProperFraction(f, maxTime as real);
    assert RawSeconds(angle, maxTime) == f * maxTime as real;
  }

  /** Up to a full turn, the raw time stays within the dial's duration. */
  lemma RawSecondsAtMost(angle: real, maxTime: int)
    requires 0.0 <= angle <= FullTurn && maxTime > 0
    ensures RawSeconds(angle, maxTime) <= maxTime as real
  {
    var f := angle / FullTurn;
    assert f <= 1.0;
    assert (1.0 - f) * maxTime as real >= 0.0;
    assert RawSeconds(angle, maxTime) == f * maxTime as real;
  }

  /**
   * A snapped drag stays inside the dial's duration whenever the duration is
   * at most half a snap step above a multiple of five minutes.
   */
  lemma SnapWithinDial(angle: real, maxTime: int)
    requires 0.0 <= angle < FullTurn && maxTime > 0
    requires maxTime % SnapSeconds <= 150
    ensures AngleToTime(angle, maxTime, true) <= maxTime as real
  {
    RawSecondsBelowMax(angle, maxTime);
    SnapBelow(RawSeconds(angle, maxTime), maxTime);
  }

  /** Snapping a time below the duration cannot pass the duration (same condition). */
  lemma SnapBelow(rawSeconds: real, maxTime: int)
    requires 0.0 <= rawSeconds < maxTime as real
    requires maxTime % SnapSeconds <= 150
    ensures SnapToFiveMinutes(rawSeconds) <= maxTime
  {
    var q := maxTime / SnapSeconds;
    var bound := q * SnapSeconds + 150;
    assert maxTime <= bound;
    assert rawSeconds / 300.0 < q as real + 0.5 by {
      assert rawSeconds < bound as real;
    }
    assert QRound(rawSeconds / 300.0) <= q;
  }

  /** A proper fraction of a positive quantity is non-negative and below it. */
  lemma ProperFraction(f: real, m: real)
    requires 0.0 <= f < 1.0 && m > 0.0
    ensures 0.0 <= f * m < m
  {
    assert (1.0 - f) * m > 0.0;
  }

  /**
   * With a duration of 3500 s (more than half a step above 3300), a press at
   * 359 degrees snaps to 3600 s, past the end of the dial.
   */
  lemma SnapOvershoot()
    ensures AngleToTime(359.0, 3500, true) == 3600.0
    ensures AngleToTime(359.0, 3500, true) > 3500 as real
  {
    var raw := RawSeconds(359.0, 3500);
    assert 11.5 <= raw / 300.0 < 12.5;
    assert QRound(raw / 300.0) == 12;
  }
}
