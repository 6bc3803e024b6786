/**
 The value-level parts of the listener's `updateOrientation`: the mapping of
 `getAccuracy`, the `(degrees + 360) % 360` normalisation of the heading and
 the spacing that the 32 ms deadline imposes on emissions.
 */
module CompassReading {

  // Android's SensorManager accuracy status constants.
  const SENSOR_STATUS_UNRELIABLE: int := 0
  const SENSOR_STATUS_ACCURACY_LOW: int := 1
  const SENSOR_STATUS_ACCURACY_MEDIUM: int := 2
  const SENSOR_STATUS_ACCURACY_HIGH: int := 3

  /** The smallest gap, in ms, between two emitted readings. */
  const COMPASS_UPDATE_RATE_MS: int := 32

  /** The four values an accuracy estimate, in degrees, can take. */
  predicate IsAccuracyDegrees(a: real)
  {
    a == 15.0 || a == 30.0 || a == 45.0 || a == -1.0
  }

  /**
   getAccuracy: the approximate angular error for a platform accuracy status;
   -1 stands for "unknown", which covers UNRELIABLE and every unlisted status.
   */
  function AccuracyDegrees(status: int): (r: real)
    ensures IsAccuracyDegrees(r)
    ensures r == 15.0 <==> status == SENSOR_STATUS_ACCURACY_HIGH
    ensures r == 30.0 <==> status == SENSOR_STATUS_ACCURACY_MEDIUM
    ensures r == 45.0 <==> status == SENSOR_STATUS_ACCURACY_LOW
    ensures r == -1.0 <==> !(SENSOR_STATUS_ACCURACY_LOW <= status <= SENSOR_STATUS_ACCURACY_HIGH)
  {
    if status == SENSOR_STATUS_ACCURACY_HIGH then 15.0
    else if status == SENSOR_STATUS_ACCURACY_MEDIUM then 30.0
    else if status == SENSOR_STATUS_ACCURACY_LOW then 45.0
    else -1.0
  }

  /** One full turn, the divisor of the heading normalisation. */
  const FULL_TURN: real := 360.0

  /** The integer quotient x / FULL_TURN rounded toward zero, as Java's `%` on doubles uses it. */
  function TurnsTowardZero(x: real): (q: int)
    ensures 0.0 <= x ==> 0 <= q && q as real * FULL_TURN <= x < (q + 1) as real * FULL_TURN
    ensures x <= 0.0 ==> q <= 0 && (q - 1) as real * FULL_TURN < x <= q as real * FULL_TURN
  {
    if x >= 0.0 then (x / FULL_TURN).Floor else -((-x) / FULL_TURN).Floor
  }

  /**
   `x % 360` on doubles: the remainder after taking out whole turns toward
   zero, so it has the sign of the dividend.
   */
  function RemFullTurn(x: real): (r: real)
    ensures 0.0 <= x ==> 0.0 <= r < FULL_TURN
    ensures x <= 0.0 ==> -FULL_TURN < r <= 0.0
    ensures -FULL_TURN < x < FULL_TURN ==> r == x
    ensures ((x - r) / FULL_TURN).Floor as real == (x - r) / FULL_TURN
  {
    var q := TurnsTowardZero(x);
    var r := x - q as real * FULL_TURN;
    assert (x - r) / FULL_TURN == q as real;
    r
  }

  /** `(degrees + 360) % 360`: the emitted heading. */
  function NormalizeHeading(degrees: real): real
  {
    RemFullTurn(degrees + FULL_TURN)
  }

  /**
   For an azimuth d in [-360, 360), which covers the platform's orientation
   (about [-180, 180], a little beyond after float rounding), the heading lies
   in [0, 360) and is the same direction: d itself when d is not negative,
   d + 360 otherwise.
   */
  lemma NormalizeHeadingInRange(d: real)
    requires -FULL_TURN <= d < FULL_TURN
    ensures 0.0 <= NormalizeHeading(d) < 360.0
    ensures NormalizeHeading(d) == if d < 0.0 then d + 360.0 else d
  {
    var q := TurnsTowardZero(d + FULL_TURN);
    assert 0 <= q <= 1;
  }

  /** Consecutive instants are at least COMPASS_UPDATE_RATE_MS apart. */
  ghost predicate Spaced(times: seq<int>)
  {
    forall i :: 0 < i < |times| ==> times[i - 1] + COMPASS_UPDATE_RATE_MS <= times[i]
  }

  lemma {:induction false} SpacedSpan(times: seq<int>)
    requires Spaced(times) && times != []
    ensures times[0] + COMPASS_UPDATE_RATE_MS * (|times| - 1) <= times[|times| - 1]
  {
    if |times| > 1 {
      SpacedSpan(times[..|times| - 1]);
    }
  }

  /**
   Emissions spaced by the throttle: at most (hi - lo) / 32 + 1 of them fit in
   the window [lo, hi], however fast the samples arrive.
   */
  lemma EmissionsInWindow(times: seq<int>, lo: int, hi: int)
    requires Spaced(times) && lo <= hi
    requires forall i :: 0 <= i < |times| ==> lo <= times[i] <= hi
    ensures |times| <= (hi - lo) / COMPASS_UPDATE_RATE_MS + 1
  {
    if times != [] {
      SpacedSpan(times);
      var n := |times| - 1;
      assert COMPASS_UPDATE_RATE_MS * n <= hi - lo;
    }
  }
}
