# flutter_compass: the Android heading pipeline in Dafny

This project models the Android side of the `flutter_compass` plugin. It covers
the per-sample pipeline inside `FlutterCompassPlugin` and the sensor listener
that the plugin creates for each subscription:

- the sensor lookup at construction: both sensors, or neither;
- `onListen`: register both sensors, or send one "404" error to the sink;
- `onCancel`: unregister;
- `onSensorChanged`: exponential smoothing (ALPHA = 0.97) of the accelerometer
  ("gravity") or magnetometer vector, depending on the sensor type, followed by
  an orientation update;
- `onAccuracyChanged`: record the latest accuracy status;
- `updateOrientation`: at most one emission per 32 ms. Each emission sends
  `[heading, 0, accuracy]` to the sink and remembers the heading;
- `getAccuracy`: maps the status to 15/30/45/-1 degrees.

Files:

- `compass_filter.dfy`, module `CompassFilter`: the blend step and the smoothing
  of a sample stream (`Smooth`, `Ema`). It proves that the axes are smoothed
  independently. It also proves the closed form of the moving average (a
  fixed-weight sum of the samples), its geometric approach to a steady input,
  and that the estimate stays within any range that contains 0 and every
  sample. Because the filter starts from zero, it lags behind its inputs.
- `compass_reading.dfy`, module `CompassReading`: the accuracy mapping, Java's
  `%` on doubles with divisor 360, the heading normalisation and the throttle
  spacing. It also bounds how many emissions fit in a time window.
- `flutter_compass.dfy`, module `FlutterCompass`: class `CompassPlugin`. Its
  state is the two `array<real>` buffers, the status, the throttle deadline,
  `lastHeading` and a registration flag. Ghost fields hold the sink's events,
  the emission instants and the raw samples. `Valid()` ties these together:
  - each buffer is `Smooth` of the samples of its kind;
  - emissions are at least 32 ms apart;
  - the deadline is 32 ms after the last emission;
  - the sink holds either one 404 error and nothing else, or readings whose
    heading is in [0, 360) and whose accuracy is one of 15, 30, 45, -1.

Modelling choices:

- Floating point is modelled with reals, so ALPHA is exactly 0.97.
- The platform clock `SystemClock.elapsedRealtime()` is a parameter, `now`.
- The platform's `SensorManager.getRotationMatrix`, `getOrientation` and
  `Math.toDegrees` together become the function `azimuthDegrees`, given to the
  constructor. The model assumes only that its result lies in [-360, 360).
  That range covers the nominal [-180, 180] plus float rounding.
- Each `onListen` gets a fresh sink, because the Java code captures a new
  `EventSink` in a new listener.

Facts about the code that the model keeps:

- `onCancel` only unregisters. The buffers, the status and the throttle
  deadline persist into the next subscription.
- The error is reported when either sensor is missing.
- Status UNRELIABLE (0, also the initial value) and every status outside 1..3
  give accuracy -1.
- The payload is a three-element `double[]` whose middle slot is always 0.

## Model

| member | source | states |
|---|---|---|
| `CompassFilter.Blend` | android/src/main/java/com/hemanthraj/fluttercompass/FlutterCompassPlugin.java:110 | the new estimate lies between the old estimate and the raw value, and its distance to the raw value is ALPHA times the old distance |
| `CompassFilter.BlendVector` | android/src/main/java/com/hemanthraj/fluttercompass/FlutterCompassPlugin.java:110-112 | a 3-vector results whose component k is the blend of component k of the estimate and of the sample, for each k |
| `CompassFilter.Smooth` | android/src/main/java/com/hemanthraj/fluttercompass/FlutterCompassPlugin.java:54-55 | blending any stream of samples into the zero buffer always yields a 3-component vector |
| `CompassFilter.SmoothAppend` | android/src/main/java/com/hemanthraj/fluttercompass/FlutterCompassPlugin.java:110-117 | one more sample turns the smoothed vector of the earlier ones into its blend with that sample |
| `CompassFilter.SmoothIsComponentwise` | android/src/main/java/com/hemanthraj/fluttercompass/FlutterCompassPlugin.java:110-117 | component k of the smoothed vector depends only on component k of the samples (no cross-talk) |
| `CompassFilter.WeightedSnoc` | android/src/main/java/com/hemanthraj/fluttercompass/FlutterCompassPlugin.java:110 | the fixed-weight sum obeys the same one-step recurrence as the filter |
| `CompassFilter.EmaClosedForm` | android/src/main/java/com/hemanthraj/fluttercompass/FlutterCompassPlugin.java:33 | after n samples, sample j carries weight (1 - ALPHA) * ALPHA^(n-1-j) |
| `CompassFilter.EmaSteadyInput` | android/src/main/java/com/hemanthraj/fluttercompass/FlutterCompassPlugin.java:110-112 | a constant input c leaves the estimate at c - c * ALPHA^n after n samples |
| `CompassFilter.EmaBounded` | android/src/main/java/com/hemanthraj/fluttercompass/FlutterCompassPlugin.java:110-112 | from the zero start, the estimate stays within any range that contains 0 and every sample |
| `CompassReading.AccuracyDegrees` | android/src/main/java/com/hemanthraj/fluttercompass/FlutterCompassPlugin.java:158-168 | the result is one of 15, 30, 45, -1; 15 iff HIGH, 30 iff MEDIUM, 45 iff LOW, -1 iff the status is outside LOW..HIGH |
| `CompassReading.TurnsTowardZero` | android/src/main/java/com/hemanthraj/fluttercompass/FlutterCompassPlugin.java:144 | the number of whole turns is rounded toward zero: it brackets x from below when x is positive and from above when x is negative |
| `CompassReading.RemFullTurn` | android/src/main/java/com/hemanthraj/fluttercompass/FlutterCompassPlugin.java:144 | `x % 360` has the sign of x and magnitude below 360, x minus it is a whole number of turns, and it is x itself when abs(x) < 360 |
| `CompassReading.NormalizeHeadingInRange` | android/src/main/java/com/hemanthraj/fluttercompass/FlutterCompassPlugin.java:144 | for an azimuth d in [-360, 360), `(d + 360) % 360` lies in [0, 360) and equals d, or d + 360 when d is negative |
| `CompassReading.SpacedSpan` | android/src/main/java/com/hemanthraj/fluttercompass/FlutterCompassPlugin.java:133-135 | n emissions 32 ms apart span at least 32 * (n - 1) ms |
| `CompassReading.EmissionsInWindow` | android/src/main/java/com/hemanthraj/fluttercompass/FlutterCompassPlugin.java:133-150 | at most (hi - lo) / 32 + 1 throttled emissions fit in the window [lo, hi] |
| `FlutterCompass.CompassPlugin.constructor` | android/src/main/java/com/hemanthraj/fluttercompass/FlutterCompassPlugin.java:61-70 | the two sensors are kept only if both exist; buffers are zero, status 0, deadline 0, nothing registered or emitted |
| `FlutterCompass.CompassPlugin.OnListen` | android/src/main/java/com/hemanthraj/fluttercompass/FlutterCompassPlugin.java:84-92 | called while no listener is registered; with both sensors: registered and no error; otherwise: not registered and the sink holds exactly one "404" error; no other state changes |
| `FlutterCompass.CompassPlugin.OnCancel` | android/src/main/java/com/hemanthraj/fluttercompass/FlutterCompassPlugin.java:94-99 | afterwards the listener is not registered; only the registration changes |
| `FlutterCompass.CompassPlugin.OnSensorChanged` | android/src/main/java/com/hemanthraj/fluttercompass/FlutterCompassPlugin.java:104-120 | an accelerometer sample is handled as OnGravitySample, a magnetometer sample as OnMagneticSample; any other sensor type changes nothing at all |
| `FlutterCompass.CompassPlugin.OnGravitySample` | android/src/main/java/com/hemanthraj/fluttercompass/FlutterCompassPlugin.java:109-113 | the gravity buffer becomes the blend of its old value and the sample, the magnetic buffer is unchanged, then the orientation update happens |
| `FlutterCompass.CompassPlugin.OnMagneticSample` | android/src/main/java/com/hemanthraj/fluttercompass/FlutterCompassPlugin.java:114-118 | the magnetic buffer becomes the blend of its old value and the sample, the gravity buffer is unchanged, then the orientation update happens |
| `FlutterCompass.CompassPlugin.BlendSample` | android/src/main/java/com/hemanthraj/fluttercompass/FlutterCompassPlugin.java:110-112 | the buffer, updated in place, equals the component-wise blend of its old contents with the sample |
| `FlutterCompass.CompassPlugin.OnAccuracyChanged` | android/src/main/java/com/hemanthraj/fluttercompass/FlutterCompassPlugin.java:122-127 | the status becomes the reported accuracy, whichever sensor reported it; nothing else may change, so a repeated call has no further effect |
| `FlutterCompass.CompassPlugin.Heading` | android/src/main/java/com/hemanthraj/fluttercompass/FlutterCompassPlugin.java:136-144 | the heading of the current buffers lies in [0, 360) |
| `FlutterCompass.CompassPlugin.UpdateOrientation` | android/src/main/java/com/hemanthraj/fluttercompass/FlutterCompassPlugin.java:130-151 | emits iff now >= deadline; an emission appends `[heading, 0, accuracy]`, sets lastHeading to that heading and sets the deadline to now + 32; otherwise nothing changes |
| `FlutterCompass.CompassPlugin.NotifyCompassChangeListeners` | android/src/main/java/com/hemanthraj/fluttercompass/FlutterCompassPlugin.java:153-156 | the payload is appended to the sink and its slot 0 becomes lastHeading |

## Left out

- Floating point: floats and doubles are reals. ALPHA is exactly 0.97 rather
  than the float `0.97f`. The `(float)` cast of `lastHeading` and IEEE rounding
  in the blend and in `%` are not modelled.
- `SensorManager.getRotationMatrix`, `getOrientation` and `Math.toDegrees` are
  platform code. They are the constructor parameter `azimuthDegrees`, assumed
  only to return a value in [-360, 360). When `getRotationMatrix` fails (for
  example in free fall), the Java code reuses the previous `rotationMatrix`.
  The model instead takes the azimuth as a function of the current buffers only.
- `SystemClock.elapsedRealtime()` is the parameter `now`. The 64-bit overflow
  of `currentTime + 32` is not modelled, because integers are unbounded.
- `registerListener` and `unregisterListener` become the `registered` flag. The
  sampling-rate hint `SENSOR_DELAY_MICROS` is dropped.
- `OnSensorChanged` and `UpdateOrientation` require `registered`, because the
  platform delivers samples only to a registered listener.
- OnSensorChanged: requires at least three values for an accelerometer or
  magnetometer sample. Android always delivers three for these two sensor types,
  so the `ArrayIndexOutOfBoundsException` that a shorter `event.values` would
  raise is not modelled.
- OnListen: requires that no listener is registered. A second `onListen`
  without an `onCancel` leaves the earlier listener registered in the Java
  code. Every later sample would then be blended twice and could still reach
  the old sink. The model does not capture that.
- The `Log.d` notice for an unreliable status is not modelled. It has no
  effect on state.
- Flutter plumbing is not modelled: `onAttachedToEngine`,
  `onDetachedFromEngine`, the `EventChannel` and the public no-argument
  constructor. The `EventSink` is the ghost `events` log, and the null details
  argument of `events.error` is dropped.
- The fields `display`, `truncatedRotationVectorValue` and `rotationMatrix` are
  left out, because nothing in the model reads them.
- Threads and delivery order: callbacks are taken to arrive one at a time.
