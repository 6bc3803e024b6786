/**
 The stream handler of the compass plugin and the sensor listener it
 creates: the per-sample pipeline as one state machine. The platform clock
 is a parameter, the platform's rotation-matrix/orientation computation is a
 function handed to the constructor, the event sink is a ghost log, and
 listener registration is a flag.
 */
module FlutterCompass {
  import opened CompassFilter
  import opened CompassReading

  // Android's sensor type codes.
  const TYPE_ACCELEROMETER: int := 1
  const TYPE_MAGNETIC_FIELD: int := 2

  /** What the plugin delivers to the subscriber's event sink. */
  datatype Event = Success(payload: seq<real>) | Error(code: string, message: string)

  /** The single error the plugin reports: the device lacks a required sensor. */
  const SensorMissingError: Event :=
    Error("404", "Thiết bị này không hỗ trợ từ kế.\nChúng tôi rất tiếc vì không thể hỗ trợ bạn.")

  /** The `double[3]` handed to the sink: heading, an unused 0, accuracy. */
  function Payload(heading: real, accuracy: real): seq<real>
  {
    [heading, 0.0, accuracy]
  }

  /** A payload the plugin can emit: heading in [0, 360), slot 1 zero, a known accuracy value. */
  predicate IsReading(p: seq<real>)
  {
    |p| == 3 && 0.0 <= p[0] < FULL_TURN && p[1] == 0.0 && IsAccuracyDegrees(p[2])
  }

  /**
   The platform's azimuth, in degrees, lies in [-360, 360): nominally it is
   within [-180, 180], but a float rounding of pi may take it slightly past.
   */
  ghost predicate AzimuthInRange(azimuth: (seq<real>, seq<real>) -> real)
  {
    forall g, m :: -FULL_TURN <= azimuth(g, m) < FULL_TURN
  }

  class CompassPlugin {
    /** Whether the platform had an accelerometer and a magnetometer at construction. */
    const gravitySensorPresent: bool
    const magneticFieldSensorPresent: bool
    /**
     SensorManager.getRotationMatrix followed by getOrientation and
     Math.toDegrees: the azimuth, in degrees, of the smoothed gravity and
     magnetic vectors.
     */
    const azimuthDegrees: (seq<real>, seq<real>) -> real

    const gravityValues: array<real>
    const magneticValues: array<real>
    var lastHeading: real
    var lastAccuracySensorStatus: int
    var compassUpdateNextTimestamp: int
    /** Whether the listener is registered with the platform for both sensors. */
    var registered: bool

    /** What the current subscription's sink has received. */
    ghost var events: seq<Event>
    /** The instants of every emission since construction. */
    ghost var emissionTimes: seq<int>
    /** The raw accelerometer and magnetometer samples received since construction. */
    ghost var gravitySamples: seq<seq<real>>
    ghost var magneticSamples: seq<seq<real>>

    ghost predicate SensorsPresent()
    {
      gravitySensorPresent && magneticFieldSensorPresent
    }

    ghost predicate Valid()
      reads this, gravityValues, magneticValues
    {
      && AzimuthInRange(azimuthDegrees)
      // the two sensors are looked up together: both or neither
      && gravitySensorPresent == magneticFieldSensorPresent
      && gravityValues.Length == 3 && magneticValues.Length == 3
      && gravityValues != magneticValues
      // the buffers hold the smoothing of every sample of their kind
      && AllSamples(gravitySamples) && gravityValues[..] == Smooth(gravitySamples)
      && AllSamples(magneticSamples) && magneticValues[..] == Smooth(magneticSamples)
      // the throttle: the deadline is 32 ms after the last emission
      && Spaced(emissionTimes)
      && compassUpdateNextTimestamp
         == (if emissionTimes == [] then 0 else emissionTimes[|emissionTimes| - 1] + COMPASS_UPDATE_RATE_MS)
      // the sink: one error and nothing else, or readings only
      && (registered ==> SensorsPresent())
      && (!SensorsPresent() ==> events == [] || events == [SensorMissingError])
      && (SensorsPresent() ==> forall i :: 0 <= i < |events| ==> events[i].Success?)
      && (forall i :: 0 <= i < |events| && events[i].Success? ==> IsReading(events[i].payload))
    }

    /**
     The sensor lookup: both sensors are kept only when the platform has both.
     Buffers start at zero, the status at UNRELIABLE and the deadline at 0.
     */
    constructor (hasAccelerometer: bool, hasMagnetometer: bool, azimuth: (seq<real>, seq<real>) -> real)
      requires AzimuthInRange(azimuth)
      ensures Valid() && fresh(gravityValues) && fresh(magneticValues)
      ensures gravitySensorPresent == magneticFieldSensorPresent == (hasAccelerometer && hasMagnetometer)
      ensures azimuthDegrees == azimuth
      ensures gravityValues[..] == Zero && magneticValues[..] == Zero
      ensures lastAccuracySensorStatus == SENSOR_STATUS_UNRELIABLE
      ensures compassUpdateNextTimestamp == 0 && lastHeading == 0.0
      ensures !registered && events == [] && emissionTimes == []
    {
      var present := hasAccelerometer && hasMagnetometer;
      gravitySensorPresent := present;
      magneticFieldSensorPresent := present;
      azimuthDegrees := azimuth;
      gravityValues := new real[3](_ => 0.0);
      magneticValues := new real[3](_ => 0.0);
      lastHeading := 0.0;
      lastAccuracySensorStatus := SENSOR_STATUS_UNRELIABLE;
      compassUpdateNextTimestamp := 0;
      registered := false;
      events := [];
      emissionTimes := [];
      gravitySamples := [];
      magneticSamples := [];
      new;
      assert gravityValues[..] == Zero;
      assert magneticValues[..] == Zero;
    }

    /**
     A new subscription with a fresh sink: registers for both sensors when
     they are present, otherwise reports exactly one "404" error. Buffers,
     status and deadline carry over from earlier subscriptions.
     */
    method OnListen()
      requires Valid() && !registered
      modifies this
      ensures Valid()
      ensures SensorsPresent() ==> registered && events == []
      ensures !SensorsPresent() ==> !registered && events == [SensorMissingError]
      ensures lastAccuracySensorStatus == old(lastAccuracySensorStatus)
      ensures compassUpdateNextTimestamp == old(compassUpdateNextTimestamp)
      ensures lastHeading == old(lastHeading) && emissionTimes == old(emissionTimes)
      ensures gravitySamples == old(gravitySamples) && magneticSamples == old(magneticSamples)
    {
      events := [];
      if gravitySensorPresent && magneticFieldSensorPresent {
        registered := true;
      } else {
        events := events + [SensorMissingError];
      }
    }

    /** The end of a subscription: unregisters when the sensors were registered. */
    method OnCancel()
      requires Valid()
      modifies this`registered
      ensures Valid()
      ensures !registered
    {
      if gravitySensorPresent && magneticFieldSensorPresent {
        registered := false;
      }
    }

    /**
     One sample from the platform: an accelerometer sample is blended into
     the gravity buffer, a magnetometer sample into the magnetic buffer, each
     followed by an orientation update at time `now`; any other sensor type
     changes nothing.
     */
    method OnSensorChanged(sensorType: int, values: seq<real>, now: int)
      requires Valid() && registered
      requires sensorType == TYPE_ACCELEROMETER || sensorType == TYPE_MAGNETIC_FIELD ==> |values| >= 3
      modifies this, gravityValues, magneticValues
      ensures Valid() && registered
      ensures sensorType == TYPE_ACCELEROMETER ==> GravitySampled(values, now)
      ensures sensorType == TYPE_MAGNETIC_FIELD ==> MagneticSampled(values, now)
      ensures sensorType != TYPE_ACCELEROMETER && sensorType != TYPE_MAGNETIC_FIELD ==>
        && unchanged(this) && unchanged(gravityValues) && unchanged(magneticValues)
    {
      if sensorType == TYPE_ACCELEROMETER {
        OnGravitySample(values, now);
      } else if sensorType == TYPE_MAGNETIC_FIELD {
        OnMagneticSample(values, now);
      }
    }

    /**
     The effect of an accelerometer sample: the gravity buffer blends it in,
     the magnetic buffer keeps its values, then the orientation is updated.
     */
    twostate predicate GravitySampled(values: seq<real>, now: int)
      reads this, gravityValues, magneticValues
      requires old(Valid()) && Valid() && |values| >= 3
    {
      && gravityValues[..] == BlendVector(old(gravityValues[..]), values)
      && magneticValues[..] == old(magneticValues[..])
      && gravitySamples == old(gravitySamples) + [values]
      && magneticSamples == old(magneticSamples)
      && OrientationUpdated(now)
    }

    /** The mirror image of GravitySampled for a magnetometer sample. */
    twostate predicate MagneticSampled(values: seq<real>, now: int)
      reads this, gravityValues, magneticValues
      requires old(Valid()) && Valid() && |values| >= 3
    {
      && magneticValues[..] == BlendVector(old(magneticValues[..]), values)
      && gravityValues[..] == old(gravityValues[..])
      && magneticSamples == old(magneticSamples) + [values]
      && gravitySamples == old(gravitySamples)
      && OrientationUpdated(now)
    }

    method OnGravitySample(values: seq<real>, now: int)
      requires Valid() && registered && |values| >= 3
      modifies this, gravityValues
      ensures Valid() && registered
      ensures GravitySampled(values, now)
    {
      ghost var untouched := magneticValues[..];
      BlendSample(gravityValues, values);
      assert magneticValues[..] == untouched;
      gravitySamples := gravitySamples + [values];
      SmoothAppend(old(gravitySamples), values);
      assert Valid();
      UpdateOrientation(now);
    }

    method OnMagneticSample(values: seq<real>, now: int)
      requires Valid() && registered && |values| >= 3
      modifies this, magneticValues
      ensures Valid() && registered
      ensures MagneticSampled(values, now)
    {
      ghost var untouched := gravityValues[..];
      BlendSample(magneticValues, values);
      assert gravityValues[..] == untouched;
      magneticSamples := magneticSamples + [values];
      SmoothAppend(old(magneticSamples), values);
      assert Valid();
      UpdateOrientation(now);
    }

    /** Blends a raw sample into a buffer, component by component, in place. */
    static method BlendSample(buffer: array<real>, values: seq<real>)
      requires buffer.Length == 3 && |values| >= 3
      modifies buffer
      ensures buffer[..] == BlendVector(old(buffer[..]), values)
    {
      buffer[0] := ALPHA * buffer[0] + (1.0 - ALPHA) * values[0];
      buffer[1] := ALPHA * buffer[1] + (1.0 - ALPHA) * values[1];
      buffer[2] := ALPHA * buffer[2] + (1.0 - ALPHA) * values[2];
    }

    /** A new accuracy status from either sensor replaces the previous one. */
    method OnAccuracyChanged(sensorType: int, accuracy: int)
      requires Valid()
      modifies this`lastAccuracySensorStatus
      ensures Valid()
      ensures lastAccuracySensorStatus == accuracy
    {
      if lastAccuracySensorStatus != accuracy {
        lastAccuracySensorStatus := accuracy;
      }
    }

    /** The heading the current buffers give, normalised into [0, 360). */
    ghost function Heading(): (h: real)
      reads this, gravityValues, magneticValues
      requires Valid()
      ensures 0.0 <= h < FULL_TURN
    {
      var d := azimuthDegrees(gravityValues[..], magneticValues[..]);
      NormalizeHeadingInRange(d);
      NormalizeHeading(d)
    }

    /**
     The effect of an orientation update at `now`: before the deadline
     nothing changes; otherwise one reading of the current heading and
     accuracy goes to the sink, becomes lastHeading, and the deadline moves to
     now + 32. The buffers and the status are never touched.
     */
    twostate predicate OrientationUpdated(now: int)
      reads this, gravityValues, magneticValues
      requires Valid()
    {
      && lastAccuracySensorStatus == old(lastAccuracySensorStatus)
      && registered == old(registered)
      && (now < old(compassUpdateNextTimestamp) ==>
            && events == old(events)
            && emissionTimes == old(emissionTimes)
            && compassUpdateNextTimestamp == old(compassUpdateNextTimestamp)
            && lastHeading == old(lastHeading))
      && (now >= old(compassUpdateNextTimestamp) ==>
            && events == old(events) + [Success(Payload(Heading(), AccuracyDegrees(lastAccuracySensorStatus)))]
            && emissionTimes == old(emissionTimes) + [now]
            && compassUpdateNextTimestamp == now + COMPASS_UPDATE_RATE_MS
            && lastHeading == Heading())
    }

    /** The throttled fusion step, with the platform clock reading `now`. */
    method UpdateOrientation(now: int)
      requires Valid() && registered
      modifies this
      ensures Valid()
      ensures OrientationUpdated(now)
      ensures gravitySamples == old(gravitySamples) && magneticSamples == old(magneticSamples)
    {
      if now < compassUpdateNextTimestamp {
        return;
      }
      var azimuth := azimuthDegrees(gravityValues[..], magneticValues[..]);
      NormalizeHeadingInRange(azimuth);
      var v := Payload(NormalizeHeading(azimuth), AccuracyDegrees(lastAccuracySensorStatus));
      NotifyCompassChangeListeners(v);
      emissionTimes := emissionTimes + [now];
      compassUpdateNextTimestamp := now + COMPASS_UPDATE_RATE_MS;
    }

    /** Hands one reading to the sink and remembers its heading. */
    method NotifyCompassChangeListeners(heading: seq<real>)
      requires |heading| == 3
      modifies this`events, this`lastHeading
      ensures events == old(events) + [Success(heading)]
      ensures lastHeading == heading[0]
    {
      events := events + [Success(heading)];
      lastHeading := heading[0];
    }
  }
}
