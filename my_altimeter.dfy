/**
 * MyAltimeter.java: the altimeter. Barometer samples go through the altitude filter; the
 * official altitude is the filtered pressure altitude less an offset that GPS samples seed and
 * then nudge; the ground level is the mean of the first 16 raw pressure altitudes. Without any
 * barometer sample the GPS altitude is used directly. Every accepted sample publishes one
 * altitude record.
 *
 * The static fields are the fields of one object. The barometric formula and the Kalman filter
 * are not part of this model: they arrive in an `AltimeterEnv`, the filter as the (x, v) it
 * holds after a given sequence of updates. Listener notification runs in the background in
 * Java; here a published record is appended to a trace.
 */
module Altimeter {
  import opened JavaLang
  import NmeaLocation

  datatype SensorEvent = SensorEvent(values: seq<Double>, timestamp: int)

  /** MAltitude(millis, nano, altitude, climb, pressure). */
  datatype MAltitude = MAltitude(millis: int, nano: int, altitude: Double, climb: Double, pressure: Double)

  /** One `filter.update(z, dt)` call, and the filter's `x` and `v` after a sequence of them. */
  datatype FilterInput = FilterInput(z: Double, dt: Double)
  datatype FilterOutput = FilterOutput(x: Double, v: Double)

  datatype AltimeterEnv = AltimeterEnv(
    pressureToAltitude: Double -> Double,
    filter: seq<FilterInput> -> FilterOutput,
    phoneOffsetMillis: int)                   // Services.location.phoneOffsetMillis

  datatype AltimeterLog = AlreadyStarted | LocationNotInitialized | AltitudeNaN | ListenersStillListening

  datatype PlatformCall = SensorRegistered | GpsListenerAdded | GpsListenerRemoved | SensorUnregistered

  function Min(a: int, b: int): int {
    if a < b then a else b
  }

  /** The samples the ground level averages: the first 16. */
  const GROUND_SAMPLES: nat := 16
  /** The lag of the GPS offset's moving average. */
  const OFFSET_LAG: nat := 20

  /** A barometer event is ignored when null, empty or NaN. */
  predicate Rejected(event: Option<SensorEvent>) {
    event.None? || |event.value.values| == 0 || IsNaN(event.value.values[0])
  }

  /** The filter's time step: 0 while the altitude is NaN, else the nanosecond delta in seconds. */
  function BarometerDt(prevAltitude: Double, prevNano: int, nano: int): (dt: Double)
    ensures IsNaN(prevAltitude) ==> dt == Finite(0.0)
    ensures !IsNaN(prevAltitude) ==> dt == Finite((nano - prevNano) as real / 1000000000.0)
  {
    if IsNaN(prevAltitude) then Finite(0.0) else Finite((nano - prevNano) as real * 0.000000001)
  }

  /** The ground level kept by the running average `g += (raw - g) / (n + 1)` over the samples. */
  function RunningMean(raws: seq<Double>): Double {
    if raws == [] then NaN
    else if |raws| == 1 then raws[0]
    else
      var g := RunningMean(raws[..|raws| - 1]);
      Add(g, Div(Sub(raws[|raws| - 1], g), Finite(|raws| as real)))
  }

  predicate AllFinite(s: seq<Double>) {
    forall i :: 0 <= i < |s| ==> s[i].Finite?
  }

  function SumOf(s: seq<Double>): real
    requires AllFinite(s)
  {
    if s == [] then 0.0 else SumOf(s[..|s| - 1]) + s[|s| - 1].r
  }

  lemma MeanStep(sum: real, k: real, x: real)
    requires k >= 1.0
    ensures sum / k + (x - sum / k) / (k + 1.0) == (sum + x) / (k + 1.0)
  {
    var m := sum / k;
    assert sum == m * k;
    assert m + (x - m) / (k + 1.0) == (m * (k + 1.0) + x - m) / (k + 1.0);
  }

  /** Over finite samples the running average is the arithmetic mean. */
  lemma {:induction false} RunningMeanIsMean(raws: seq<Double>)
    requires |raws| >= 1 && AllFinite(raws)
    ensures RunningMean(raws) == Finite(SumOf(raws) / |raws| as real)
  {
    if |raws| > 1 {
      var init := raws[..|raws| - 1];
      assert AllFinite(init) by {
        forall i | 0 <= i < |init| ensures init[i].Finite? { assert init[i] == raws[i]; }
      }
      RunningMeanIsMean(init);
      MeanStep(SumOf(init), |init| as real, raws[|raws| - 1].r);
    } else {
      assert raws[..0] == [];
    }
  }

  /** After k finite barometer samples the ground level is the mean of the first min(k, 16). */
  lemma GroundLevelIsMean(raws: seq<Double>)
    requires |raws| >= 1 && AllFinite(raws)
    ensures var first := raws[..Min(|raws|, GROUND_SAMPLES)];
      AllFinite(first) && RunningMean(first) == Finite(SumOf(first) / |first| as real)
  {
    var first := raws[..Min(|raws|, GROUND_SAMPLES)];
    assert AllFinite(first) by {
      forall i | 0 <= i < |first| ensures first[i].Finite? { assert first[i] == raws[i]; }
    }
    RunningMeanIsMean(first);
  }

  /**
   * A nudge of the offset by (altitude - gps) / c, with altitude = filtered - offset and the
   * correction factor c = min(count, 20) for the count-th GPS sample after the first, leaves the
   * next altitude from the same filtered value off the GPS altitude by (1 - 1/c) of the error:
   * the second GPS sample snaps the altitude onto GPS, and later ones shrink the error by at
   * least 1/20 and never flip its sign.
   */
  lemma NudgeShrinksError(filtered: real, offset: real, gps: real, count: int)
    requires count >= 1
    ensures var c := Min(count, OFFSET_LAG);
      var altitude := Sub(Finite(filtered), Finite(offset));
      var offset' := Add(Finite(offset), Div(Sub(altitude, Finite(gps)), Finite(c as real)));
      && 1 <= c <= OFFSET_LAG
      && Sub(Sub(Finite(filtered), offset'), Finite(gps))
         == Finite((filtered - offset - gps) * (1.0 - 1.0 / c as real))
      && 0.0 <= 1.0 - 1.0 / c as real <= 1.0 - 1.0 / OFFSET_LAG as real
      && (count == 1 ==> Sub(Sub(Finite(filtered), offset'), Finite(gps)) == Finite(0.0))
  {
    var c := Min(count, OFFSET_LAG);
    var e := filtered - offset - gps;
    var cr := c as real;
    assert filtered - (offset + e / cr) - gps == e - e / cr;
    assert e - e / cr == e * (1.0 - 1.0 / cr);
    assert 1.0 / cr >= 1.0 / OFFSET_LAG as real;
  }

  /** ArrayList.remove(Object): the first occurrence goes, if any. */
  function RemoveFirst<T(==)>(s: seq<T>, x: T): (r: seq<T>)
    ensures x !in s ==> r == s
  {
    if s == [] then []
    else if s[0] == x then s[1..]
    else [s[0]] + RemoveFirst(s[1..], x)
  }

  lemma {:induction false} RemoveFirstRemovesOne<T>(s: seq<T>, x: T)
    requires x in s
    ensures |RemoveFirst(s, x)| == |s| - 1
    ensures multiset(RemoveFirst(s, x)) == multiset(s) - multiset{x}
  {
    if s[0] != x {
      RemoveFirstRemovesOne(s[1..], x);
      assert s == [s[0]] + s[1..];
    } else {
      assert s == [x] + s[1..];
    }
  }

  class MyAltimeter {
    const env: AltimeterEnv

    /** sensorManager != null */
    var started: bool
    var listeners: seq<int>

    var pressure: Double
    var pressureAltitudeRaw: Double
    var pressureAltitudeFiltered: Double
    var altitudeOffset: Double
    var altitude: Double
    var climb: Double
    var groundLevel: Double
    var lastFixNano: int
    var lastFixMillis: int
    var n: int
    var gpsSampleCount: int

    /** The updates the filter has received. */
    var filterInputs: seq<FilterInput>
    /** The raw pressure altitude of every accepted barometer sample. */
    ghost var rawAltitudes: seq<Double>

    var published: seq<MAltitude>
    var logs: seq<AltimeterLog>
    var calls: seq<PlatformCall>

    /**
     * The sample counters count the accepted samples, each of which published one record, and
     * the ground level is the running average of the first 16 raw pressure altitudes.
     */
    ghost predicate Valid()
      reads this
    {
      && n == |rawAltitudes|
      && gpsSampleCount >= 0
      && |published| == n + gpsSampleCount
      && groundLevel == RunningMean(rawAltitudes[..Min(n, GROUND_SAMPLES)])
    }

    constructor (env: AltimeterEnv)
      ensures Valid()
      ensures this.env == env && !started && listeners == []
      ensures pressure == NaN && pressureAltitudeRaw == NaN && pressureAltitudeFiltered == NaN
      ensures altitudeOffset == Finite(0.0) && altitude == NaN && climb == NaN && groundLevel == NaN
      ensures lastFixNano == 0 && lastFixMillis == 0 && n == 0 && gpsSampleCount == 0
      ensures filterInputs == [] && published == [] && logs == [] && calls == []
    {
      this.env := env;
      started := false;
      listeners := [];
      pressure, pressureAltitudeRaw, pressureAltitudeFiltered := NaN, NaN, NaN;
      altitudeOffset, altitude, climb, groundLevel := Finite(0.0), NaN, NaN, NaN;
      lastFixNano, lastFixMillis, n, gpsSampleCount := 0, 0, 0, 0;
      filterInputs, rawAltitudes := [], [];
      published, logs, calls := [], [], [];
    }

    /**
     * `start`: only when not started, register for pressure (if there is a sensor) and GPS
     * (if the location service exists, else an error line); otherwise a warning.
     */
    method Start(hasPressureSensor: bool, hasLocationService: bool)
      modifies this
      ensures started
      ensures old(started) ==> calls == old(calls) && logs == old(logs) + [AlreadyStarted]
      ensures !old(started) ==>
        && calls == old(calls) + (if hasPressureSensor then [SensorRegistered] else [])
                   + (if hasLocationService then [GpsListenerAdded] else [])
        && logs == old(logs) + (if hasLocationService then [] else [LocationNotInitialized])
      ensures published == old(published) && listeners == old(listeners)
    {
      if !started {
        started := true;
        if hasPressureSensor {
          calls := calls + [SensorRegistered];
        }
        if hasLocationService {
          calls := calls + [GpsListenerAdded];
        } else {
          logs := logs + [LocationNotInitialized];
        }
      } else {
        logs := logs + [AlreadyStarted];
      }
    }

    /**
     * `stop`: the GPS listener is removed and the sensor unregistered. Without a location
     * service the first step throws and nothing changes; without a start the null sensor
     * manager throws after the first step.
     */
    method Stop(hasLocationService: bool) returns (outcome: Outcome)
      modifies this
      ensures !hasLocationService ==>
        && outcome == Threw(NullPointer)
        && started == old(started) && calls == old(calls) && logs == old(logs)
      ensures hasLocationService ==> !started
      ensures hasLocationService && old(started) ==>
        && outcome == Completed
        && calls == old(calls) + [GpsListenerRemoved, SensorUnregistered]
        && logs == old(logs) + (if |listeners| > 0 then [ListenersStillListening] else [])
      ensures hasLocationService && !old(started) ==>
        outcome == Threw(NullPointer) && calls == old(calls) + [GpsListenerRemoved] && logs == old(logs)
      ensures published == old(published) && listeners == old(listeners)
    {
      if !hasLocationService {
        return Threw(NullPointer);
      }
      calls := calls + [GpsListenerRemoved];
      if !started {
        return Threw(NullPointer);
      }
      calls := calls + [SensorUnregistered];
      started := false;
      if |listeners| > 0 {
        logs := logs + [ListenersStillListening];
      }
      outcome := Completed;
    }

    method AddListener(listener: int)
      modifies this
      ensures listeners == old(listeners) + [listener]
    {
      listeners := listeners + [listener];
    }

    method RemoveListener(listener: int)
      modifies this
      ensures listeners == RemoveFirst(old(listeners), listener)
    {
      listeners := RemoveFirst(listeners, listener);
    }

    /** `altitudeAGL`: filtered pressure altitude above the ground level. */
    function AltitudeAGL(): (r: Double)
      reads this
      ensures IsNaN(groundLevel) || IsNaN(pressureAltitudeFiltered) ==> IsNaN(r)
      ensures groundLevel.Finite? && pressureAltitudeFiltered.Finite? ==>
        r == Finite(pressureAltitudeFiltered.r - groundLevel.r)
    {
      Sub(pressureAltitudeFiltered, groundLevel)
    }

    /** `updateAltitude`: one record of the official values. */
    method UpdateAltitude()
      modifies this`published
      ensures published == old(published) + [MAltitude(lastFixMillis, lastFixNano, altitude, climb, pressure)]
    {
      published := published + [MAltitude(lastFixMillis, lastFixNano, altitude, climb, pressure)];
    }

    /**
     * `updateBarometer(millis, event)`: a rejected event changes nothing. Otherwise the filter
     * gets the raw pressure altitude with `BarometerDt`, the official altitude is the filtered
     * one less the offset, the ground level averages the first 16 samples, and one record is
     * published.
     */
    method UpdateBarometer(millis: int, event: Option<SensorEvent>)
      requires Valid()
      modifies this
      ensures Valid()
      ensures Rejected(event) ==> unchanged(this)
      ensures !Rejected(event) ==> BarometerAccepted(millis, event.value)
    {
      if event.None? || |event.value.values| == 0 || IsNaN(event.value.values[0]) {
        return;
      }
      AcceptBarometer(millis, event.value);
    }

    /**
     * An accepted barometer event: the measurement is read, the ground level and the barometer
     * sample count move on, and one record is published; nothing else changes.
     */
    twostate predicate BarometerAccepted(millis: int, event: SensorEvent)
      reads this
    {
      && BarometerRead(millis, event)
      && n == old(n) + 1 && gpsSampleCount == old(gpsSampleCount)
      && rawAltitudes == old(rawAltitudes) + [pressureAltitudeRaw]
      && (old(n) >= GROUND_SAMPLES ==> groundLevel == old(groundLevel))
      && published == old(published) + [MAltitude(lastFixMillis, lastFixNano, altitude, climb, pressure)]
      && calls == old(calls) && started == old(started) && listeners == old(listeners)
    }

    method AcceptBarometer(millis: int, event: SensorEvent)
      requires Valid() && |event.values| > 0
      modifies this
      ensures Valid()
      ensures BarometerAccepted(millis, event)
    {
      ghost var n0, raws0, published0 := n, rawAltitudes, published;
      ReadBarometer(millis, event);
      assert n == n0 && rawAltitudes == raws0 && published == published0;
      CalibrateGroundLevel();
      UpdateAltitude();
    }

    /**
     * The measurement part of an accepted barometer event: the pressure and the times are the
     * event's, the filter gets the raw pressure altitude with `BarometerDt`, the official
     * altitude is the filtered one less the (unchanged) offset, the climb is the filter's, and
     * a NaN altitude is logged.
     */
    twostate predicate BarometerRead(millis: int, event: SensorEvent)
      reads this`pressure, this`lastFixNano, this`lastFixMillis, this`pressureAltitudeRaw,
            this`filterInputs, this`pressureAltitudeFiltered, this`altitude, this`climb, this`logs,
            this`altitudeOffset
    {
      && |event.values| > 0
      && pressure == event.values[0]
      && lastFixNano == event.timestamp
      && lastFixMillis == millis - env.phoneOffsetMillis
      && pressureAltitudeRaw == env.pressureToAltitude(pressure)
      && filterInputs == old(filterInputs)
           + [FilterInput(pressureAltitudeRaw, BarometerDt(old(altitude), old(lastFixNano), lastFixNano))]
      && pressureAltitudeFiltered == env.filter(filterInputs).x
      && climb == env.filter(filterInputs).v
      && altitude == Sub(pressureAltitudeFiltered, altitudeOffset)
      && altitudeOffset == old(altitudeOffset)
      && logs == old(logs) + (if IsNaN(altitude) then [AltitudeNaN] else [])
    }

    method ReadBarometer(millis: int, event: SensorEvent)
      requires |event.values| > 0
      modifies this`pressure, this`lastFixNano, this`lastFixMillis, this`pressureAltitudeRaw,
               this`filterInputs, this`pressureAltitudeFiltered, this`altitude, this`climb, this`logs
      ensures BarometerRead(millis, event)
    {
      var prevAltitude := altitude;
      var prevLastFixNano := lastFixNano;
      pressure := event.values[0];
      lastFixNano := event.timestamp;
      lastFixMillis := millis - env.phoneOffsetMillis;
      pressureAltitudeRaw := env.pressureToAltitude(pressure);
      var dt := if IsNaN(prevAltitude) then Finite(0.0)
                else Finite((lastFixNano - prevLastFixNano) as real * 0.000000001);
      filterInputs := filterInputs + [FilterInput(pressureAltitudeRaw, dt)];
      var out := env.filter(filterInputs);
      pressureAltitudeFiltered := out.x;
      altitude := Sub(pressureAltitudeFiltered, altitudeOffset);
      climb := out.v;
      if IsNaN(altitude) {
        logs := logs + [AltitudeNaN];
      }
    }

    /** The ground-level step of `updateBarometer`: the first 16 raw altitudes are averaged. */
    method CalibrateGroundLevel()
      requires n == |rawAltitudes| && groundLevel == RunningMean(rawAltitudes[..Min(n, GROUND_SAMPLES)])
      modifies this`groundLevel, this`n, this`rawAltitudes
      ensures n == old(n) + 1 && rawAltitudes == old(rawAltitudes) + [pressureAltitudeRaw]
      ensures groundLevel == RunningMean(rawAltitudes[..Min(n, GROUND_SAMPLES)])
      ensures old(n) >= GROUND_SAMPLES ==> groundLevel == old(groundLevel)
    {
      GroundLevelStep(rawAltitudes, pressureAltitudeRaw);
      if n == 0 {
        groundLevel := pressureAltitudeRaw;
      } else if n < GROUND_SAMPLES {
        groundLevel := Add(groundLevel, Div(Sub(pressureAltitudeRaw, groundLevel), Finite((n + 1) as real)));
      }
      rawAltitudes := rawAltitudes + [pressureAltitudeRaw];
      n := n + 1;
    }

    /**
     * `updateGPS(loc)`: a NaN GPS altitude is ignored. With barometer samples, the first GPS
     * sample seeds the offset so that the filtered altitude matches GPS, and each later one
     * moves it by the altitude error over min(count, 20); the altitude itself is left alone.
     * Without barometer samples the GPS altitude is the altitude, and the climb is its rate of
     * change (0 after a NaN). Every accepted sample counts once and publishes one record.
     */
    method UpdateGps(loc: NmeaLocation.MLocation)
      requires Valid()
      modifies this
      ensures Valid()
      ensures IsNaN(loc.altitudeGps) ==> unchanged(this)
      ensures started == old(started) && listeners == old(listeners) && rawAltitudes == old(rawAltitudes)
      ensures pressure == old(pressure) && pressureAltitudeRaw == old(pressureAltitudeRaw)
              && pressureAltitudeFiltered == old(pressureAltitudeFiltered)
      ensures !IsNaN(loc.altitudeGps) ==>
        && gpsSampleCount == old(gpsSampleCount) + 1 && n == old(n)
        && published == old(published) + [MAltitude(lastFixMillis, lastFixNano, altitude, climb, pressure)]
        && groundLevel == old(groundLevel) && filterInputs == old(filterInputs)
        && logs == old(logs) && calls == old(calls) && lastFixNano == old(lastFixNano)
      ensures !IsNaN(loc.altitudeGps) && old(n) > 0 ==>
        && altitude == old(altitude) && climb == old(climb) && lastFixMillis == old(lastFixMillis)
        && altitudeOffset == (if old(gpsSampleCount) == 0 then Sub(pressureAltitudeFiltered, loc.altitudeGps)
                              else Add(old(altitudeOffset),
                                       Div(Sub(altitude, loc.altitudeGps), Finite(Min(old(gpsSampleCount), OFFSET_LAG) as real))))
      ensures !IsNaN(loc.altitudeGps) && old(n) == 0 ==>
        && altitude == loc.altitudeGps && lastFixMillis == loc.millis
        && altitudeOffset == old(altitudeOffset)
        && climb == (if IsNaN(old(altitude)) then Finite(0.0)
                     else Div(Sub(altitude, old(altitude)), Finite((loc.millis - old(lastFixMillis)) as real * 0.001)))
    {
      if !IsNaN(loc.altitudeGps) {
        if n > 0 {
          if gpsSampleCount == 0 {
            altitudeOffset := Sub(pressureAltitudeFiltered, loc.altitudeGps);
          } else {
            var altitudeError := Sub(altitude, loc.altitudeGps);
            var correctionFactor := Min(gpsSampleCount, OFFSET_LAG);
            var altitudeCorrection := Div(altitudeError, Finite(correctionFactor as real));
            altitudeOffset := Add(altitudeOffset, altitudeCorrection);
          }
        } else {
          var prevAltitude := altitude;
          var prevLastFix := lastFixMillis;
          lastFixMillis := loc.millis;
          altitude := loc.altitudeGps;
          if IsNaN(prevAltitude) {
            climb := Finite(0.0);
          } else {
            var dt := Finite((lastFixMillis - prevLastFix) as real * 0.001);
            climb := Div(Sub(altitude, prevAltitude), dt);
          }
        }
        gpsSampleCount := gpsSampleCount + 1;
        UpdateAltitude();
      }
    }
  }

  /** One more sample extends the averaged prefix by itself below 16 samples, and not after. */
  lemma GroundLevelStep(raws: seq<Double>, raw: Double)
    ensures var k := |raws|;
      var next := (raws + [raw])[..Min(k + 1, GROUND_SAMPLES)];
      && (k == 0 ==> RunningMean(next) == raw)
      && (0 < k < GROUND_SAMPLES ==>
            var g := RunningMean(raws[..Min(k, GROUND_SAMPLES)]);
            RunningMean(next) == Add(g, Div(Sub(raw, g), Finite((k + 1) as real))))
      && (k >= GROUND_SAMPLES ==> next == raws[..Min(k, GROUND_SAMPLES)])
  {
    var k := |raws|;
    var next := (raws + [raw])[..Min(k + 1, GROUND_SAMPLES)];
    if k < GROUND_SAMPLES {
      assert next == raws + [raw];
      assert next[..|next| - 1] == raws[..Min(k, GROUND_SAMPLES)];
    } else {
      assert next == raws[..GROUND_SAMPLES];
    }
  }
}
