/**
 * LocationService.java: the meta location provider. `start` picks the bluetooth provider when
 * the bluetooth preference is on and otherwise the NMEA and android providers together; `stop`
 * undoes what the current mode started. Each provider's fixes reach `updateLocation` through a
 * filter that reads the preference when the fix arrives; android fixes pass only while no NMEA
 * sentence was ever received, and every such fallback at a power of two is reported.
 *
 * The preference is a parameter of each call. The providers' own start/stop/addListener, the
 * superclass's `stop` and `updateLocation`, and `Exceptions.report` are recorded in a trace.
 */
module LocationArbitration {
  import opened JavaLang
  import NmeaLocation

  datatype Mode = LocationNone | LocationAndroid | LocationBluetooth

  /** The `LOCATION_*` constants. */
  function ModeValue(mode: Mode): (v: int)
    ensures 0 <= v <= 2
    ensures mode == LocationNone ==> v == 0
    ensures mode == LocationAndroid ==> v == 1
    ensures mode == LocationBluetooth ==> v == 2
  {
    match mode
    case LocationNone => 0
    case LocationAndroid => 1
    case LocationBluetooth => 2
  }

  datatype Provider = NmeaProvider | AndroidProvider | BluetoothProvider

  datatype ServiceLog = StartingBluetooth | StartingAndroid | Restarting | StoppingAndroid | StoppingBluetooth

  datatype ServiceEffect =
    | Log(message: ServiceLog)
    | Started(provider: Provider)          // provider.start(context)
    | Attached(provider: Provider)         // provider.addListener(this service's listener)
    | Detached(provider: Provider)         // provider.removeListener(...)
    | Stopped(provider: Provider)          // provider.stop()
    | SuperStopped                         // LocationProvider.stop()
    | Forwarded(location: NmeaLocation.MLocation)          // updateLocation(loc)
    | FallbackReported(count: int, location: NmeaLocation.MLocation)  // Exceptions.report

  /** The mode `start` chooses. */
  function ModeAfterStart(bluetoothEnabled: bool): Mode {
    if bluetoothEnabled then LocationBluetooth else LocationAndroid
  }

  /** The providers a mode runs. */
  function ProvidersOf(mode: Mode): set<Provider> {
    match mode
    case LocationNone => {}
    case LocationAndroid => {NmeaProvider, AndroidProvider}
    case LocationBluetooth => {BluetoothProvider}
  }

  function StartEffects(bluetoothEnabled: bool): seq<ServiceEffect> {
    if bluetoothEnabled then
      [Log(StartingBluetooth), Started(BluetoothProvider), Attached(BluetoothProvider)]
    else
      [Log(StartingAndroid), Started(NmeaProvider), Attached(NmeaProvider),
       Started(AndroidProvider), Attached(AndroidProvider)]
  }

  function StopEffects(mode: Mode): seq<ServiceEffect> {
    match mode
    case LocationAndroid =>
      [Log(StoppingAndroid), Detached(NmeaProvider), Stopped(NmeaProvider),
       Detached(AndroidProvider), Stopped(AndroidProvider), SuperStopped]
    case LocationBluetooth =>
      [Log(StoppingBluetooth), Detached(BluetoothProvider), Stopped(BluetoothProvider), SuperStopped]
    case LocationNone => [SuperStopped]
  }

  // ---------------------------------------------------------------------------
  // Which providers a trace leaves attached (or running)

  /** The providers attached after the effects, starting from the given ones. */
  function Attachments(attached: set<Provider>, effects: seq<ServiceEffect>): set<Provider>
    decreases |effects|
  {
    if effects == [] then attached
    else
      var e := effects[0];
      var next := if e.Attached? then attached + {e.provider}
                  else if e.Detached? then attached - {e.provider}
                  else attached;
      Attachments(next, effects[1..])
  }

  /** The providers running after the effects, starting from the given ones. */
  function Running(running: set<Provider>, effects: seq<ServiceEffect>): set<Provider>
    decreases |effects|
  {
    if effects == [] then running
    else
      var e := effects[0];
      var next := if e.Started? then running + {e.provider}
                  else if e.Stopped? then running - {e.provider}
                  else running;
      Running(next, effects[1..])
  }

  lemma {:induction false} AttachmentsAppend(attached: set<Provider>, a: seq<ServiceEffect>, b: seq<ServiceEffect>)
    ensures Attachments(attached, a + b) == Attachments(Attachments(attached, a), b)
    decreases |a|
  {
    if a != [] {
      var e := a[0];
      var next := if e.Attached? then attached + {e.provider}
                  else if e.Detached? then attached - {e.provider}
                  else attached;
      assert (a + b)[1..] == a[1..] + b;
      AttachmentsAppend(next, a[1..], b);
    } else {
      assert a + b == b;
    }
  }

  lemma {:induction false} RunningAppend(running: set<Provider>, a: seq<ServiceEffect>, b: seq<ServiceEffect>)
    ensures Running(running, a + b) == Running(Running(running, a), b)
    decreases |a|
  {
    if a != [] {
      var e := a[0];
      var next := if e.Started? then running + {e.provider}
                  else if e.Stopped? then running - {e.provider}
                  else running;
      assert (a + b)[1..] == a[1..] + b;
      RunningAppend(next, a[1..], b);
    } else {
      assert a + b == b;
    }
  }

  /** Starting from nothing attached or running, `start` attaches and runs exactly its mode's providers. */
  lemma StartRunsMode(bluetoothEnabled: bool)
    ensures Attachments({}, StartEffects(bluetoothEnabled)) == ProvidersOf(ModeAfterStart(bluetoothEnabled))
    ensures Running({}, StartEffects(bluetoothEnabled)) == ProvidersOf(ModeAfterStart(bluetoothEnabled))
  {
    if bluetoothEnabled {
      assert Attachments({}, StartEffects(true)) == {BluetoothProvider};
      assert Running({}, StartEffects(true)) == {BluetoothProvider};
    } else {
      assert Attachments({}, StartEffects(false)) == {NmeaProvider, AndroidProvider};
      assert Running({}, StartEffects(false)) == {NmeaProvider, AndroidProvider};
    }
  }

  /** `stop` detaches and stops exactly the current mode's providers and touches no other. */
  lemma StopUndoesMode(mode: Mode, others: set<Provider>)
    requires others !! ProvidersOf(mode)
    ensures Attachments(ProvidersOf(mode) + others, StopEffects(mode)) == others
    ensures Running(ProvidersOf(mode) + others, StopEffects(mode)) == others
    ensures forall p :: Detached(p) in StopEffects(mode) <==> p in ProvidersOf(mode)
    ensures forall p :: Stopped(p) in StopEffects(mode) <==> p in ProvidersOf(mode)
  {
    var s := StopEffects(mode);
    var all := ProvidersOf(mode) + others;
    match mode
    case LocationNone =>
    case LocationAndroid =>
      var noNmea := all - {NmeaProvider};
      assert noNmea - {AndroidProvider} == others;
      assert Attachments(all, s) == Attachments(all, s[1..]) == Attachments(noNmea, s[2..]);
      assert Attachments(noNmea, s[2..]) == Attachments(noNmea, s[3..]) == Attachments(others, s[4..]);
      assert Attachments(others, s[4..]) == Attachments(others, s[5..]) == Attachments(others, s[6..]);
      assert Running(all, s) == Running(all, s[1..]) == Running(all, s[2..]) == Running(noNmea, s[3..]);
      assert Running(noNmea, s[3..]) == Running(noNmea, s[4..]) == Running(others, s[5..]);
      assert Running(others, s[5..]) == Running(others, s[6..]);
    case LocationBluetooth =>
      assert Attachments(all, s) == Attachments(all, s[1..]) == Attachments(others, s[2..]);
      assert Attachments(others, s[2..]) == Attachments(others, s[3..]) == Attachments(others, s[4..]);
      assert Running(all, s) == Running(all, s[1..]) == Running(all, s[2..]) == Running(others, s[3..]);
      assert Running(others, s[3..]) == Running(others, s[4..]);
  }

  /** `start` touches only its mode's providers. */
  lemma StartTouchesOnlyMode(bluetoothEnabled: bool)
    ensures forall p :: Started(p) in StartEffects(bluetoothEnabled) <==> p in ProvidersOf(ModeAfterStart(bluetoothEnabled))
    ensures forall p :: Attached(p) in StartEffects(bluetoothEnabled) <==> p in ProvidersOf(ModeAfterStart(bluetoothEnabled))
    ensures forall p :: Detached(p) !in StartEffects(bluetoothEnabled) && Stopped(p) !in StartEffects(bluetoothEnabled)
  {
  }

  /**
   * From a stopped service, start … stop … start with any preferences leaves exactly the
   * providers of the last preference attached and running.
   */
  lemma RestartRunsNewMode(first: bool, second: bool)
    ensures var trace := StartEffects(first) + ([Log(Restarting)] + StopEffects(ModeAfterStart(first)) + StartEffects(second));
      && Attachments({}, trace) == ProvidersOf(ModeAfterStart(second))
      && Running({}, trace) == ProvidersOf(ModeAfterStart(second))
  {
    var start1 := StartEffects(first);
    var restart := [Log(Restarting)] + StopEffects(ModeAfterStart(first)) + StartEffects(second);
    var mode := ModeAfterStart(first);
    StartRunsMode(first);
    StopUndoesMode(mode, {});
    StartRunsMode(second);
    assert ProvidersOf(mode) + {} == ProvidersOf(mode);
    AttachmentsAppend({}, start1, restart);
    RunningAppend({}, start1, restart);
    AttachmentsAppend(ProvidersOf(mode), [Log(Restarting)], StopEffects(mode) + StartEffects(second));
    RunningAppend(ProvidersOf(mode), [Log(Restarting)], StopEffects(mode) + StartEffects(second));
    assert restart == [Log(Restarting)] + (StopEffects(mode) + StartEffects(second));
    AttachmentsAppend(ProvidersOf(mode), StopEffects(mode), StartEffects(second));
    RunningAppend(ProvidersOf(mode), StopEffects(mode), StartEffects(second));
  }

  // ---------------------------------------------------------------------------
  // The android fallback counter

  /** The anonymous listener's `isPower2`: `(n & (n - 1)) == 0` on Java ints. */
  function IsPower2(n: int): bool
    requires InInt32(n)
  {
    And32(n, Wrap32(n - 1)) == 0
  }

  /** n is 2^k for some k >= 0. */
  predicate PowerOfTwo(n: nat) {
    n == 1 || (n > 1 && n % 2 == 0 && PowerOfTwo(n / 2))
  }

  lemma {:induction false} BitAndSelf(m: nat)
    ensures BitAnd(m, m) == m
  {
    if m > 0 {
      BitAndSelf(m / 2);
    }
  }

  /** For positive n, clearing the lowest set bit leaves nothing iff n is a power of two. */
  lemma {:induction false} BitAndPredecessor(n: nat)
    requires n >= 1
    ensures BitAnd(n, n - 1) == 0 <==> PowerOfTwo(n)
  {
    if n == 1 {
    } else if n % 2 == 0 {
      assert (n - 1) / 2 == n / 2 - 1 && (n - 1) % 2 == 1;
      BitAndPredecessor(n / 2);
      assert BitAnd(n, n - 1) == 2 * BitAnd(n / 2, n / 2 - 1);
    } else {
      assert (n - 1) / 2 == n / 2 && (n - 1) % 2 == 0;
      BitAndSelf(n / 2);
      assert BitAnd(n, n - 1) == 2 * BitAnd(n / 2, n / 2);
    }
  }

  /** `isPower2` is right for every positive int. */
  lemma IsPower2Correct(n: int)
    requires 1 <= n <= INT_MAX
    ensures IsPower2(n) <==> PowerOfTwo(n)
  {
    BitAndPredecessor(n);
  }

  /** Whether the fallback with this `overrideCount` is reported: 2, 4, 8, ... */
  predicate Reported(count: int)
    requires InInt32(count)
  {
    count > 1 && IsPower2(count)
  }

  /** Reports fall exactly on the powers of two above 1, among the positive counts. */
  lemma ReportedAtPowersOfTwo(count: int)
    requires 1 <= count <= INT_MAX
    ensures Reported(count) <==> count != 1 && PowerOfTwo(count)
  {
    IsPower2Correct(count);
  }

  /** 2^k as a number. */
  function Pow2(k: nat): (p: nat)
    ensures p >= 1
  {
    if k == 0 then 1 else 2 * Pow2(k - 1)
  }

  lemma {:induction false} Pow2IsPowerOfTwo(k: nat)
    ensures PowerOfTwo(Pow2(k))
  {
    if k > 0 {
      Pow2IsPowerOfTwo(k - 1);
      assert Pow2(k) / 2 == Pow2(k - 1);
    }
  }

  /** Every power of two from 2 up to the largest int is reported. */
  lemma ReportedAtPow2(k: nat)
    requires 1 <= k && Pow2(k) <= INT_MAX
    ensures Reported(Pow2(k))
  {
    Pow2IsPowerOfTwo(k);
    ReportedAtPowersOfTwo(Pow2(k));
  }

  // ---------------------------------------------------------------------------

  class LocationService {
    var locationMode: Mode
    /** The android listener's `overrideCount`. */
    var overrideCount: int
    var effects: seq<ServiceEffect>
    /** The NMEA provider, whose `nmeaReceived` latch the android filter reads. */
    const nmea: NmeaLocation.LocationProviderNMEA

    ghost predicate Valid()
      reads this
    {
      InInt32(overrideCount)
    }

    /** The NMEA provider is created with the service; the others are not part of this model. */
    constructor (nmea: NmeaLocation.LocationProviderNMEA)
      ensures Valid()
      ensures locationMode == LocationNone && overrideCount == 0 && effects == [] && this.nmea == nmea
    {
      locationMode := LocationNone;
      overrideCount := 0;
      effects := [];
      this.nmea := nmea;
    }

    /** `start`: the preference alone picks the mode and the providers started and attached. */
    method Start(bluetoothEnabled: bool)
      modifies this
      ensures locationMode == ModeAfterStart(bluetoothEnabled)
      ensures effects == old(effects) + StartEffects(bluetoothEnabled)
      ensures overrideCount == old(overrideCount)
    {
      if bluetoothEnabled {
        effects := effects + [Log(StartingBluetooth)];
        locationMode := LocationBluetooth;
        effects := effects + [Started(BluetoothProvider)];
        effects := effects + [Attached(BluetoothProvider)];
      } else {
        effects := effects + [Log(StartingAndroid)];
        locationMode := LocationAndroid;
        effects := effects + [Started(NmeaProvider)];
        effects := effects + [Attached(NmeaProvider)];
        effects := effects + [Started(AndroidProvider)];
        effects := effects + [Attached(AndroidProvider)];
      }
    }

    /** `stop`: detach and stop the current mode's providers, then mode NONE and the superclass stop. */
    method Stop()
      modifies this
      ensures locationMode == LocationNone
      ensures effects == old(effects) + StopEffects(old(locationMode))
      ensures overrideCount == old(overrideCount)
    {
      if locationMode == LocationAndroid {
        effects := effects + [Log(StoppingAndroid)];
        effects := effects + [Detached(NmeaProvider), Stopped(NmeaProvider)];
        effects := effects + [Detached(AndroidProvider), Stopped(AndroidProvider)];
      } else if locationMode == LocationBluetooth {
        effects := effects + [Log(StoppingBluetooth)];
        effects := effects + [Detached(BluetoothProvider), Stopped(BluetoothProvider)];
      }
      locationMode := LocationNone;
      effects := effects + [SuperStopped];
    }

    /** `restart`: a log line, `stop`, then `start`. */
    method Restart(bluetoothEnabled: bool)
      modifies this
      ensures locationMode == ModeAfterStart(bluetoothEnabled)
      ensures effects == old(effects) + ([Log(Restarting)] + StopEffects(old(locationMode)) + StartEffects(bluetoothEnabled))
      ensures overrideCount == old(overrideCount)
    {
      effects := effects + [Log(Restarting)];
      Stop();
      Start(bluetoothEnabled);
    }

    /** The NMEA listener: forwards iff the bluetooth preference is off. */
    method OnNmeaLocation(loc: NmeaLocation.MLocation, bluetoothEnabled: bool)
      modifies this
      ensures effects == old(effects) + (if bluetoothEnabled then [] else [Forwarded(loc)])
      ensures locationMode == old(locationMode) && overrideCount == old(overrideCount)
    {
      if !bluetoothEnabled {
        effects := effects + [Forwarded(loc)];
      }
    }

    /** The bluetooth listener: forwards iff the bluetooth preference is on. */
    method OnBluetoothLocation(loc: NmeaLocation.MLocation, bluetoothEnabled: bool)
      modifies this
      ensures effects == old(effects) + (if bluetoothEnabled then [Forwarded(loc)] else [])
      ensures locationMode == old(locationMode) && overrideCount == old(overrideCount)
    {
      if bluetoothEnabled {
        effects := effects + [Forwarded(loc)];
      }
    }

    /**
     * The android listener: only while the preference is off and no NMEA sentence was ever
     * received, the (wrapping) counter goes up, a count above 1 that is a power of two is
     * reported, and the fix is forwarded.
     */
    method OnAndroidLocation(loc: NmeaLocation.MLocation, bluetoothEnabled: bool)
      requires Valid()
      modifies this
      ensures Valid()
      ensures locationMode == old(locationMode)
      ensures bluetoothEnabled || nmea.nmeaReceived ==>
        effects == old(effects) && overrideCount == old(overrideCount)
      ensures !bluetoothEnabled && !nmea.nmeaReceived ==>
        && overrideCount == Wrap32(old(overrideCount) + 1)
        && effects == old(effects) + (if Reported(overrideCount) then [FallbackReported(overrideCount, loc)] else [])
                      + [Forwarded(loc)]
    {
      if !bluetoothEnabled && !nmea.nmeaReceived {
        overrideCount := Wrap32(overrideCount + 1);
        if overrideCount > 1 && IsPower2(overrideCount) {
          effects := effects + [FallbackReported(overrideCount, loc)];
        }
        effects := effects + [Forwarded(loc)];
      }
    }
  }
}
