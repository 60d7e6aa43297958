/**
 * Services.java: the process-wide services of the app (bluetooth, track logger, location,
 * sensors, altimeter, flight computer, audible, notifications, cloud). Activities start and
 * stop them through a reference count: the first start brings every service up in a fixed
 * order, and once the count drops back to 0 a delayed check shuts them down in the reverse
 * order, unless a track is being recorded or the audible is on.
 *
 * The services themselves, the Android handler, the permission check and the crash reporter
 * are collaborators: their calls are a trace of effects, and what they answer (whether the
 * logger is logging, whether the location permission is granted) is an input. The four static
 * fields and the preference-backed globals that `loadPreferences` sets are fields of one
 * object. Informational log lines are not modelled; warnings are.
 */
module AppServices {
  import opened JavaLang

  /** How long after the last activity stops the idle check runs, in milliseconds. */
  const SHUTDOWN_DELAY: int := 10000

  datatype Service =
    | Bluetooth | Logger | Location | Sensors | Altimeter | FlightComputer | Audible | Notifications | Cloud

  /** The order in which the first `start` brings the services up. */
  const START_ORDER: seq<Service> :=
    [Bluetooth, Logger, Location, Sensors, Altimeter, FlightComputer, Audible, Notifications, Cloud]

  /** The order in which `stopIfIdle` shuts them down. */
  const STOP_ORDER: seq<Service> :=
    [Cloud, Notifications, Audible, FlightComputer, Altimeter, Sensors, Location, Logger, Bluetooth]

  datatype ServicesLog =
    | LocationStartFailed      // SecurityException from location.start
    | StartedMoreThanTwice
    | TtsAlreadyLoaded         // also what is reported as "loaded twice"
    | StillRecording
    | AudibleStillActive
    | TtsAlreadyLoadedAtStart  // crash-log breadcrumb when audible starts right away
    | TtsLoadedFrom            // crash-log breadcrumb of onTtsLoaded

  datatype ServicesEffect =
    | Warn(message: ServicesLog)
    | CrashLog(message: ServicesLog)
    | CrashReport(problem: ServicesLog)
    | Started(service: Service)
    | Stopped(service: Service)
    | LocationPermissionRequested
    | TtsCheckStarted                    // CheckTextToSpeechTask
    | TracksMigrated                     // MigrateTracks.migrate
    | CallbacksRemoved                   // handler.removeCallbacks(stopRunnable)
    | ShutdownScheduled(delayMillis: int)

  function Reverse<T>(s: seq<T>): (r: seq<T>)
    ensures |r| == |s|
    ensures forall i :: 0 <= i < |s| ==> r[i] == s[|s| - 1 - i]
  {
    if s == [] then [] else Reverse(s[1..]) + [s[0]]
  }

  /** The shutdown order is exactly the start order backwards. */
  lemma StopOrderReversesStartOrder()
    ensures STOP_ORDER == Reverse(START_ORDER)
  {
    assert Reverse(START_ORDER) == STOP_ORDER by {
      var r := Reverse(START_ORDER);
      forall i | 0 <= i < 9 ensures r[i] == STOP_ORDER[i] {
      }
    }
  }

  /** The services a trace starts, in order. */
  function StartedIn(effects: seq<ServicesEffect>): seq<Service>
    decreases |effects|
  {
    if effects == [] then []
    else (if effects[0].Started? then [effects[0].service] else []) + StartedIn(effects[1..])
  }

  /** The services a trace stops, in order. */
  function StoppedIn(effects: seq<ServicesEffect>): seq<Service>
    decreases |effects|
  {
    if effects == [] then []
    else (if effects[0].Stopped? then [effects[0].service] else []) + StoppedIn(effects[1..])
  }

  lemma {:induction false} StartedInAppend(a: seq<ServicesEffect>, b: seq<ServicesEffect>)
    ensures StartedIn(a + b) == StartedIn(a) + StartedIn(b)
    decreases |a|
  {
    if a != [] {
      assert (a + b)[0] == a[0];
      assert (a + b)[1..] == a[1..] + b;
      StartedInAppend(a[1..], b);
    } else {
      assert a + b == b;
    }
  }

  lemma {:induction false} StoppedInAppend(a: seq<ServicesEffect>, b: seq<ServicesEffect>)
    ensures StoppedIn(a + b) == StoppedIn(a) + StoppedIn(b)
    decreases |a|
  {
    if a != [] {
      assert (a + b)[0] == a[0];
      assert (a + b)[1..] == a[1..] + b;
      StoppedInAppend(a[1..], b);
    } else {
      assert a + b == b;
    }
  }

  /** A `start()` call on each service, in turn. */
  function StartEach(services: seq<Service>): (r: seq<ServicesEffect>)
    ensures StartedIn(r) == services
    decreases |services|
  {
    if services == [] then []
    else
      var rest := StartEach(services[1..]);
      assert StartedIn([Started(services[0])] + rest) == [services[0]] + StartedIn(rest) by {
        StartedInCons(Started(services[0]), rest);
      }
      [Started(services[0])] + rest
  }

  /** A `stop()` call on each service, in turn. */
  function StopEach(services: seq<Service>): (r: seq<ServicesEffect>)
    ensures StoppedIn(r) == services && StartedIn(r) == []
    decreases |services|
  {
    if services == [] then []
    else
      var rest := StopEach(services[1..]);
      assert StoppedIn([Stopped(services[0])] + rest) == [services[0]] + StoppedIn(rest) by {
        StoppedInCons(Stopped(services[0]), rest);
      }
      assert StartedIn([Stopped(services[0])] + rest) == StartedIn(rest) by {
        StartedInCons(Stopped(services[0]), rest);
      }
      [Stopped(services[0])] + rest
  }

  lemma StartedInCons(e: ServicesEffect, rest: seq<ServicesEffect>)
    ensures StartedIn([e] + rest) == (if e.Started? then [e.service] else []) + StartedIn(rest)
  {
    assert ([e] + rest)[0] == e && ([e] + rest)[1..] == rest;
  }

  lemma StoppedInCons(e: ServicesEffect, rest: seq<ServicesEffect>)
    ensures StoppedIn([e] + rest) == (if e.Stopped? then [e.service] else []) + StoppedIn(rest)
  {
    assert ([e] + rest)[0] == e && ([e] + rest)[1..] == rest;
  }

  /** Bluetooth starts only when its preference is on. */
  function BluetoothStartup(bluetoothEnabled: bool): (r: seq<ServicesEffect>)
    ensures StartedIn(r) == if bluetoothEnabled then [Bluetooth] else []
  {
    if bluetoothEnabled then StartEach([Bluetooth]) else []
  }

  /**
   * Location starts only with the permission granted (a SecurityException it throws is only
   * logged); without the permission it is requested instead.
   */
  function LocationStartup(permissionGranted: bool, locationFails: bool): (r: seq<ServicesEffect>)
    ensures StartedIn(r) == if permissionGranted then [Location] else []
  {
    if !permissionGranted then
      StartedInCons(LocationPermissionRequested, []);
      [LocationPermissionRequested]
    else if locationFails then
      StartedInCons(Started(Location), [Warn(LocationStartFailed)]);
      StartedInCons(Warn(LocationStartFailed), []);
      [Started(Location), Warn(LocationStartFailed)]
    else StartEach([Location])
  }

  /** The audible starts right away once text-to-speech is loaded; otherwise the check for it starts. */
  function AudibleStartup(ttsLoaded: bool): (r: seq<ServicesEffect>)
    ensures StartedIn(r) == if ttsLoaded then [Audible] else []
  {
    if ttsLoaded then
      StartedInCons(CrashLog(TtsAlreadyLoadedAtStart), StartEach([Audible]));
      [CrashLog(TtsAlreadyLoadedAtStart)] + StartEach([Audible])
    else
      StartedInCons(TtsCheckStarted, []);
      [TtsCheckStarted]
  }

  /** What the whole start-up does, given the collaborators' answers, call by call. */
  function StartupEffects(bluetoothEnabled: bool, permissionGranted: bool, locationFails: bool, ttsLoaded: bool)
    : seq<ServicesEffect>
  {
    [CallbacksRemoved]
    + (BluetoothStartup(bluetoothEnabled)
    + (StartEach([Logger])
    + (LocationStartup(permissionGranted, locationFails)
    + (StartEach([Sensors, Altimeter, FlightComputer])
    + (AudibleStartup(ttsLoaded)
    + (StartEach([Notifications, Cloud])
    + [TracksMigrated]))))))
  }

  /** What the shutdown of an idle app does: every service stopped in STOP_ORDER. */
  function ShutdownEffects(): seq<ServicesEffect> {
    StopEach(STOP_ORDER) + [CallbacksRemoved]
  }

  /** The second half of start-up: sensors to cloud, with the audible only once text-to-speech is loaded. */
  lemma StartupTailOrder(ttsLoaded: bool)
    ensures StartedIn(StartEach([Sensors, Altimeter, FlightComputer])
                      + (AudibleStartup(ttsLoaded) + (StartEach([Notifications, Cloud]) + [TracksMigrated])))
      == [Sensors, Altimeter, FlightComputer] + ((if ttsLoaded then [Audible] else []) + [Notifications, Cloud])
  {
    var r7 := StartEach([Notifications, Cloud]) + [TracksMigrated];
    StartedInAppend(StartEach([Notifications, Cloud]), [TracksMigrated]);
    StartedInCons(TracksMigrated, []);
    var r6 := AudibleStartup(ttsLoaded) + r7;
    StartedInAppend(AudibleStartup(ttsLoaded), r7);
    StartedInAppend(StartEach([Sensors, Altimeter, FlightComputer]), r6);
  }

  /**
   * Start-up brings the services up in START_ORDER: all of them when bluetooth is enabled, the
   * location permission granted and text-to-speech loaded; otherwise the same order with the
   * services whose condition fails skipped (bluetooth, location, audible).
   */
  lemma StartupOrder(bluetoothEnabled: bool, permissionGranted: bool, locationFails: bool, ttsLoaded: bool)
    ensures var started := StartedIn(StartupEffects(bluetoothEnabled, permissionGranted, locationFails, ttsLoaded));
      && (bluetoothEnabled && permissionGranted && ttsLoaded ==> started == START_ORDER)
      && started == (if bluetoothEnabled then [Bluetooth] else [])
                    + ([Logger]
                    + ((if permissionGranted then [Location] else [])
                    + ([Sensors, Altimeter, FlightComputer]
                    + ((if ttsLoaded then [Audible] else [])
                    + [Notifications, Cloud]))))
  {
    var r5 := StartEach([Sensors, Altimeter, FlightComputer])
              + (AudibleStartup(ttsLoaded) + (StartEach([Notifications, Cloud]) + [TracksMigrated]));
    StartupTailOrder(ttsLoaded);
    var r4 := LocationStartup(permissionGranted, locationFails) + r5;
    StartedInAppend(LocationStartup(permissionGranted, locationFails), r5);
    var r3 := StartEach([Logger]) + r4;
    StartedInAppend(StartEach([Logger]), r4);
    var r2 := BluetoothStartup(bluetoothEnabled) + r3;
    StartedInAppend(BluetoothStartup(bluetoothEnabled), r3);
    StartedInCons(CallbacksRemoved, r2);
    if bluetoothEnabled && permissionGranted && ttsLoaded {
      assert StartedIn(r2) == START_ORDER;
    }
  }

  /** Shutdown stops every service, in the reverse of the start order, and starts none. */
  lemma ShutdownReversesStartup()
    ensures StoppedIn(ShutdownEffects()) == Reverse(START_ORDER)
    ensures StartedIn(ShutdownEffects()) == []
    ensures forall s :: s in START_ORDER ==> s in StoppedIn(ShutdownEffects())
  {
    StopOrderReversesStartOrder();
    StoppedInAppend(StopEach(STOP_ORDER), [CallbacksRemoved]);
    StartedInAppend(StopEach(STOP_ORDER), [CallbacksRemoved]);
    StoppedInCons(CallbacksRemoved, []);
    StartedInCons(CallbacksRemoved, []);
  }

  /** The stored preferences: the boolean and the string entries. */
  datatype SharedPreferences = SharedPreferences(booleans: map<string, bool>, strings: map<string, string>)

  /** `getBoolean(key, default)`. */
  function GetBoolean(prefs: SharedPreferences, key: string, default: bool): (r: bool)
    ensures key in prefs.booleans ==> r == prefs.booleans[key]
    ensures key !in prefs.booleans ==> r == default
  {
    if key in prefs.booleans then prefs.booleans[key] else default
  }

  /** `getString(key, null)`. */
  function GetString(prefs: SharedPreferences, key: string): (r: Option<string>)
    ensures r.Some? <==> key in prefs.strings
    ensures r.Some? ==> r.value == prefs.strings[key]
  {
    if key in prefs.strings then Some(prefs.strings[key]) else None
  }

  /** The globals that `loadPreferences` sets (units, barometer, auto-stop, bluetooth, home). */
  datatype AppSettings = AppSettings(
    metric: bool, barometerEnabled: bool, autoStopEnabled: bool, bluetoothEnabled: bool,
    bluetoothDeviceId: Option<string>, bluetoothDeviceName: Option<string>,
    homeLocation: Option<(Double, Double)>)

  /**
   * `loadPreferences`: each setting from its key, with its default when absent; the home
   * location only when both stored coordinates parse to real numbers, else the previous one.
   * `parseDouble` is `Numbers.parseDouble` (null and malformed text give NaN).
   */
  function LoadPreferences(prefs: SharedPreferences, parseDouble: Option<string> -> Double, previous: AppSettings)
    : (r: AppSettings)
    ensures r.metric == GetBoolean(prefs, "metric_enabled", false)
    ensures r.barometerEnabled == GetBoolean(prefs, "barometer_enabled", true)
    ensures r.autoStopEnabled == GetBoolean(prefs, "auto_stop_enabled", true)
    ensures r.bluetoothEnabled == GetBoolean(prefs, "bluetooth_enabled", false)
    ensures r.bluetoothDeviceId == GetString(prefs, "bluetooth_device_id")
    ensures r.bluetoothDeviceName == GetString(prefs, "bluetooth_device_name")
    ensures var lat := parseDouble(GetString(prefs, "home_latitude"));
      var lng := parseDouble(GetString(prefs, "home_longitude"));
      r.homeLocation == if lat.Finite? && lng.Finite? then Some((lat, lng)) else previous.homeLocation
  {
    var lat := parseDouble(GetString(prefs, "home_latitude"));
    var lng := parseDouble(GetString(prefs, "home_longitude"));
    AppSettings(
      GetBoolean(prefs, "metric_enabled", false),
      GetBoolean(prefs, "barometer_enabled", true),
      GetBoolean(prefs, "auto_stop_enabled", true),
      GetBoolean(prefs, "bluetooth_enabled", false),
      GetString(prefs, "bluetooth_device_id"),
      GetString(prefs, "bluetooth_device_name"),
      if !IsNaN(lat) && !IsInfinite(lat) && !IsNaN(lng) && !IsInfinite(lng) then Some((lat, lng))
      else previous.homeLocation)
  }

  /**
   * With nothing stored: imperial units, barometer on, auto-stop on, bluetooth off with no
   * device, and the home location left as it was (a missing coordinate parses to NaN).
   */
  lemma DefaultPreferences(parseDouble: Option<string> -> Double, previous: AppSettings)
    requires parseDouble(None) == NaN
    ensures LoadPreferences(SharedPreferences(map[], map[]), parseDouble, previous)
      == AppSettings(false, true, true, false, None, None, previous.homeLocation)
  {
  }

  class Services {
    var startCount: int
    var initialized: bool
    var created: bool
    var ttsLoaded: bool
    var settings: AppSettings
    var effects: seq<ServicesEffect>

    /** `startCount` is a Java int. */
    ghost predicate Valid()
      reads this
    {
      InInt32(startCount)
    }

    constructor (settings: AppSettings)
      ensures Valid() && startCount == 0 && !initialized && !created && !ttsLoaded
      ensures this.settings == settings && effects == []
    {
      startCount, initialized, created, ttsLoaded := 0, false, false, false;
      this.settings, effects := settings, [];
    }

    /** `create`: the preferences are loaded by the first call only. */
    method Create(prefs: SharedPreferences, parseDouble: Option<string> -> Double)
      modifies this`created, this`settings
      ensures created
      ensures settings == if old(created) then old(settings) else LoadPreferences(prefs, parseDouble, old(settings))
    {
      if !created {
        settings := LoadPreferences(prefs, parseDouble, settings);
        created := true;
      }
    }

    /**
     * `start`: one more activity started. The first start while not initialized brings every
     * service up; a later one only warns when more than two activities overlap.
     */
    method Start(permissionGranted: bool, locationFails: bool)
      requires Valid()
      modifies this`startCount, this`initialized, this`effects
      ensures Valid()
      ensures startCount == Wrap32(old(startCount) + 1)
      ensures initialized
      ensures !old(initialized) ==>
        effects == old(effects) + StartupEffects(settings.bluetoothEnabled, permissionGranted, locationFails, ttsLoaded)
      ensures old(initialized) ==>
        effects == old(effects) + (if startCount > 2 then [Warn(StartedMoreThanTwice)] else [])
    {
      startCount := Wrap32(startCount + 1);
      if !initialized {
        initialized := true;
        effects := effects + StartupEffects(settings.bluetoothEnabled, permissionGranted, locationFails, ttsLoaded);
      } else if startCount > 2 {
        effects := effects + [Warn(StartedMoreThanTwice)];
      }
    }

    /**
     * `onTtsLoaded`: the first call latches `ttsLoaded` and starts the audible if the services
     * are up; a repeated call warns and reports.
     */
    method OnTtsLoaded()
      modifies this`ttsLoaded, this`effects
      ensures ttsLoaded
      ensures effects == old(effects) + [CrashLog(TtsLoadedFrom)]
        + (if old(ttsLoaded) then [Warn(TtsAlreadyLoaded), CrashReport(TtsAlreadyLoaded)]
           else if initialized then [Started(Audible)]
           else [])
    {
      effects := effects + [CrashLog(TtsLoadedFrom)];
      if !ttsLoaded {
        ttsLoaded := true;
        if initialized {
          effects := effects + [Started(Audible)];
        }
      } else {
        effects := effects + [Warn(TtsAlreadyLoaded), CrashReport(TtsAlreadyLoaded)];
      }
    }

    /** `stop`: one activity fewer; when none is left the idle check is scheduled after 10 s. */
    method Stop()
      requires Valid()
      modifies this`startCount, this`effects
      ensures Valid()
      ensures startCount == Wrap32(old(startCount) - 1)
      ensures effects == old(effects) + (if startCount == 0 then [ShutdownScheduled(SHUTDOWN_DELAY)] else [])
    {
      startCount := Wrap32(startCount - 1);
      if startCount == 0 {
        effects := effects + [ShutdownScheduled(SHUTDOWN_DELAY)];
      }
    }

    /**
     * `stopIfIdle`: with the services up and no activity left, stop them all in the reverse
     * order and clear `initialized`, unless a track is being recorded or the audible is on, in
     * which case each reason is warned about and everything keeps running.
     */
    method StopIfIdle(loggerLogging: bool, audibleEnabled: bool)
      modifies this`initialized, this`effects
      ensures var idle := old(initialized) && startCount == 0;
        && initialized == (old(initialized) && !(idle && !loggerLogging && !audibleEnabled))
        && effects == old(effects)
             + (if !idle then []
                else if !loggerLogging && !audibleEnabled then ShutdownEffects()
                else (if loggerLogging then [Warn(StillRecording)] else [])
                     + (if audibleEnabled then [Warn(AudibleStillActive)] else []))
    {
      if initialized && startCount == 0 {
        if !loggerLogging && !audibleEnabled {
          effects := effects + ShutdownEffects();
          initialized := false;
        } else {
          if loggerLogging {
            effects := effects + [Warn(StillRecording)];
          }
          if audibleEnabled {
            effects := effects + [Warn(AudibleStillActive)];
          }
        }
      }
    }
  }
}
