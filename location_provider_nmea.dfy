/**
 * LocationProviderNMEA.java, `onNmeaReceived`: one NMEA 0183 sentence is trimmed, split on ','
 * and '*', and dispatched on the three letters after the talker id (GSA, GSV, GGA, RMC, GNS,
 * VTG, PWR). Each formatter overwrites some of the most recent fix values; only RMC hands a
 * location on. Malformed tags and checksums are merely logged.
 *
 * The helpers of the NMEA and Convert classes, the library number parsers and the trigonometry
 * are not part of this model: they arrive as the functions of an `NmeaLib`. An exception that
 * escapes the listener is the `Threw` outcome; assignments made before it stay made, as in Java.
 */
module NmeaLocation {
  import opened JavaLang
  import opened JavaStrings
  import Util
  import Decimal

  /** The collaborators the decoder calls. */
  datatype NmeaLib = NmeaLib(
    checksumOk: string -> bool,                  // NMEA.nmeaChecksum
    degreesMinutes: (string, string) -> Double,  // NMEA.parseDegreesMinutes(value, hemisphere)
    parseDate: string -> int,                    // NMEA.parseDate: ms from epoch to that midnight
    parseTime: string -> int,                    // NMEA.parseTime: ms since midnight
    parseDouble: string -> Option<Double>,       // Double.parseDouble (None: NumberFormatException)
    parseFloat: string -> Option<Double>,        // Float.parseFloat (None: NumberFormatException)
    characterDigit: char -> Option<nat>,         // Character.digit(c, 10), as Integer.parseInt reads digits
    kts2mps: Double -> Double,                   // Convert.kts2mps
    cosDeg: Double -> Double,                    // Math.cos(Math.toRadians(x))
    sinDeg: Double -> Double)                    // Math.sin(Math.toRadians(x))

  /** The most recent data, as the provider keeps it between sentences. */
  datatype Fix = Fix(
    lastFixMillis: int,
    latitude: Double,
    longitude: Double,
    altitudeGps: Double,
    vN: Double,
    vE: Double,
    groundSpeed: Double,
    bearing: Double,
    pdop: Double,
    hdop: Double,
    vdop: Double,
    dateTime: int,
    gpsFix: int,
    satellitesInView: int,
    satellitesUsed: int,
    groundDistance: Double)

  /** The `MLocation` handed to `LocationProvider.updateLocation`. */
  datatype MLocation = MLocation(
    millis: int, latitude: Double, longitude: Double, altitudeGps: Double, vN: Double, vE: Double,
    hAcc: Double, pdop: Double, hdop: Double, vdop: Double, satellitesUsed: int, groundDistance: Double)

  datatype NmeaLog =
    | FirstReceived                              // "First NMEA string received"
    | InvalidTag(tag: string)                    // "Invalid NMEA tag: ..."
    | InvalidChecksum(nmea: string)              // "Invalid NMEA checksum: ..."
    | ExpectedMeters(unit: string, nmea: string) // "Expected meters, was ..."
    | InvalidTimestamp(millis: int, nmea: string)
    | ClockOff(difference: int)                  // "System clock off by %ds"
    | UnknownCommand(timestamp: int, nmea: string)
    | Reported(e: JavaException)                 // FirebaseCrash.report in Util.parseFloat / parseDouble

  /** What one sentence does: the new fix values, the new log lines and locations, how it ended. */
  datatype Applied = Applied(fix: Fix, logs: seq<NmeaLog>, emitted: seq<MLocation>, outcome: Outcome)

  function Thrown(f: Fix, e: JavaException): Applied {
    Applied(f, [], [], Threw(e))
  }

  /** An exception after some fields were parsed: their reports stay logged. */
  function ThrownAfter(f: Fix, logs: seq<NmeaLog>, e: JavaException): Applied {
    Applied(f, logs, [], Threw(e))
  }

  function Done(f: Fix): Applied {
    Applied(f, [], [], Completed)
  }

  /** The private `parseInt`: -1 for an empty field, else `Integer.parseInt` (None where it throws). */
  function FieldInt(s: string, lib: NmeaLib): Option<int> {
    if s == "" then Some(-1) else Util.ParseIntStrict(s, lib.characterDigit)
  }

  function FieldDouble(s: string, lib: NmeaLib): Util.Parsed<Double> {
    Util.ParseDouble(Some(s), lib.parseDouble)
  }

  function FieldFloat(s: string, lib: NmeaLib): Util.Parsed<Double> {
    Util.ParseFloat(Some(s), lib.parseFloat)
  }

  /** The crash report a parse helper sent, if any. */
  function Reports(p: Util.Parsed<Double>): seq<NmeaLog> {
    if p.reported then [Reported(NumberFormat)] else []
  }

  /** The location `updateLocation` builds from the fix; the horizontal accuracy is always NaN. */
  function LocationOf(f: Fix): MLocation {
    MLocation(f.lastFixMillis, f.latitude, f.longitude, f.altitudeGps, f.vN, f.vE,
              NaN, f.pdop, f.hdop, f.vdop, f.satellitesUsed, f.groundDistance)
  }

  function Abs(x: int): nat {
    if x < 0 then -x else x
  }

  // ---------------------------------------------------------------------------
  // The formatters, in the order Java evaluates each case

  /** GSA: the three dilutions of precision, counted from the end of the fields. */
  function GsaStep(f: Fix, split: seq<string>, lib: NmeaLib): Applied {
    var n := |split|;
    if n < 4 then Thrown(f, ArrayIndexOutOfBounds)
    else
      var p := FieldFloat(split[n - 4], lib);
      var h := FieldFloat(split[n - 3], lib);
      var v := FieldFloat(split[n - 2], lib);
      Applied(f.(pdop := p.value, hdop := h.value, vdop := v.value), Reports(p) + Reports(h) + Reports(v), [], Completed)
  }

  /** GSV: the satellites in view. */
  function GsvStep(f: Fix, split: seq<string>, lib: NmeaLib): Applied {
    if |split| < 4 then Thrown(f, ArrayIndexOutOfBounds)
    else match FieldInt(split[3], lib)
      case None => Thrown(f, NumberFormat)
      case Some(v) => Done(f.(satellitesInView := v))
  }

  /** GGA: position, fix quality, satellites used, hdop and, when present, the altitude. */
  function GgaStep(f: Fix, split: seq<string>, nmea: string, lib: NmeaLib): Applied {
    if |split| < 4 then Thrown(f, ArrayIndexOutOfBounds)
    else
      var f1 := f.(latitude := lib.degreesMinutes(split[2], split[3]));
      if |split| < 6 then Thrown(f1, ArrayIndexOutOfBounds)
      else
        var f2 := f1.(longitude := lib.degreesMinutes(split[4], split[5]));
        if |split| < 7 then Thrown(f2, ArrayIndexOutOfBounds)
        else match FieldInt(split[6], lib)
          case None => Thrown(f2, NumberFormat)
          case Some(quality) =>
            var f3 := f2.(gpsFix := quality);
            if |split| < 8 then Thrown(f3, ArrayIndexOutOfBounds)
            else match FieldInt(split[7], lib)
              case None => Thrown(f3, NumberFormat)
              case Some(used) =>
                var f4 := f3.(satellitesUsed := used);
                if |split| < 9 then Thrown(f4, ArrayIndexOutOfBounds)
                else GgaTail(f4, split, nmea, lib)
  }

  /** The rest of GGA, from the hdop in field 8 on. */
  function GgaTail(f: Fix, split: seq<string>, nmea: string, lib: NmeaLib): Applied
    requires |split| >= 9
  {
    var hdop := FieldFloat(split[8], lib);
    var f5 := f.(hdop := hdop.value);
    if |split| < 10 then ThrownAfter(f5, Reports(hdop), ArrayIndexOutOfBounds)
    else if split[9] == "" then Applied(f5, Reports(hdop), [], Completed)
    else if |split| < 11 then ThrownAfter(f5, Reports(hdop), ArrayIndexOutOfBounds)
    else
      var unitLog := if split[10] != "M" then [ExpectedMeters(split[10], nmea)] else [];
      var altitude := FieldDouble(split[9], lib);
      Applied(f5.(altitudeGps := altitude.value), Reports(hdop) + unitLog + Reports(altitude), [], Completed)
  }

  /** The advisory messages about an RMC time; they change nothing. */
  function RmcTimeLogs(gpsFix: int, lastFixMillis: int, nmea: string, nowMillis: int): seq<NmeaLog> {
    if gpsFix == 0 then []
    else if lastFixMillis <= 0 then [InvalidTimestamp(lastFixMillis, nmea)]
    else if Abs(nowMillis - lastFixMillis) > 60000 then [ClockOff(nowMillis - lastFixMillis)]
    else []
  }

  /** Whether an RMC fix is handed on: some coordinate or velocity component is a real number. */
  predicate Emits(f: Fix) {
    Util.IsReal(f.latitude) || Util.IsReal(f.longitude) || Util.IsReal(f.vN) || Util.IsReal(f.vE)
  }

  /** RMC: position, speed and course, then `RmcCommit`. */
  function RmcStep(f: Fix, split: seq<string>, nmea: string, lib: NmeaLib, nowMillis: int): Applied {
    if |split| < 5 then Thrown(f, ArrayIndexOutOfBounds)
    else
      var f1 := f.(latitude := lib.degreesMinutes(split[3], split[4]));
      if |split| < 7 then Thrown(f1, ArrayIndexOutOfBounds)
      else
        var f2 := f1.(longitude := lib.degreesMinutes(split[5], split[6]));
        if |split| < 8 then Thrown(f2, ArrayIndexOutOfBounds)
        else
          var speed := FieldDouble(split[7], lib);
          var f3 := f2.(groundSpeed := lib.kts2mps(speed.value));
          if |split| < 9 then ThrownAfter(f3, Reports(speed), ArrayIndexOutOfBounds)
          else
            var bearing := FieldDouble(split[8], lib);
            var f4 := f3.(bearing := bearing.value);
            var parsed := Reports(speed) + Reports(bearing);
            if |split| < 10 then ThrownAfter(f4, parsed, ArrayIndexOutOfBounds)
            else
              var c := RmcCommit(f4, split, nmea, lib, nowMillis);
              c.(logs := parsed + c.logs)
  }

  /** The rest of RMC: date and time of the fix, the velocity components, and the location. */
  function RmcCommit(f: Fix, split: seq<string>, nmea: string, lib: NmeaLib, nowMillis: int): Applied
    requires |split| >= 10
  {
    var date := lib.parseDate(split[9]);
    var last := date + lib.parseTime(split[1]);
    var g := f.(dateTime := date, lastFixMillis := last,
                vN := Mul(f.groundSpeed, lib.cosDeg(f.bearing)),
                vE := Mul(f.groundSpeed, lib.sinDeg(f.bearing)));
    Applied(g, RmcTimeLogs(g.gpsFix, last, nmea, nowMillis), if Emits(g) then [LocationOf(g)] else [], Completed)
  }

  /** GNS: time on the stored date, position, and the optional altitude and satellites used. */
  function GnsStep(f: Fix, split: seq<string>, lib: NmeaLib): Applied {
    if |split| < 2 then Thrown(f, ArrayIndexOutOfBounds)
    else
      var f1 := f.(lastFixMillis := f.dateTime + lib.parseTime(split[1]));
      if |split| < 4 then Thrown(f1, ArrayIndexOutOfBounds)
      else
        var f2 := f1.(latitude := lib.degreesMinutes(split[2], split[3]));
        if |split| < 6 then Thrown(f2, ArrayIndexOutOfBounds)
        else
          var f3 := f2.(longitude := lib.degreesMinutes(split[4], split[5]));
          if |split| < 10 then Thrown(f3, ArrayIndexOutOfBounds)
          else
            var altitude := FieldDouble(split[9], lib);
            var f4 := if split[9] != "" then f3.(altitudeGps := altitude.value) else f3;
            var parsed := if split[9] != "" then Reports(altitude) else [];
            if split[7] == "" then Applied(f4, parsed, [], Completed)
            else match Util.ParseIntStrict(split[7], lib.characterDigit)
              case None => ThrownAfter(f4, parsed, NumberFormat)
              case Some(used) => Applied(f4.(satellitesUsed := used), parsed, [], Completed)
  }

  /** VTG: course and speed over ground. */
  function VtgStep(f: Fix, split: seq<string>, lib: NmeaLib): Applied {
    if |split| < 2 then Thrown(f, ArrayIndexOutOfBounds)
    else
      var bearing := FieldDouble(split[1], lib);
      var f1 := f.(bearing := bearing.value);
      if |split| < 6 then ThrownAfter(f1, Reports(bearing), ArrayIndexOutOfBounds)
      else
        var speed := FieldDouble(split[5], lib);
        Applied(f1.(groundSpeed := lib.kts2mps(speed.value)), Reports(bearing) + Reports(speed), [], Completed)
  }

  /** The cases of the `switch (command)`; `Other` is the default. */
  datatype Command = GSA | GSV | GGA | RMC | GNS | VTG | PWR | Other

  function CommandOf(command: string): (c: Command)
    ensures c == Other <==> command !in ["GSA", "GSV", "GGA", "RMC", "GNS", "VTG", "PWR"]
  {
    if command == "GSA" then GSA
    else if command == "GSV" then GSV
    else if command == "GGA" then GGA
    else if command == "RMC" then RMC
    else if command == "GNS" then GNS
    else if command == "VTG" then VTG
    else if command == "PWR" then PWR
    else Other
  }

  /** The `switch (command)`. */
  function Dispatch(command: Command, f: Fix, split: seq<string>, timestamp: int, nmea: string,
                    lib: NmeaLib, nowMillis: int): Applied
  {
    match command
    case GSA => GsaStep(f, split, lib)
    case GSV => GsvStep(f, split, lib)
    case GGA => GgaStep(f, split, nmea, lib)
    case RMC => RmcStep(f, split, nmea, lib, nowMillis)
    case GNS => GnsStep(f, split, lib)
    case VTG => VtgStep(f, split, lib)
    case PWR => Done(f)
    case Other => Applied(f, [UnknownCommand(timestamp, nmea)], [], Completed)
  }

  function TagLog(tag: string): seq<NmeaLog> {
    if |tag| == 0 || tag[0] != '$' || |tag| != 6 then [InvalidTag(tag)] else []
  }

  function ChecksumLog(nmea: string, lib: NmeaLib): seq<NmeaLog> {
    if !lib.checksumOk(nmea) then [InvalidChecksum(nmea)] else []
  }

  /**
   * The whole listener on the fix `f`, given whether a sentence had been received before:
   * the latch message, then a missing first field or a first field too short for the command
   * ends it; otherwise the tag and checksum messages and the formatter of the command.
   */
  function Receive(f: Fix, received: bool, timestamp: int, line: string, lib: NmeaLib, nowMillis: int): Applied {
    var nmea := Trim(line);
    ReceiveFields(f, received, timestamp, nmea, Split(nmea), lib, nowMillis)
  }

  /** Receive, once the trimmed sentence has been split: the latch message, then the rest. */
  function ReceiveFields(f: Fix, received: bool, timestamp: int, nmea: string, split: seq<string>,
                         lib: NmeaLib, nowMillis: int): Applied
  {
    Latch(received, Latched(f, timestamp, nmea, split, lib, nowMillis))
  }

  /** The latch message in front of what follows, on the first sentence only. */
  function Latch(received: bool, u: Applied): Applied {
    u.(logs := (if received then [] else [FirstReceived]) + u.logs)
  }

  /**
   * What follows the latch: a missing first field fails at `split[0]`, a first field too short
   * for the command at `substring(3, 6)`; otherwise the checks and the formatter.
   */
  function Latched(f: Fix, timestamp: int, nmea: string, split: seq<string>, lib: NmeaLib, nowMillis: int): Applied
  {
    if |split| == 0 then Applied(f, [], [], Threw(ArrayIndexOutOfBounds))
    else if |split[0]| < 6 then Applied(f, [], [], Threw(StringIndexOutOfBounds))
    else Checked(f, timestamp, nmea, split, lib, nowMillis)
  }

  /** The parts of `Checked`, to be used without unfolding the formatters. */
  lemma CheckedParts(f: Fix, timestamp: int, nmea: string, split: seq<string>, lib: NmeaLib, nowMillis: int,
                     d: Applied)
    requires |split| > 0 && |split[0]| >= 6
    requires d == Dispatch(CommandOf(split[0][3..6]), f, split, timestamp, nmea, lib, nowMillis)
    ensures var c := Checked(f, timestamp, nmea, split, lib, nowMillis);
      c.fix == d.fix && c.emitted == d.emitted && c.outcome == d.outcome
      && c.logs == TagLog(split[0]) + ChecksumLog(nmea, lib) + d.logs
  {
  }

  /** A first field long enough for a command: the tag and checksum messages, then the formatter. */
  function Checked(f: Fix, timestamp: int, nmea: string, split: seq<string>, lib: NmeaLib, nowMillis: int): Applied
    requires |split| > 0 && |split[0]| >= 6
  {
    var d := Dispatch(CommandOf(split[0][3..6]), f, split, timestamp, nmea, lib, nowMillis);
    d.(logs := TagLog(split[0]) + ChecksumLog(nmea, lib) + d.logs)
  }

  // ---------------------------------------------------------------------------
  // The provider

  class LocationProviderNMEA {
    var nmeaReceived: bool
    /**
     * The most recent data (`lastFixMillis`, `latitude`, ... `gpsFix`, and the satellite counts
     * and ground distance the superclass keeps), updated one field at a time.
     */
    var fix: Fix
    /** The locations handed to `LocationProvider.updateLocation`, and the log lines. */
    var emitted: seq<MLocation>
    var logs: seq<NmeaLog>

    /** The fix is d's, and d's log lines and locations follow the given ones. */
    ghost predicate Took(d: Applied, outcome: Outcome, logsBefore: seq<NmeaLog>, emittedBefore: seq<MLocation>)
      reads this
    {
      fix == d.fix && outcome == d.outcome && logs == logsBefore + d.logs && emitted == emittedBefore + d.emitted
    }

    /**
     * The field initialisers: no sentence yet, no time, every measurement NaN. The superclass's
     * satellite counts and ground distance are not part of this model and start unconstrained.
     */
    constructor (satellitesInView: int, satellitesUsed: int, groundDistance: Double)
      ensures !nmeaReceived && emitted == [] && logs == []
      ensures fix == Fix(-1, NaN, NaN, NaN, NaN, NaN, NaN, NaN, NaN, NaN, NaN, 0, 0,
                         satellitesInView, satellitesUsed, groundDistance)
    {
      nmeaReceived := false;
      fix := Fix(-1, NaN, NaN, NaN, NaN, NaN, NaN, NaN, NaN, NaN, NaN, 0, 0,
                 satellitesInView, satellitesUsed, groundDistance);
      emitted, logs := [], [];
    }

    /**
     * `onNmeaReceived(timestamp, nmea)`: the latch is set whatever follows, and fix, log lines,
     * locations and outcome are those of `Receive` on the fix before the call, that is, of
     * `ReceiveFields` on the trimmed sentence and its fields.
     */
    method OnNmeaReceived(timestamp: int, line: string, lib: NmeaLib, nowMillis: int)
      returns (outcome: Outcome)
      modifies this
      ensures nmeaReceived
      ensures Took(ReceiveFields(old(fix), old(nmeaReceived), timestamp, Trim(line), Split(Trim(line)), lib, nowMillis),
                   outcome, old(logs), old(emitted))
    {
      var nmea := Trim(line);
      outcome := ReceiveSplit(timestamp, nmea, Split(nmea), lib, nowMillis);
    }

    /** The listener once the sentence is trimmed and split: the latch, then the rest. */
    method ReceiveSplit(timestamp: int, nmea: string, split: seq<string>, lib: NmeaLib, nowMillis: int)
      returns (outcome: Outcome)
      modifies this
      ensures nmeaReceived
      ensures Took(ReceiveFields(old(fix), old(nmeaReceived), timestamp, nmea, split, lib, nowMillis),
                   outcome, old(logs), old(emitted))
    {
      ghost var l0, e0, received0 := logs, emitted, nmeaReceived;
      ghost var u := Latched(fix, timestamp, nmea, split, lib, nowMillis);
      SetReceived();
      outcome := ReceiveLatched(timestamp, nmea, split, lib, nowMillis);
      TookLatch(u, received0, outcome, l0, e0);
    }

    /** Taking what follows the latch, after the latch line, is taking both. */
    lemma TookLatch(u: Applied, received: bool, outcome: Outcome, logsBefore: seq<NmeaLog>, emittedBefore: seq<MLocation>)
      requires Took(u, outcome, logsBefore + (if received then [] else [FirstReceived]), emittedBefore)
      ensures Took(Latch(received, u), outcome, logsBefore, emittedBefore)
    {
      AppendAssoc(logsBefore, if received then [] else [FirstReceived], [], u.logs);
    }

    /** The `nmeaReceived` latch and its one log line. */
    method SetReceived()
      modifies this
      ensures nmeaReceived && fix == old(fix) && emitted == old(emitted)
      ensures logs == old(logs) + (if old(nmeaReceived) then [] else [FirstReceived])
    {
      if !nmeaReceived {
        logs := logs + [FirstReceived];
        nmeaReceived := true;
      }
    }

    /** After the latch: the two failing field accesses, then the checks and the `switch`. */
    method ReceiveLatched(timestamp: int, nmea: string, split: seq<string>, lib: NmeaLib, nowMillis: int)
      returns (outcome: Outcome)
      modifies this
      ensures Took(Latched(old(fix), timestamp, nmea, split, lib, nowMillis), outcome, old(logs), old(emitted))
      ensures nmeaReceived == old(nmeaReceived)
    {
      if |split| == 0 {
        return Threw(ArrayIndexOutOfBounds);
      }
      if |split[0]| < 6 {
        return Threw(StringIndexOutOfBounds);
      }
      outcome := CheckAndDispatch(timestamp, nmea, split, lib, nowMillis);
    }

    /** The sanity checks on tag and checksum, then the `switch`. */
    method CheckAndDispatch(timestamp: int, nmea: string, split: seq<string>, lib: NmeaLib, nowMillis: int)
      returns (outcome: Outcome)
      requires |split| > 0 && |split[0]| >= 6
      modifies this
      ensures Took(Checked(old(fix), timestamp, nmea, split, lib, nowMillis), outcome, old(logs), old(emitted))
      ensures nmeaReceived == old(nmeaReceived)
    {
      ghost var f0, l0, e0 := fix, logs, emitted;
      var command := split[0][3..6];
      if split[0][0] != '$' || |split[0]| != 6 {
        logs := logs + [InvalidTag(split[0])];
      }
      assert logs == l0 + TagLog(split[0]);
      ghost var l2 := logs;
      if !lib.checksumOk(nmea) {
        logs := logs + [InvalidChecksum(nmea)];
      }
      assert logs == l2 + ChecksumLog(nmea, lib);
      ghost var d := Dispatch(CommandOf(command), f0, split, timestamp, nmea, lib, nowMillis);
      outcome := DispatchCommand(CommandOf(command), split, timestamp, nmea, lib, nowMillis);
      CheckedParts(f0, timestamp, nmea, split, lib, nowMillis, d);
      AppendAssoc(l0, TagLog(split[0]), ChecksumLog(nmea, lib), d.logs);
    }

    /** The `switch (command)`. */
    method DispatchCommand(command: Command, split: seq<string>, timestamp: int, nmea: string,
                           lib: NmeaLib, nowMillis: int) returns (outcome: Outcome)
      modifies this
      ensures Took(Dispatch(command, old(fix), split, timestamp, nmea, lib, nowMillis), outcome, old(logs), old(emitted))
      ensures nmeaReceived == old(nmeaReceived)
    {
      match command
      case GSA => outcome := OnGsa(split, lib);
      case GSV => outcome := OnGsv(split, lib);
      case GGA => outcome := OnGga(split, nmea, lib);
      case RMC => outcome := OnRmc(split, nmea, lib, nowMillis);
      case GNS => outcome := OnGns(split, lib);
      case VTG => outcome := OnVtg(split, lib);
      case PWR => outcome := Completed;
      case Other =>
        logs := logs + [UnknownCommand(timestamp, nmea)];
        outcome := Completed;
    }

    method OnGsa(split: seq<string>, lib: NmeaLib) returns (outcome: Outcome)
      modifies this
      ensures Took(GsaStep(old(fix), split, lib), outcome, old(logs), old(emitted))
      ensures nmeaReceived == old(nmeaReceived)
    {
      var n := |split|;
      if n < 4 {
        return Threw(ArrayIndexOutOfBounds);
      }
      var p := FieldFloat(split[n - 4], lib);
      fix := fix.(pdop := p.value);
      logs := logs + Reports(p);
      var h := FieldFloat(split[n - 3], lib);
      fix := fix.(hdop := h.value);
      logs := logs + Reports(h);
      var v := FieldFloat(split[n - 2], lib);
      fix := fix.(vdop := v.value);
      logs := logs + Reports(v);
      outcome := Completed;
    }

    method OnGsv(split: seq<string>, lib: NmeaLib) returns (outcome: Outcome)
      modifies this
      ensures Took(GsvStep(old(fix), split, lib), outcome, old(logs), old(emitted))
      ensures nmeaReceived == old(nmeaReceived)
    {
      if |split| < 4 {
        return Threw(ArrayIndexOutOfBounds);
      }
      var v := FieldInt(split[3], lib);
      if v.None? {
        return Threw(NumberFormat);
      }
      fix := fix.(satellitesInView := v.value);
      outcome := Completed;
    }

    method OnGga(split: seq<string>, nmea: string, lib: NmeaLib) returns (outcome: Outcome)
      modifies this
      ensures Took(GgaStep(old(fix), split, nmea, lib), outcome, old(logs), old(emitted))
      ensures nmeaReceived == old(nmeaReceived)
    {
      if |split| < 4 {
        return Threw(ArrayIndexOutOfBounds);
      }
      fix := fix.(latitude := lib.degreesMinutes(split[2], split[3]));
      if |split| < 6 {
        return Threw(ArrayIndexOutOfBounds);
      }
      fix := fix.(longitude := lib.degreesMinutes(split[4], split[5]));
      if |split| < 7 {
        return Threw(ArrayIndexOutOfBounds);
      }
      var quality := FieldInt(split[6], lib);
      if quality.None? {
        return Threw(NumberFormat);
      }
      fix := fix.(gpsFix := quality.value);
      if |split| < 8 {
        return Threw(ArrayIndexOutOfBounds);
      }
      var used := FieldInt(split[7], lib);
      if used.None? {
        return Threw(NumberFormat);
      }
      fix := fix.(satellitesUsed := used.value);
      if |split| < 9 {
        return Threw(ArrayIndexOutOfBounds);
      }
      outcome := GgaFinish(split, nmea, lib);
    }

    /** GGA from the hdop on: hdop, then the unit check and the altitude when field 9 is set. */
    method GgaFinish(split: seq<string>, nmea: string, lib: NmeaLib) returns (outcome: Outcome)
      requires |split| >= 9
      modifies this
      ensures Took(GgaTail(old(fix), split, nmea, lib), outcome, old(logs), old(emitted))
      ensures nmeaReceived == old(nmeaReceived)
    {
      var hdop := FieldFloat(split[8], lib);
      fix := fix.(hdop := hdop.value);
      logs := logs + Reports(hdop);
      if |split| < 10 {
        return Threw(ArrayIndexOutOfBounds);
      }
      if split[9] != "" {
        if |split| < 11 {
          return Threw(ArrayIndexOutOfBounds);
        }
        ghost var l0 := logs;
        if split[10] != "M" {
          logs := logs + [ExpectedMeters(split[10], nmea)];
        }
        assert logs == l0 + (if split[10] != "M" then [ExpectedMeters(split[10], nmea)] else []);
        var altitude := FieldDouble(split[9], lib);
        fix := fix.(altitudeGps := altitude.value);
        logs := logs + Reports(altitude);
      }
      outcome := Completed;
    }

    method OnRmc(split: seq<string>, nmea: string, lib: NmeaLib, nowMillis: int) returns (outcome: Outcome)
      modifies this
      ensures Took(RmcStep(old(fix), split, nmea, lib, nowMillis), outcome, old(logs), old(emitted))
      ensures nmeaReceived == old(nmeaReceived)
    {
      if |split| < 5 {
        return Threw(ArrayIndexOutOfBounds);
      }
      fix := fix.(latitude := lib.degreesMinutes(split[3], split[4]));
      if |split| < 7 {
        return Threw(ArrayIndexOutOfBounds);
      }
      fix := fix.(longitude := lib.degreesMinutes(split[5], split[6]));
      if |split| < 8 {
        return Threw(ArrayIndexOutOfBounds);
      }
      var speed := FieldDouble(split[7], lib);
      fix := fix.(groundSpeed := lib.kts2mps(speed.value));
      logs := logs + Reports(speed);
      if |split| < 9 {
        return Threw(ArrayIndexOutOfBounds);
      }
      var bearing := FieldDouble(split[8], lib);
      fix := fix.(bearing := bearing.value);
      logs := logs + Reports(bearing);
      if |split| < 10 {
        return Threw(ArrayIndexOutOfBounds);
      }
      ghost var l0 := logs;
      ghost var c := RmcCommit(fix, split, nmea, lib, nowMillis);
      RmcFinish(split, nmea, lib, nowMillis);
      assert logs == old(logs) + (Reports(speed) + Reports(bearing) + c.logs);
      outcome := Completed;
    }

    /** The date and time, the clock messages, the velocity components and the emission of RMC. */
    method RmcFinish(split: seq<string>, nmea: string, lib: NmeaLib, nowMillis: int)
      requires |split| >= 10
      modifies this
      ensures Took(RmcCommit(old(fix), split, nmea, lib, nowMillis), Completed, old(logs), old(emitted))
      ensures nmeaReceived == old(nmeaReceived)
    {
      fix := fix.(dateTime := lib.parseDate(split[9]));
      fix := fix.(lastFixMillis := fix.dateTime + lib.parseTime(split[1]));
      if fix.gpsFix == 0 {
      } else if fix.lastFixMillis <= 0 {
        logs := logs + [InvalidTimestamp(fix.lastFixMillis, nmea)];
      } else if Abs(nowMillis - fix.lastFixMillis) > 60000 {
        logs := logs + [ClockOff(nowMillis - fix.lastFixMillis)];
      }
      fix := fix.(vN := Mul(fix.groundSpeed, lib.cosDeg(fix.bearing)));
      fix := fix.(vE := Mul(fix.groundSpeed, lib.sinDeg(fix.bearing)));
      if Util.IsReal(fix.latitude) || Util.IsReal(fix.longitude) || Util.IsReal(fix.vN) || Util.IsReal(fix.vE) {
        UpdateLocation();
      }
    }

    method OnGns(split: seq<string>, lib: NmeaLib) returns (outcome: Outcome)
      modifies this
      ensures Took(GnsStep(old(fix), split, lib), outcome, old(logs), old(emitted))
      ensures nmeaReceived == old(nmeaReceived)
    {
      if |split| < 2 {
        return Threw(ArrayIndexOutOfBounds);
      }
      fix := fix.(lastFixMillis := fix.dateTime + lib.parseTime(split[1]));
      if |split| < 4 {
        return Threw(ArrayIndexOutOfBounds);
      }
      fix := fix.(latitude := lib.degreesMinutes(split[2], split[3]));
      if |split| < 6 {
        return Threw(ArrayIndexOutOfBounds);
      }
      fix := fix.(longitude := lib.degreesMinutes(split[4], split[5]));
      if |split| < 10 {
        return Threw(ArrayIndexOutOfBounds);
      }
      if split[9] != "" {
        var altitude := FieldDouble(split[9], lib);
        fix := fix.(altitudeGps := altitude.value);
        logs := logs + Reports(altitude);
      }
      if split[7] != "" {
        var used := Util.ParseIntStrict(split[7], lib.characterDigit);
        if used.None? {
          return Threw(NumberFormat);
        }
        fix := fix.(satellitesUsed := used.value);
      }
      outcome := Completed;
    }

    method OnVtg(split: seq<string>, lib: NmeaLib) returns (outcome: Outcome)
      modifies this
      ensures Took(VtgStep(old(fix), split, lib), outcome, old(logs), old(emitted))
      ensures nmeaReceived == old(nmeaReceived)
    {
      if |split| < 2 {
        return Threw(ArrayIndexOutOfBounds);
      }
      var bearing := FieldDouble(split[1], lib);
      fix := fix.(bearing := bearing.value);
      logs := logs + Reports(bearing);
      if |split| < 6 {
        return Threw(ArrayIndexOutOfBounds);
      }
      var speed := FieldDouble(split[5], lib);
      fix := fix.(groundSpeed := lib.kts2mps(speed.value));
      logs := logs + Reports(speed);
      outcome := Completed;
    }

    /** `updateLocation`: hands the current fix on, changing nothing else. */
    method UpdateLocation()
      modifies this
      ensures emitted == old(emitted) + [LocationOf(old(fix))]
      ensures fix == old(fix) && logs == old(logs) && nmeaReceived == old(nmeaReceived)
    {
      emitted := emitted + [LocationOf(fix)];
    }
  }

  // ---------------------------------------------------------------------------
  // What the decoder promises

  /**
   * A sentence whose first field holds a command is dispatched on it whatever its tag and
   * checksum: those only add their log lines in front of the formatter's.
   */
  lemma ReceiveDispatches(f: Fix, received: bool, timestamp: int, line: string, lib: NmeaLib, nowMillis: int)
    requires var split := Split(Trim(line)); |split| > 0 && |split[0]| >= 6
    ensures var nmea := Trim(line);
      var split := Split(nmea);
      var d := Dispatch(CommandOf(split[0][3..6]), f, split, timestamp, nmea, lib, nowMillis);
      var r := Receive(f, received, timestamp, line, lib, nowMillis);
      && r.fix == d.fix && r.emitted == d.emitted && r.outcome == d.outcome
      && r.logs == (if received then [] else [FirstReceived]) + TagLog(split[0]) + ChecksumLog(nmea, lib) + d.logs
  {
    var nmea := Trim(line);
    var split := Split(nmea);
    var d := Dispatch(CommandOf(split[0][3..6]), f, split, timestamp, nmea, lib, nowMillis);
    CheckedParts(f, timestamp, nmea, split, lib, nowMillis, d);
    AppendAssoc(if received then [] else [FirstReceived], TagLog(split[0]), ChecksumLog(nmea, lib), d.logs);
  }

  /** Regrouping the log lines that precede the formatter's. */
  lemma AppendAssoc<T>(a: seq<T>, b: seq<T>, c: seq<T>, e: seq<T>)
    ensures a + b + c + e == a + (b + c + e)
  {
  }


  // Receive as a whole

  /**
   * The latch line is logged exactly on the first sentence, whatever the sentence holds
   * (stated for the trimmed sentence and its fields, which `Receive` passes in).
   */
  lemma ReceiveLatch(f: Fix, received: bool, timestamp: int, nmea: string, split: seq<string>,
                     lib: NmeaLib, nowMillis: int)
    ensures var r := ReceiveFields(f, received, timestamp, nmea, split, lib, nowMillis);
      && (!received <==> |r.logs| > 0 && r.logs[0] == FirstReceived)
      && (received ==> FirstReceived !in r.logs)
  {
    if |split| > 0 && |split[0]| >= 6 {
      var d := Dispatch(CommandOf(split[0][3..6]), f, split, timestamp, nmea, lib, nowMillis);
      DispatchLogs(CommandOf(split[0][3..6]), f, split, timestamp, nmea, lib, nowMillis);
      LatchLine(received, TagLog(split[0]), ChecksumLog(nmea, lib), d.logs);
    }
  }

  /** The latch line in front of lines that do not contain it. */
  lemma LatchLine(received: bool, tag: seq<NmeaLog>, checksum: seq<NmeaLog>, formatter: seq<NmeaLog>)
    requires FirstReceived !in tag + checksum + formatter
    ensures var logs := (if received then [] else [FirstReceived]) + tag + checksum + formatter;
      && (!received <==> |logs| > 0 && logs[0] == FirstReceived)
      && (received ==> FirstReceived !in logs)
  {
    var rest := tag + checksum + formatter;
    if received {
      assert [] + tag + checksum + formatter == rest;
    } else {
      assert [FirstReceived] + tag + checksum + formatter == [FirstReceived] + rest;
    }
  }

  /** No formatter logs the latch line. */
  lemma DispatchLogs(command: Command, f: Fix, split: seq<string>, timestamp: int, nmea: string,
                     lib: NmeaLib, nowMillis: int)
    ensures FirstReceived !in Dispatch(command, f, split, timestamp, nmea, lib, nowMillis).logs
  {
    match command
    case GSA => GsaLogLines(f, split, lib);
    case GGA => GgaLogLines(f, split, nmea, lib);
    case RMC => RmcLogLines(f, split, nmea, lib, nowMillis);
    case GNS => GnsLogLines(f, split, lib);
    case VTG => VtgLogLines(f, split, lib);
    case _ =>
  }

  /**
   * A sentence that splits into nothing fails at `split[0]`, one whose first field is shorter
   * than six characters fails at `substring(3, 6)`: neither gets to the tag check or changes
   * the fix.
   */
  lemma ReceiveMalformedFirstField(f: Fix, received: bool, timestamp: int, line: string, lib: NmeaLib, nowMillis: int)
    requires var split := Split(Trim(line)); |split| == 0 || |split[0]| < 6
    ensures var r := Receive(f, received, timestamp, line, lib, nowMillis);
      && r.fix == f && r.emitted == []
      && r.logs == (if received then [] else [FirstReceived])
      && r.outcome == (if |Split(Trim(line))| == 0 then Threw(ArrayIndexOutOfBounds) else Threw(StringIndexOutOfBounds))
  {
  }

  /** A failed checksum changes nothing but the log. */
  lemma ChecksumOnlyLogged(f: Fix, received: bool, timestamp: int, nmea: string, split: seq<string>,
                           lib: NmeaLib, checksumOk: string -> bool, nowMillis: int)
    ensures var r := ReceiveFields(f, received, timestamp, nmea, split, lib, nowMillis);
      var r' := ReceiveFields(f, received, timestamp, nmea, split, lib.(checksumOk := checksumOk), nowMillis);
      r.fix == r'.fix && r.emitted == r'.emitted && r.outcome == r'.outcome
  {
    if |split| > 0 && |split[0]| >= 6 {
      var c := CommandOf(split[0][3..6]);
      DispatchIgnoresChecksum(c, f, split, timestamp, nmea, lib, checksumOk, nowMillis);
    }
  }

  lemma DispatchIgnoresChecksum(command: Command, f: Fix, split: seq<string>, timestamp: int, nmea: string,
                                lib: NmeaLib, checksumOk: string -> bool, nowMillis: int)
    ensures Dispatch(command, f, split, timestamp, nmea, lib, nowMillis)
         == Dispatch(command, f, split, timestamp, nmea, lib.(checksumOk := checksumOk), nowMillis)
  {
    match command
    case GSA =>
    case GSV =>
    case GGA =>
    case RMC =>
    case GNS =>
    case VTG =>
    case PWR =>
    case Other =>
  }

  /** Only an RMC sentence hands a location on, and never more than one. */
  lemma OnlyRmcEmits(f: Fix, received: bool, timestamp: int, nmea: string, split: seq<string>,
                     lib: NmeaLib, nowMillis: int)
    ensures var r := ReceiveFields(f, received, timestamp, nmea, split, lib, nowMillis);
      && |r.emitted| <= 1
      && (r.emitted != [] ==> |split| >= 10 && |split[0]| >= 6 && split[0][3..6] == "RMC" && r.outcome == Completed)
  {
    if |split| > 0 && |split[0]| >= 6 {
      DispatchEmitsOnlyRmc(CommandOf(split[0][3..6]), f, split, timestamp, nmea, lib, nowMillis);
    }
  }

  lemma DispatchEmitsOnlyRmc(command: Command, f: Fix, split: seq<string>, timestamp: int, nmea: string,
                             lib: NmeaLib, nowMillis: int)
    ensures var d := Dispatch(command, f, split, timestamp, nmea, lib, nowMillis);
      && |d.emitted| <= 1
      && (d.emitted != [] ==> command == RMC && |split| >= 10 && d.outcome == Completed)
  {
    match command
    case RMC =>
    case GGA => GgaFrame(f, split, nmea, lib);
    case _ =>
  }

  // ---------------------------------------------------------------------------
  // The formatters one by one

  /** A parse helper's report is logged exactly for a non-empty field the library parser rejects. */
  lemma FieldReports(s: string, lib: NmeaLib)
    ensures Reports(FieldFloat(s, lib)) == (if s != "" && lib.parseFloat(s).None? then [Reported(NumberFormat)] else [])
    ensures Reports(FieldDouble(s, lib)) == (if s != "" && lib.parseDouble(s).None? then [Reported(NumberFormat)] else [])
  {
  }

  /** A field either library parser accepts, or an empty one. */
  predicate Parses(s: string, lib: NmeaLib) {
    s == "" || (lib.parseDouble(s).Some? && lib.parseFloat(s).Some?)
  }

  predicate AllParse(split: seq<string>, lib: NmeaLib) {
    forall i :: 0 <= i < |split| ==> Parses(split[i], lib)
  }

  /** When every field parses, no command sends a crash report. */
  lemma NoReportWhenFieldsParse(command: Command, f: Fix, split: seq<string>, timestamp: int, nmea: string,
                                lib: NmeaLib, nowMillis: int)
    requires AllParse(split, lib)
    ensures Reported(NumberFormat) !in Dispatch(command, f, split, timestamp, nmea, lib, nowMillis).logs
  {
    match command
    case GSA => GsaLogLines(f, split, lib);
    case GGA => GgaLogLines(f, split, nmea, lib);
    case RMC => RmcLogLines(f, split, nmea, lib, nowMillis);
    case GNS => GnsLogLines(f, split, lib);
    case VTG => VtgLogLines(f, split, lib);
    case _ =>
  }

  /**
   * Per formatter: it never logs the latch line, and it sends a crash report only for a field
   * a library parser rejects.
   */
  lemma GsaLogLines(f: Fix, split: seq<string>, lib: NmeaLib)
    ensures var logs := GsaStep(f, split, lib).logs;
      && FirstReceived !in logs
      && (AllParse(split, lib) ==> Reported(NumberFormat) !in logs)
  {
    if AllParse(split, lib) {
      var n := |split|;
      if n >= 4 {
        FieldReports(split[n - 4], lib);
        FieldReports(split[n - 3], lib);
        FieldReports(split[n - 2], lib);
      }
    }
  }

  lemma GgaLogLines(f: Fix, split: seq<string>, nmea: string, lib: NmeaLib)
    ensures var logs := GgaStep(f, split, nmea, lib).logs;
      && FirstReceived !in logs
      && (AllParse(split, lib) ==> Reported(NumberFormat) !in logs)
  {
    GgaLogs(f, split, nmea, lib);
    if AllParse(split, lib) {
      if |split| >= 9 {
        FieldReports(split[8], lib);
      }
      if |split| >= 10 {
        FieldReports(split[9], lib);
      }
    }
  }

  lemma RmcLogLines(f: Fix, split: seq<string>, nmea: string, lib: NmeaLib, nowMillis: int)
    ensures var logs := RmcStep(f, split, nmea, lib, nowMillis).logs;
      && FirstReceived !in logs
      && (AllParse(split, lib) ==> Reported(NumberFormat) !in logs)
  {
    if |split| >= 10 {
      RmcComplete(f, split, nmea, lib, nowMillis);
      RmcTimeLogLines(f.gpsFix, RmcStep(f, split, nmea, lib, nowMillis).fix.lastFixMillis, nmea, nowMillis);
    }
    if AllParse(split, lib) {
      if |split| >= 8 {
        FieldReports(split[7], lib);
      }
      if |split| >= 9 {
        FieldReports(split[8], lib);
      }
    }
  }

  lemma RmcTimeLogLines(gpsFix: int, lastFixMillis: int, nmea: string, nowMillis: int)
    ensures FirstReceived !in RmcTimeLogs(gpsFix, lastFixMillis, nmea, nowMillis)
    ensures Reported(NumberFormat) !in RmcTimeLogs(gpsFix, lastFixMillis, nmea, nowMillis)
  {
  }

  lemma GnsLogLines(f: Fix, split: seq<string>, lib: NmeaLib)
    ensures var logs := GnsStep(f, split, lib).logs;
      && FirstReceived !in logs
      && (AllParse(split, lib) ==> Reported(NumberFormat) !in logs)
  {
    if AllParse(split, lib) {
      if |split| >= 10 {
        FieldReports(split[9], lib);
      }
    }
  }

  lemma VtgLogLines(f: Fix, split: seq<string>, lib: NmeaLib)
    ensures var logs := VtgStep(f, split, lib).logs;
      && FirstReceived !in logs
      && (AllParse(split, lib) ==> Reported(NumberFormat) !in logs)
  {
    if AllParse(split, lib) {
      if |split| >= 2 {
        FieldReports(split[1], lib);
      }
      if |split| >= 6 {
        FieldReports(split[5], lib);
      }
    }
  }

  /** GSA sets the three dilutions from the 4th, 3rd and 2nd field from the end, and nothing else. */
  lemma GsaSetsDops(f: Fix, split: seq<string>, lib: NmeaLib)
    ensures var r := GsaStep(f, split, lib);
      && r.fix.(pdop := f.pdop, hdop := f.hdop, vdop := f.vdop) == f
      && r.emitted == []
      && (|split| < 4 <==> r.outcome == Threw(ArrayIndexOutOfBounds))
      && (|split| < 4 ==> r.fix == f && r.logs == [])
      && (|split| >= 4 ==>
            var n := |split|;
            && r.fix.pdop == FieldFloat(split[n - 4], lib).value
            && r.fix.hdop == FieldFloat(split[n - 3], lib).value
            && r.fix.vdop == FieldFloat(split[n - 2], lib).value
            && r.logs == Reports(FieldFloat(split[n - 4], lib)) + Reports(FieldFloat(split[n - 3], lib))
                         + Reports(FieldFloat(split[n - 2], lib)))
  {
  }

  /** GSV sets the satellites in view from field 3 (an empty field reads as -1), and nothing else. */
  lemma GsvSetsSatellitesInView(f: Fix, split: seq<string>, lib: NmeaLib)
    ensures var r := GsvStep(f, split, lib);
      && r.fix.(satellitesInView := f.satellitesInView) == f
      && r.logs == [] && r.emitted == []
      && (r.outcome == Completed <==> |split| >= 4 && FieldInt(split[3], lib).Some?)
      && (r.outcome == Completed ==> r.fix.satellitesInView == FieldInt(split[3], lib).value)
      && (|split| >= 4 && split[3] == "" ==> r.fix.satellitesInView == -1)
  {
  }

  /** Whatever becomes of it, a GGA sentence touches only its six fields and hands nothing on. */
  lemma GgaFrame(f: Fix, split: seq<string>, nmea: string, lib: NmeaLib)
    ensures var r := GgaStep(f, split, nmea, lib);
      && r.fix.(latitude := f.latitude, longitude := f.longitude, gpsFix := f.gpsFix,
                satellitesUsed := f.satellitesUsed, hdop := f.hdop, altitudeGps := f.altitudeGps) == f
      && r.emitted == []
  {
    if |split| < 7 {
    } else if FieldInt(split[6], lib).None? {
    } else if |split| < 8 || FieldInt(split[7], lib).None? {
    } else if |split| < 10 || split[9] == "" || |split| < 11 {
    } else {
    }
  }

  /**
   * GGA logs nothing before the hdop; from there on, the hdop's report, and when field 9 is set
   * and field 10 present, the unit line and the altitude's report.
   */
  lemma GgaLogs(f: Fix, split: seq<string>, nmea: string, lib: NmeaLib)
    ensures var r := GgaStep(f, split, nmea, lib);
      if |split| < 9 || FieldInt(split[6], lib).None? || FieldInt(split[7], lib).None? then r.logs == []
      else r.logs == Reports(FieldFloat(split[8], lib))
                     + (if |split| >= 11 && split[9] != "" then
                          (if split[10] != "M" then [ExpectedMeters(split[10], nmea)] else [])
                          + Reports(FieldDouble(split[9], lib))
                        else [])
  {
    if |split| < 7 {
    } else if FieldInt(split[6], lib).None? {
    } else if |split| < 8 || FieldInt(split[7], lib).None? {
    } else if |split| < 9 {
    } else {
      var f4 := GgaStep(f, split, nmea, lib).fix.(hdop := f.hdop, altitudeGps := f.altitudeGps);
      assert GgaStep(f, split, nmea, lib) == GgaTail(f4, split, nmea, lib);
    }
  }

  /**
   * A complete GGA sentence sets position, fix quality, satellites and hdop; the altitude only
   * from a non-empty field 9, and then even when the unit in field 10 is not "M", which is
   * only logged, after the hdop's report and before the altitude's.
   */
  lemma GgaComplete(f: Fix, split: seq<string>, nmea: string, lib: NmeaLib)
    requires |split| >= 11 && FieldInt(split[6], lib).Some? && FieldInt(split[7], lib).Some?
    ensures var r := GgaStep(f, split, nmea, lib);
      && r.outcome == Completed
      && r.fix.latitude == lib.degreesMinutes(split[2], split[3])
      && r.fix.longitude == lib.degreesMinutes(split[4], split[5])
      && r.fix.gpsFix == FieldInt(split[6], lib).value
      && r.fix.satellitesUsed == FieldInt(split[7], lib).value
      && r.fix.hdop == FieldFloat(split[8], lib).value
      && r.fix.altitudeGps == (if split[9] != "" then FieldDouble(split[9], lib).value else f.altitudeGps)
      && r.logs == Reports(FieldFloat(split[8], lib))
                   + (if split[9] != "" && split[10] != "M" then [ExpectedMeters(split[10], nmea)] else [])
                   + (if split[9] != "" then Reports(FieldDouble(split[9], lib)) else [])
  {
  }

  /** A malformed fix-quality field throws after the position has been stored. */
  lemma GgaBadQuality(f: Fix, split: seq<string>, nmea: string, lib: NmeaLib)
    requires |split| >= 7 && FieldInt(split[6], lib).None?
    ensures var r := GgaStep(f, split, nmea, lib);
      && r.outcome == Threw(NumberFormat) && r.logs == []
      && r.fix == f.(latitude := lib.degreesMinutes(split[2], split[3]),
                     longitude := lib.degreesMinutes(split[4], split[5]))
  {
  }

  /**
   * A complete RMC sentence stores the date of field 9 and the fix time on that date, and hands
   * on exactly one location, the new fix, iff a coordinate or velocity component is real.
   */
  lemma RmcComplete(f: Fix, split: seq<string>, nmea: string, lib: NmeaLib, nowMillis: int)
    requires |split| >= 10
    ensures var r := RmcStep(f, split, nmea, lib, nowMillis);
      && r.outcome == Completed
      && r.fix.dateTime == lib.parseDate(split[9])
      && r.fix.lastFixMillis == lib.parseDate(split[9]) + lib.parseTime(split[1])
      && r.fix.latitude == lib.degreesMinutes(split[3], split[4])
      && r.fix.longitude == lib.degreesMinutes(split[5], split[6])
      && r.fix.groundSpeed == lib.kts2mps(FieldDouble(split[7], lib).value)
      && r.fix.bearing == FieldDouble(split[8], lib).value
      && r.fix.vN == Mul(r.fix.groundSpeed, lib.cosDeg(r.fix.bearing))
      && r.fix.vE == Mul(r.fix.groundSpeed, lib.sinDeg(r.fix.bearing))
      && r.logs == Reports(FieldDouble(split[7], lib)) + Reports(FieldDouble(split[8], lib))
                   + RmcTimeLogs(f.gpsFix, r.fix.lastFixMillis, nmea, nowMillis)
      && (r.emitted == [LocationOf(r.fix)] <==> Emits(r.fix))
      && (r.emitted == [] <==> !Emits(r.fix))
  {
  }

  /** The fix quality and the clock only decide RMC's log lines, never the fix or the location. */
  lemma RmcChecksOnlyLog(f: Fix, gpsFix: int, split: seq<string>, nmea: string, lib: NmeaLib,
                         nowMillis: int, otherMillis: int)
    ensures var r := RmcStep(f, split, nmea, lib, nowMillis);
      var r' := RmcStep(f.(gpsFix := gpsFix), split, nmea, lib, otherMillis);
      r'.fix == r.fix.(gpsFix := gpsFix) && r'.emitted == r.emitted && r'.outcome == r.outcome
  {
  }

  /** GNS puts its time on the date of the last RMC sentence and leaves that date alone. */
  lemma GnsUsesStoredDate(f: Fix, split: seq<string>, lib: NmeaLib)
    requires |split| >= 2
    ensures var r := GnsStep(f, split, lib);
      && r.fix.lastFixMillis == f.dateTime + lib.parseTime(split[1])
      && r.fix.dateTime == f.dateTime
      && r.emitted == []
      && r.logs == (if |split| >= 10 && split[9] != "" then Reports(FieldDouble(split[9], lib)) else [])
      && r.fix.(lastFixMillis := f.lastFixMillis, latitude := f.latitude, longitude := f.longitude,
                altitudeGps := f.altitudeGps, satellitesUsed := f.satellitesUsed) == f
  {
  }

  /** VTG sets course and speed over ground and nothing else. */
  lemma VtgSetsCourseAndSpeed(f: Fix, split: seq<string>, lib: NmeaLib)
    ensures var r := VtgStep(f, split, lib);
      && r.fix.(bearing := f.bearing, groundSpeed := f.groundSpeed) == f
      && r.emitted == []
      && (|split| >= 6 <==> r.outcome == Completed)
      && (|split| < 2 ==> r.fix == f && r.logs == [])
      && (|split| >= 2 ==> r.fix.bearing == FieldDouble(split[1], lib).value)
      && (2 <= |split| < 6 ==> r.logs == Reports(FieldDouble(split[1], lib)))
      && (|split| >= 6 ==>
            && r.fix.groundSpeed == lib.kts2mps(FieldDouble(split[5], lib).value)
            && r.logs == Reports(FieldDouble(split[1], lib)) + Reports(FieldDouble(split[5], lib)))
  {
  }

  /** PWR and unknown commands leave the fix alone; only an unknown one is logged. */
  lemma PwrAndUnknownKeepFix(command: Command, f: Fix, split: seq<string>, timestamp: int, nmea: string,
                             lib: NmeaLib, nowMillis: int)
    requires command == PWR || command == Other
    ensures var r := Dispatch(command, f, split, timestamp, nmea, lib, nowMillis);
      && r.fix == f && r.emitted == [] && r.outcome == Completed
      && r.logs == (if command == PWR then [] else [UnknownCommand(timestamp, nmea)])
  {
  }

  /** The private `parseInt` reads an empty field as -1 and every printed int as itself. */
  lemma FieldIntReads(v: int, lib: NmeaLib)
    requires Util.IsCharacterDigit(lib.characterDigit)
    requires InInt32(v)
    ensures FieldInt("", lib) == Some(-1)
    ensures FieldInt(Decimal.FromInt(v), lib) == Some(v)
  {
    Util.ParseIntRoundTrip(v, v + 1, lib.characterDigit);
  }
}
