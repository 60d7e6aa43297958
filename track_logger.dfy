/**
 * TrackLogger.java: the flight recorder. It is idle or logging; starting picks a file name no
 * other file in the track directory has, marks the track RECORDING, opens the file and writes the
 * header; every measurement row is appended while logging; stopping closes the file, marks the
 * track NOT_UPLOADED and announces it.
 *
 * The track directory is a map from file names to the text written to them (gzip and buffering
 * are not modelled). Clocks, the timestamp string, the header text, the measurement rows and the
 * success of each I/O call are parameters. What the logger does to the world besides the files
 * (state changes, event posts, listener registration, error logs and crash reports) is recorded,
 * in order, in `effects`.
 */
module TrackLogging {
  import opened JavaLang
  import Decimal
  import opened Tracks

  /** The open or closed `BufferedWriter` on one file of the track directory. */
  datatype Writer = Writer(name: string, open: bool)

  datatype LoggerEffect =
    | StateChanged(track: TrackFile, state: TrackState)   // Services.trackState.setState
    | Wrote(name: string, text: string)                    // text handed to the writer
    | Posted(event: LoggingEvent)                          // EventBus post
    | Listening(on: bool)                                  // (un)subscribe to bus, location, sensors
    | Logged(message: LogMessage)                          // Log.e
    | Reported(problem: Problem)                           // Exceptions.report

  datatype LogMessage =
    | NotStarted          // "startLogging() called before start()"
    | AlreadyLogging      // "startLogging() called when database already logging"
    | StartFailed         // "Error starting logging"
    | NotLogging          // "stopLogging() called when database isn't logging"
    | WriteFailed         // "Failed to write to track file"
    | CloseFailed         // "Failed to close log file"
    | StopWhileLogging    // "TrackLogger.stop() called, but still logging"

  datatype Problem = CloseError | NullStopResult | WriteError | LogAfterClose

  // ---------------------------------------------------------------------------
  // File naming

  /** The k-th name tried for a timestamp: the plain name first (k < 2), then "_2", "_3", ... */
  function CandidateName(timestamp: string, k: nat): string {
    if k < 2 then "track_" + timestamp + ".csv.gz"
    else "track_" + timestamp + "_" + Decimal.FromNat(k) + ".csv.gz"
  }

  /** The name `newTrackFile` settles on: the first candidate not already in the directory. */
  ghost predicate IsLeastFreeName(timestamp: string, existing: set<string>, name: string) {
    && name !in existing
    && exists k: nat :: k >= 1 && name == CandidateName(timestamp, k)
         && forall j: nat :: 1 <= j < k ==> CandidateName(timestamp, j) in existing
  }

  /** Different candidates are different names. */
  lemma CandidateNameInjective(timestamp: string, j: nat, k: nat)
    requires 1 <= j < k
    ensures CandidateName(timestamp, j) != CandidateName(timestamp, k)
  {
    var prefix := "track_" + timestamp + "_";
    var nk := CandidateName(timestamp, k);
    assert nk == prefix + Decimal.FromNat(k) + ".csv.gz";
    if j >= 2 && CandidateName(timestamp, j) == nk {
      var nj := CandidateName(timestamp, j);
      assert nj == prefix + Decimal.FromNat(j) + ".csv.gz";
      assert |Decimal.FromNat(j)| == |Decimal.FromNat(k)|;
      assert Decimal.FromNat(j) == nj[|prefix|..|nj| - 7];
      assert Decimal.FromNat(k) == nk[|prefix|..|nk| - 7];
      Decimal.FromNatInjective(j, k);
    }
  }

  /** For a given timestamp and directory there is only one least free name. */
  lemma LeastFreeNameUnique(timestamp: string, existing: set<string>, a: string, b: string)
    requires IsLeastFreeName(timestamp, existing, a) && IsLeastFreeName(timestamp, existing, b)
    ensures a == b
  {
    var ka: nat :| ka >= 1 && a == CandidateName(timestamp, ka)
                   && forall j: nat :: 1 <= j < ka ==> CandidateName(timestamp, j) in existing;
    var kb: nat :| kb >= 1 && b == CandidateName(timestamp, kb)
                   && forall j: nat :: 1 <= j < kb ==> CandidateName(timestamp, j) in existing;
  }

  // ---------------------------------------------------------------------------
  // Elapsed time as "minutes:ss.mmm"

  /** `String.format("%d:%02d.%03d", minutes, seconds, millis)` for an elapsed time in ns. */
  function FormatLogTime(nanoTime: int): string {
    var millis := JavaRem(JavaDiv(nanoTime, 1_000_000), 1000);
    var seconds := JavaRem(JavaDiv(nanoTime, 1_000_000_000), 60);
    var minutes := JavaDiv(nanoTime, 60_000_000_000);
    Decimal.FromInt(minutes) + ":" + Decimal.PadInt(seconds, 2) + "." + Decimal.PadInt(millis, 3)
  }

  lemma ElapsedParts(nanoTime: nat)
    ensures var q := nanoTime / 1_000_000;
      && nanoTime / 1_000_000_000 == q / 1000
      && nanoTime / 60_000_000_000 == q / 60000
      && (q / 60000) * 60000 + ((q / 1000) % 60) * 1000 + q % 1000 == q
  {
  }

  /** For a non-negative time the three fields are natural numbers printed in turn. */
  lemma FormatNonNegative(nanoTime: nat)
    ensures var q := nanoTime / 1_000_000;
      FormatLogTime(nanoTime)
        == Decimal.FromNat(q / 60000) + ":" + Decimal.PadNat((q / 1000) % 60, 2) + "." + Decimal.PadNat(q % 1000, 3)
  {
    ElapsedParts(nanoTime);
  }

  /** Where the separators and fields of "m:ss.mmm" sit. */
  lemma FieldSlices(md: string, sd: string, msd: string)
    requires |sd| == 2 && |msd| == 3
    ensures var s := md + ":" + sd + "." + msd; var n := |s|;
      && n == |md| + 7 && s[n - 7] == ':' && s[n - 4] == '.'
      && s[..n - 7] == md && s[n - 6..n - 4] == sd && s[n - 3..] == msd
  {
  }

  /**
   * A non-negative elapsed time prints as minutes, a colon, two digits of seconds below 60, a dot
   * and three digits of milliseconds below 1000, and together they are the whole milliseconds.
   */
  lemma LogTimeDecodes(nanoTime: nat)
    ensures var s := FormatLogTime(nanoTime); var n := |s|;
      && n >= 8 && s[n - 7] == ':' && s[n - 4] == '.'
      && Decimal.AllDigits(s[..n - 7]) && Decimal.AllDigits(s[n - 6..n - 4]) && Decimal.AllDigits(s[n - 3..])
      && Decimal.Value(s[n - 6..n - 4]) < 60 && Decimal.Value(s[n - 3..]) < 1000
      && Decimal.Value(s[..n - 7]) * 60000 + Decimal.Value(s[n - 6..n - 4]) * 1000 + Decimal.Value(s[n - 3..])
         == nanoTime / 1_000_000
  {
    ElapsedParts(nanoTime);
    FormatNonNegative(nanoTime);
    var q := nanoTime / 1_000_000;
    var m := q / 60000;
    var sec := (q / 1000) % 60;
    var ms := q % 1000;
    assert Decimal.Pow10(2) == 100 && Decimal.Pow10(3) == 1000;
    Decimal.PadNatExact(sec, 2);
    Decimal.PadNatExact(ms, 3);
    Decimal.ValueFromNat(m);
    FieldSlices(Decimal.FromNat(m), Decimal.PadNat(sec, 2), Decimal.PadNat(ms, 3));
  }

  // ---------------------------------------------------------------------------

  class TrackLogger {
    var logging: bool
    var startTimeMillis: int
    var startTimeNano: int
    var stopTimeNano: int
    var logDir: Option<string>
    var trackFile: Option<TrackFile>
    var log: Option<Writer>
    /** The files of the track directory and the text written to each. */
    var files: map<string, string>
    var effects: seq<LoggerEffect>
    const registry: TrackStateRegistry

    /** While logging there is a track file; a writer only ever writes to a file that exists. */
    ghost predicate Valid()
      reads this
    {
      && (logging ==> trackFile.Some?)
      && (log.Some? ==> log.value.name in files)
    }

    constructor (registry: TrackStateRegistry, files: map<string, string>, nowMillis: int, nowNano: int)
      ensures Valid()
      ensures !logging && startTimeMillis == nowMillis && startTimeNano == nowNano && stopTimeNano == -1
      ensures logDir.None? && trackFile.None? && log.None?
      ensures this.files == files && effects == [] && this.registry == registry
    {
      logging := false;
      startTimeMillis := nowMillis;
      startTimeNano := nowNano;
      stopTimeNano := -1;
      logDir := None;
      trackFile := None;
      log := None;
      this.files := files;
      effects := [];
      this.registry := registry;
    }

    /** `start`: the storage directory becomes known (null when none is available). */
    method Start(dir: Option<string>)
      requires Valid()
      modifies this
      ensures Valid()
      ensures logDir == dir
      ensures logging == old(logging) && trackFile == old(trackFile) && log == old(log)
      ensures files == old(files) && effects == old(effects)
      ensures startTimeMillis == old(startTimeMillis) && startTimeNano == old(startTimeNano)
      ensures stopTimeNano == old(stopTimeNano)
    {
      logDir := dir;
    }

    /** `newTrackFile`: the first "track_<timestamp>[_<i>].csv.gz" not already in the directory. */
    method NewTrackFile(timestamp: string) returns (t: TrackFile)
      requires logDir.Some?
      ensures t.file.dir == logDir.value
      ensures t.file.name !in files
      ensures exists k: nat :: k >= 1 && t.file.name == CandidateName(timestamp, k)
                && forall j: nat :: 1 <= j < k ==> CandidateName(timestamp, j) in files
    {
      var name := CandidateName(timestamp, 1);
      var i: nat := 2;
      ghost var unseen := files.Keys;
      while name in files
        invariant i >= 2 && name == CandidateName(timestamp, i - 1)
        invariant forall j: nat :: 1 <= j < i - 1 ==> CandidateName(timestamp, j) in files
        invariant unseen <= files.Keys
        invariant forall x :: x in files && x !in unseen ==>
                    exists j: nat :: 1 <= j < i - 1 && x == CandidateName(timestamp, j)
        decreases |unseen|
      {
        if name !in unseen {
          var j: nat :| 1 <= j < i - 1 && name == CandidateName(timestamp, j);
          CandidateNameInjective(timestamp, j, i - 1);
          assert false;
        }
        unseen := unseen - {name};
        name := CandidateName(timestamp, i);
        i := i + 1;
      }
      t := TrackFile(File(logDir.value, name));
    }

    /**
     * `startLogging`. Without a directory, or while already logging, it only logs an error (the
     * missing directory is checked first). Otherwise it starts the clocks, picks the least free
     * name, marks the track RECORDING, and then opens the file and writes the header; a failure
     * to open or to write is only logged and leaves the logger logging.
     */
    method StartLogging(timestamp: string, nowMillis: int, nowNano: int, header: string,
                        openOk: bool, headerOk: bool)
      requires Valid()
      modifies this, registry
      ensures Valid()
      ensures logDir == old(logDir)
      ensures old(logDir).None? ==>
        && logging == old(logging) && trackFile == old(trackFile) && log == old(log) && files == old(files)
        && effects == old(effects) + [Logged(NotStarted)] && registry.states == old(registry.states)
        && startTimeMillis == old(startTimeMillis) && startTimeNano == old(startTimeNano)
        && stopTimeNano == old(stopTimeNano)
      ensures old(logDir).Some? && old(logging) ==>
        && logging && trackFile == old(trackFile) && log == old(log) && files == old(files)
        && effects == old(effects) + [Logged(AlreadyLogging)] && registry.states == old(registry.states)
        && startTimeMillis == old(startTimeMillis) && startTimeNano == old(startTimeNano)
        && stopTimeNano == old(stopTimeNano)
      ensures old(logDir).Some? && !old(logging) ==>
        && logging && startTimeMillis == nowMillis && startTimeNano == nowNano && stopTimeNano == -1
        && trackFile.Some? && trackFile.value.file.dir == old(logDir).value
        && IsLeastFreeName(timestamp, old(files).Keys, trackFile.value.file.name)
        && registry.states == old(registry.states)[trackFile.value := Recording]
        && var t := trackFile.value; var name := t.file.name;
           && (!openOk ==>
                 log == old(log) && files == old(files)
                 && effects == old(effects) + [StateChanged(t, Recording), Logged(StartFailed)])
           && (openOk && !headerOk ==>
                 log == Some(Writer(name, true)) && files == old(files)[name := ""]
                 && effects == old(effects) + [StateChanged(t, Recording), Logged(StartFailed)])
           && (openOk && headerOk ==>
                 log == Some(Writer(name, true)) && files == old(files)[name := header + "\n"]
                 && effects == old(effects) + [StateChanged(t, Recording), Wrote(name, header + "\n"),
                                               Listening(true), Posted(LoggingEvent(true, None))])
    {
      if !logging && logDir.Some? {
        logging := true;
        startTimeMillis := nowMillis;
        startTimeNano := nowNano;
        stopTimeNano := -1;
        var t := NewTrackFile(timestamp);
        trackFile := Some(t);
        // the state is set before the first byte is written
        registry.SetState(t, Recording);
        effects := effects + [StateChanged(t, Recording)];
        var name := t.file.name;
        if !openOk {
          effects := effects + [Logged(StartFailed)];
        } else {
          log := Some(Writer(name, true));
          files := files[name := ""];
          if !headerOk {
            effects := effects + [Logged(StartFailed)];
          } else {
            assert files[name] + header + "\n" == header + "\n";
            files := files[name := files[name] + header + "\n"];
            effects := effects + [Wrote(name, header + "\n"), Listening(true), Posted(LoggingEvent(true, None))];
          }
        }
      } else if logDir.None? {
        effects := effects + [Logged(NotStarted)];
      } else {
        effects := effects + [Logged(AlreadyLogging)];
      }
    }

    /**
     * `stopLogging`. When not logging it only logs an error. Otherwise it stops the clock and
     * the listeners and closes the writer: a missing writer throws NullPointerException, a writer
     * already closed closes again without complaint; a good close marks the track NOT_UPLOADED
     * and then posts the stop event, a failed close is logged and reported and sets no state.
     */
    method StopLogging(nowNano: int, closeOk: bool) returns (outcome: Outcome)
      requires Valid()
      modifies this, registry
      ensures Valid()
      ensures logDir == old(logDir) && trackFile == old(trackFile) && files == old(files)
      ensures startTimeMillis == old(startTimeMillis) && startTimeNano == old(startTimeNano)
      ensures !old(logging) ==>
        && outcome == Completed && !logging && log == old(log) && stopTimeNano == old(stopTimeNano)
        && effects == old(effects) + [Logged(NotLogging)] && registry.states == old(registry.states)
      ensures old(logging) ==> !logging && stopTimeNano == nowNano
      ensures old(logging) && old(log).None? ==>
        && outcome == Threw(NullPointer) && log == old(log)
        && effects == old(effects) + [Listening(false)] && registry.states == old(registry.states)
      ensures old(logging) && old(log).Some? && (closeOk || !old(log).value.open) ==>
        && outcome == Completed && log == Some(old(log).value.(open := false))
        && registry.states == old(registry.states)[old(trackFile).value := NotUploaded]
        && effects == old(effects) + [Listening(false), StateChanged(old(trackFile).value, NotUploaded),
                                      Posted(LoggingEvent(false, old(trackFile)))]
      ensures old(logging) && old(log).Some? && !closeOk && old(log).value.open ==>
        && outcome == Completed && log == Some(old(log).value.(open := false))
        && registry.states == old(registry.states)
        && effects == old(effects) + [Listening(false), Logged(CloseFailed), Reported(CloseError),
                                      Reported(NullStopResult)]
    {
      outcome := Completed;
      if logging {
        logging := false;
        stopTimeNano := nowNano;
        effects := effects + [Listening(false)];
        if log.None? {
          return Threw(NullPointer);
        }
        var w := log.value;
        log := Some(w.(open := false));
        if !w.open || closeOk {
          var t := trackFile.value;
          // the state is updated before listeners such as the upload manager hear of the stop
          registry.SetState(t, NotUploaded);
          effects := effects + [StateChanged(t, NotUploaded), Posted(LoggingEvent(false, Some(t)))];
        } else {
          effects := effects + [Logged(CloseFailed), Reported(CloseError), Reported(NullStopResult)];
        }
      } else {
        effects := effects + [Logged(NotLogging)];
      }
    }

    function IsLogging(): (r: bool)
      reads this
      ensures r == logging
    {
      logging
    }

    /** `getStartTime`: the wall-clock start of the recording, or 0 when idle. */
    function GetStartTime(): (r: int)
      reads this
      ensures !logging ==> r == 0
      ensures logging ==> r == startTimeMillis
    {
      if logging then startTimeMillis else 0
    }

    /** `getLogTime`: the elapsed recording time as "m:ss.mmm", or "" when idle. */
    function GetLogTime(nowNano: int): (r: string)
      reads this
      ensures !logging ==> r == ""
      ensures logging ==> r == FormatLogTime(if stopTimeNano == -1 then nowNano - startTimeNano
                                             else stopTimeNano - startTimeNano)
    {
      if logging then
        var nanoTime := if stopTimeNano == -1 then nowNano - startTimeNano else stopTimeNano - startTimeNano;
        FormatLogTime(nanoTime)
      else ""
    }

    /** Nothing but the file contents and the effects changed since the given values. */
    ghost predicate KeptRecording(logging0: bool, logDir0: Option<string>, trackFile0: Option<TrackFile>,
                                  log0: Option<Writer>, startTimeMillis0: int, startTimeNano0: int,
                                  stopTimeNano0: int)
      reads this
    {
      && logging == logging0 && logDir == logDir0 && trackFile == trackFile0 && log == log0
      && startTimeMillis == startTimeMillis0 && startTimeNano == startTimeNano0 && stopTimeNano == stopTimeNano0
    }

    /**
     * What `logLine(line)` did to files and effects that were `files0` and `effects0`: while
     * logging, the line and a newline are appended to the open file; a write to a closed writer
     * or a failed write is logged and reported, and a missing writer throws NullPointerException.
     * When idle nothing is written and the attempt is reported.
     */
    ghost predicate LineLogged(line: string, writeOk: bool, outcome: Outcome,
                               files0: map<string, string>, effects0: seq<LoggerEffect>)
      reads this
    {
      && (!logging ==>
            outcome == Completed && files == files0 && effects == effects0 + [Reported(LogAfterClose)])
      && (logging && log.None? ==>
            outcome == Threw(NullPointer) && files == files0 && effects == effects0)
      && (logging && log.Some? && log.value.open && writeOk ==>
            && outcome == Completed
            && log.value.name in files0
            && files == files0[log.value.name := files0[log.value.name] + line + "\n"]
            && effects == effects0 + [Wrote(log.value.name, line + "\n")])
      && (logging && log.Some? && !(log.value.open && writeOk) ==>
            && outcome == Completed && files == files0
            && effects == effects0 + [Logged(WriteFailed), Reported(WriteError)])
    }

    /** `logLine`: the line is logged as `LineLogged` says, and the recording is otherwise kept. */
    method LogLine(line: string, writeOk: bool) returns (outcome: Outcome)
      requires Valid()
      modifies this
      ensures Valid()
      ensures KeptRecording(old(logging), old(logDir), old(trackFile), old(log), old(startTimeMillis),
                            old(startTimeNano), old(stopTimeNano))
      ensures LineLogged(line, writeOk, outcome, old(files), old(effects))
    {
      outcome := Completed;
      if logging {
        if log.None? {
          return Threw(NullPointer);
        }
        var w := log.value;
        if w.open && writeOk {
          files := files[w.name := files[w.name] + line + "\n"];
          effects := effects + [Wrote(w.name, line + "\n")];
        } else {
          effects := effects + [Logged(WriteFailed), Reported(WriteError)];
        }
      } else {
        effects := effects + [Reported(LogAfterClose)];
      }
    }

    /** `onAltitudeEvent`: the row of a pressure sample is logged unless the pressure is NaN. */
    method OnAltitudeEvent(pressure: Double, row: string, writeOk: bool) returns (outcome: Outcome)
      requires Valid()
      modifies this
      ensures Valid()
      ensures KeptRecording(old(logging), old(logDir), old(trackFile), old(log), old(startTimeMillis),
                            old(startTimeNano), old(stopTimeNano))
      ensures IsNaN(pressure) ==> outcome == Completed && files == old(files) && effects == old(effects)
      ensures !IsNaN(pressure) ==> LineLogged(row, writeOk, outcome, old(files), old(effects))
    {
      outcome := Completed;
      if !IsNaN(pressure) {
        outcome := LogLine(row, writeOk);
      }
    }

    /** `onLocationChanged`: the row of a fix is logged unless its latitude or longitude is NaN. */
    method OnLocationChanged(latitude: Double, longitude: Double, row: string, writeOk: bool)
      returns (outcome: Outcome)
      requires Valid()
      modifies this
      ensures Valid()
      ensures KeptRecording(old(logging), old(logDir), old(trackFile), old(log), old(startTimeMillis),
                            old(startTimeNano), old(stopTimeNano))
      ensures IsNaN(latitude) || IsNaN(longitude) ==>
        outcome == Completed && files == old(files) && effects == old(effects)
      ensures !IsNaN(latitude) && !IsNaN(longitude) ==> LineLogged(row, writeOk, outcome, old(files), old(effects))
    {
      outcome := Completed;
      if !IsNaN(latitude) && !IsNaN(longitude) {
        outcome := LogLine(row, writeOk);
      }
    }

    /** `onSensorChanged`: every sensor row is logged. */
    method OnSensorChanged(row: string, writeOk: bool) returns (outcome: Outcome)
      requires Valid()
      modifies this
      ensures Valid()
      ensures KeptRecording(old(logging), old(logDir), old(trackFile), old(log), old(startTimeMillis),
                            old(startTimeNano), old(stopTimeNano))
      ensures LineLogged(row, writeOk, outcome, old(files), old(effects))
    {
      outcome := LogLine(row, writeOk);
    }

    /** `stop`: stopping the service while still logging is only logged. */
    method Stop()
      requires Valid()
      modifies this
      ensures Valid()
      ensures KeptRecording(old(logging), old(logDir), old(trackFile), old(log), old(startTimeMillis),
                            old(startTimeNano), old(stopTimeNano))
      ensures files == old(files)
      ensures effects == old(effects) + (if logging then [Logged(StopWhileLogging)] else [])
    {
      if logging {
        effects := effects + [Logged(StopWhileLogging)];
      }
    }
  }
}
