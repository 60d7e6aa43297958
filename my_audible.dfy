/**
 * MyAudible.java: the audible, which periodically speaks the current measurement (altitude,
 * speed, ...) of the selected mode. Out-of-range samples are announced as "min" or "max" once
 * per excursion (a boundary state remembers on which side the last spoken sample lay), and
 * a GPS fix that turns stale is announced once with "Signal lost".
 *
 * The speech engine, the audible thread and the shared preferences are collaborators: their
 * calls are a trace of effects, and whether each exists (`speech`, `prefs` non-null) or runs
 * (`audibleThread.isRunning()`) is a field. The selected mode, its limits and its current
 * sample (`AudibleSettings`) and the location service's fix are inputs.
 */
module Audible {
  import opened JavaLang
  import opened Util

  /** The integer codes of the boundary states. */
  const STATE_MIN: int := -1
  const STATE_INSIDE: int := 0
  const STATE_MAX: int := 1

  /** On which side of [min, max] the last announced real sample lay. */
  datatype Boundary = Below | Inside | Above

  function StateCode(b: Boundary): (code: int)
    ensures code == STATE_MIN <==> b == Below
    ensures code == STATE_INSIDE <==> b == Inside
    ensures code == STATE_MAX <==> b == Above
  {
    match b
    case Below => STATE_MIN
    case Inside => STATE_INSIDE
    case Above => STATE_MAX
  }

  /** The mode whose samples are spoken whatever the state of the GPS fix. */
  const VERTICAL_SPEED: string := "vertical_speed"

  /** A fix older than this many milliseconds is stale. */
  const FRESH_FIX_MILLIS: int := 3500

  const SIGNAL_LOST: string := "Signal lost"
  const GOODBYE: string := "Goodbye"

  /** A sample of the current mode: its value and the phrase that speaks it. */
  datatype AudibleSample = AudibleSample(value: Double, phrase: string)

  /** The selected mode (id and spoken name) and its speaking limits. */
  datatype AudibleSettings = AudibleSettings(modeId: string, modeName: string, min: Double, max: Double)

  /** What the location service says about the fix: whether there is one, and its age. */
  datatype GpsStatus = GpsStatus(hasLastLoc: bool, lastFixDuration: int)

  datatype AudibleLog =
    | InitializingAudible | InitializedTwice | StartingAudible | ThreadAlreadyStarted
    | StartNotInitialized | StopNotInitialized | SpeakWhileDisabled | SpeechNull
    | NotSpeakingMin | NotSpeakingMax | NoSignal | StaleSignal | NoGpsSignal | StaleGpsSignal

  datatype AudibleEffect =
    | Log(message: AudibleLog)
    | Report(problem: AudibleLog)          // FirebaseCrash.report
    | SpeechCreated                        // new Speech(appContext)
    | SettingsLoaded                       // AudibleSettings.load(prefs)
    | ThreadStarted | ThreadStopped
    | SpeakNow(text: string)
    | SpeakWhenReady(text: string)
    | StopAllSpeech
    | SavedEnabled(enabled: bool)          // "audible_enabled" written to the preferences
    | PostedAudibleEvent

  /** The side of the limits a sample lies on, tested in the source's order (below first). */
  function SideOf(value: Double, settings: AudibleSettings): Boundary {
    if Less(value, settings.min) then Below
    else if Less(settings.max, value) then Above
    else Inside
  }

  /** The word spoken on entering a side. */
  function BoundaryWord(side: Boundary): string {
    match side
    case Below => "min"
    case Above => "max"
    case Inside => ""
  }

  /**
   * The boundary hysteresis for a real sample: the new state is the sample's side; a sample
   * inside speaks its phrase; one outside speaks "min" / "max" only when the state was not
   * already that side, and nothing otherwise.
   */
  function Announce(state: Boundary, sample: AudibleSample, settings: AudibleSettings): (r: (string, Boundary))
    ensures r.1 == SideOf(sample.value, settings)
    ensures r.1 == Inside ==> r.0 == sample.phrase
    ensures r.1 != Inside && state != r.1 ==> r.0 == BoundaryWord(r.1)
    ensures r.1 != Inside && state == r.1 ==> r.0 == ""
  {
    if Less(sample.value, settings.min) then
      if state != Below then ("min", Below) else ("", Below)
    else if Less(settings.max, sample.value) then
      if state != Above then ("max", Above) else ("", Above)
    else (sample.phrase, Inside)
  }

  /** `goodGpsFix`'s test: a last location exists and is younger than 3.5 seconds. */
  predicate GoodFix(gps: GpsStatus) {
    gps.hasLastLoc && gps.lastFixDuration < FRESH_FIX_MILLIS
  }

  /**
   * The "signal lost" edge detector: from the previous fix flag and the status, the new flag
   * and whether "Signal lost" is spoken.
   */
  function FixStep(wasGood: bool, gps: GpsStatus): (r: (bool, bool))
    ensures r.0 == GoodFix(gps)
    ensures r.1 <==> wasGood && !GoodFix(gps)
  {
    if GoodFix(gps) then (true, false) else (false, wasGood)
  }

  /** What `goodGpsFix` adds to the trace. */
  function FixEffects(wasGood: bool, gps: GpsStatus): seq<AudibleEffect> {
    if GoodFix(gps) then []
    else [Log(if gps.hasLastLoc then StaleGpsSignal else NoGpsSignal)]
         + (if wasGood then [SpeakNow(SIGNAL_LOST)] else [])
  }

  /** Everything one `getMeasurement` call does. */
  datatype Measured = Measured(
    outcome: Outcome, text: string, boundary: Boundary, gpsFix: bool, effects: seq<AudibleEffect>)

  /**
   * `getMeasurement` as a function of the fields it reads: the GPS fix is checked only outside
   * the vertical speed mode (and dereferences `speech` when a good fix is lost); a stale fix or
   * a sample that is not real speaks nothing and leaves the boundary state alone.
   */
  function MeasureOf(boundary: Boundary, gpsFix: bool, speechReady: bool,
                     settings: AudibleSettings, sample: AudibleSample, gps: GpsStatus): (m: Measured)
    ensures m.outcome.Threw? ==> m.outcome == Threw(NullPointer) && m.boundary == boundary && m.text == ""
    ensures m.outcome == Threw(NullPointer) <==>
      settings.modeId != VERTICAL_SPEED && !GoodFix(gps) && gpsFix && !speechReady
  {
    var vertical := settings.modeId == VERTICAL_SPEED;
    if !vertical && !GoodFix(gps) && gpsFix && !speechReady then
      Measured(Threw(NullPointer), "", boundary, gpsFix, FixEffects(gpsFix, gps)[..1])
    else
      var fix := if vertical then gpsFix else FixStep(gpsFix, gps).0;
      var fixEffects := if vertical then [] else FixEffects(gpsFix, gps);
      if !vertical && !GoodFix(gps) then
        Measured(Completed, "", boundary, fix, fixEffects + [Log(StaleSignal)])
      else if !IsReal(sample.value) then
        Measured(Completed, "", boundary, fix, fixEffects + [Log(NoSignal)])
      else
        var (text, next) := Announce(boundary, sample, settings);
        var quiet := if next != Inside && text == "" then [Log(if next == Below then NotSpeakingMin else NotSpeakingMax)] else [];
        Measured(Completed, text, next, fix, fixEffects + quiet)
  }

  /** A stale fix (outside vertical speed) or a sample that is not real is silent and leaves the state. */
  lemma SkippedSampleKeepsState(boundary: Boundary, gpsFix: bool, speechReady: bool,
                                settings: AudibleSettings, sample: AudibleSample, gps: GpsStatus)
    requires (settings.modeId != VERTICAL_SPEED && !GoodFix(gps)) || !IsReal(sample.value)
    ensures var m := MeasureOf(boundary, gpsFix, speechReady, settings, sample, gps);
      m.text == "" && m.boundary == boundary
  {
  }

  /** A real sample with a usable fix goes through the hysteresis. */
  lemma FreshSampleAnnounced(boundary: Boundary, gpsFix: bool, speechReady: bool,
                             settings: AudibleSettings, sample: AudibleSample, gps: GpsStatus)
    requires settings.modeId == VERTICAL_SPEED || GoodFix(gps)
    requires IsReal(sample.value)
    ensures var m := MeasureOf(boundary, gpsFix, speechReady, settings, sample, gps);
      m.outcome == Completed && (m.text, m.boundary) == Announce(boundary, sample, settings)
  {
  }

  /** Outside vertical speed the fix flag follows the status; in vertical speed it is never touched. */
  lemma MeasureTracksFix(boundary: Boundary, gpsFix: bool, speechReady: bool,
                         settings: AudibleSettings, sample: AudibleSample, gps: GpsStatus)
    ensures var m := MeasureOf(boundary, gpsFix, speechReady, settings, sample, gps);
      && (settings.modeId == VERTICAL_SPEED ==> m.gpsFix == gpsFix && SpeakNow(SIGNAL_LOST) !in m.effects)
      && (settings.modeId != VERTICAL_SPEED && m.outcome == Completed ==>
            m.gpsFix == GoodFix(gps) && (SpeakNow(SIGNAL_LOST) in m.effects <==> gpsFix && !GoodFix(gps)))
  {
    var m := MeasureOf(boundary, gpsFix, speechReady, settings, sample, gps);
    if settings.modeId == VERTICAL_SPEED {
      assert forall e :: e in m.effects ==> e.Log?;
    } else if m.outcome == Completed {
      var fe := FixEffects(gpsFix, gps);
      assert m.effects[..|fe|] == fe;
      assert forall i :: |fe| <= i < |m.effects| ==> m.effects[i].Log?;
      if gpsFix && !GoodFix(gps) {
        assert m.effects[1] == SpeakNow(SIGNAL_LOST);
      } else {
        assert forall i :: 0 <= i < |m.effects| ==> m.effects[i].Log?;
      }
    }
  }

  /** The texts a run of real samples produces, each spoken through the hysteresis in turn. */
  function Announcements(state: Boundary, samples: seq<AudibleSample>, settings: AudibleSettings): seq<string>
    decreases |samples|
  {
    if samples == [] then []
    else
      var (text, next) := Announce(state, samples[0], settings);
      [text] + Announcements(next, samples[1..], settings)
  }

  /** The state each sample of a run meets: the initial one, then the previous sample's side. */
  function StateBefore(state: Boundary, samples: seq<AudibleSample>, settings: AudibleSettings, i: nat): Boundary
    requires i < |samples|
  {
    if i == 0 then state else SideOf(samples[i - 1].value, settings)
  }

  /**
   * The boundary state remembers exactly the side of the previous sample: every text of a run
   * is what the hysteresis says for that sample from the side of the one before.
   */
  lemma {:induction false} AnnouncementsRememberPreviousSide(
    state: Boundary, samples: seq<AudibleSample>, settings: AudibleSettings)
    ensures |Announcements(state, samples, settings)| == |samples|
    ensures forall i :: 0 <= i < |samples| ==>
      Announcements(state, samples, settings)[i] == Announce(StateBefore(state, samples, settings, i), samples[i], settings).0
    decreases |samples|
  {
    if samples != [] {
      var next := Announce(state, samples[0], settings).1;
      var rest := samples[1..];
      AnnouncementsRememberPreviousSide(next, rest, settings);
      forall i | 1 <= i < |samples|
        ensures StateBefore(state, samples, settings, i) == StateBefore(next, rest, settings, i - 1)
      {
        if i > 1 {
          assert samples[i - 1] == rest[i - 2];
        }
      }
    }
  }

  /**
   * An excursion below min (or above max) is announced once: at its first sample, and only when
   * the state was not already that side; every later sample of the excursion is silent.
   */
  lemma ExcursionAnnouncedOnce(state: Boundary, samples: seq<AudibleSample>, settings: AudibleSettings, side: Boundary)
    requires side != Inside
    requires forall i :: 0 <= i < |samples| ==> SideOf(samples[i].value, settings) == side
    ensures var texts := Announcements(state, samples, settings);
      && |texts| == |samples|
      && (|samples| > 0 ==> (texts[0] == BoundaryWord(side) <==> state != side))
      && (forall i :: 1 <= i < |samples| ==> texts[i] == "")
  {
    AnnouncementsRememberPreviousSide(state, samples, settings);
    var texts := Announcements(state, samples, settings);
    forall i | 1 <= i < |samples|
      ensures texts[i] == ""
    {
      assert StateBefore(state, samples, settings, i) == side;
    }
  }

  /** The flags "Signal lost" is spoken with over a series of fix checks. */
  function SignalLostTrace(wasGood: bool, statuses: seq<GpsStatus>): seq<bool>
    decreases |statuses|
  {
    if statuses == [] then []
    else
      var (good, lost) := FixStep(wasGood, statuses[0]);
      [lost] + SignalLostTrace(good, statuses[1..])
  }

  /** The i-th status ends a good fix: the one before it (or the flag before the first) was good. */
  predicate FallingEdge(wasGood: bool, statuses: seq<GpsStatus>, i: int)
    requires 0 <= i < |statuses|
  {
    (if i == 0 then wasGood else GoodFix(statuses[i - 1])) && !GoodFix(statuses[i])
  }

  /** "Signal lost" is spoken exactly at the good-to-bad transitions of the fix. */
  lemma {:induction false} SignalLostAtFallingEdges(wasGood: bool, statuses: seq<GpsStatus>)
    ensures |SignalLostTrace(wasGood, statuses)| == |statuses|
    ensures forall i :: 0 <= i < |statuses| ==>
      (SignalLostTrace(wasGood, statuses)[i] <==> FallingEdge(wasGood, statuses, i))
  {
    SignalLostTraceLength(wasGood, statuses);
    forall i | 0 <= i < |statuses|
      ensures SignalLostTrace(wasGood, statuses)[i] <==> FallingEdge(wasGood, statuses, i)
    {
      SignalLostAt(wasGood, statuses, i);
    }
  }

  lemma {:induction false} SignalLostTraceLength(wasGood: bool, statuses: seq<GpsStatus>)
    ensures |SignalLostTrace(wasGood, statuses)| == |statuses|
    decreases |statuses|
  {
    if statuses != [] {
      SignalLostTraceLength(FixStep(wasGood, statuses[0]).0, statuses[1..]);
    }
  }

  /** The i-th sample: its entry of the trace, found by dropping the samples before it. */
  lemma {:induction false} SignalLostAt(wasGood: bool, statuses: seq<GpsStatus>, i: nat)
    requires i < |statuses|
    ensures |SignalLostTrace(wasGood, statuses)| == |statuses|
    ensures SignalLostTrace(wasGood, statuses)[i] <==> FallingEdge(wasGood, statuses, i)
    decreases i
  {
    SignalLostTraceLength(wasGood, statuses);
    var (good, lost) := FixStep(wasGood, statuses[0]);
    assert SignalLostTrace(wasGood, statuses) == [lost] + SignalLostTrace(good, statuses[1..]);
    if i > 0 {
      SignalLostAt(good, statuses[1..], i - 1);
      assert statuses[1..][i - 1] == statuses[i];
      if i > 1 {
        assert statuses[1..][i - 2] == statuses[i - 1];
      }
    }
  }

  /**
   * What the first `start` adds after creating the speech engine: the settings load and, when
   * the stored flag is set, all of `enableAudible` with its first measurement m.
   */
  function FirstStartEffects(storedEnabled: bool, modeName: string, m: Measured): seq<AudibleEffect> {
    [SettingsLoaded]
      + (if storedEnabled then
           [Log(StartingAudible), ThreadStarted, SpeakWhenReady(modeName)] + m.effects
           + (if m.text != "" then [SpeakWhenReady(m.text)] else [])
           + [SavedEnabled(true), PostedAudibleEvent]
         else [])
  }

  lemma FirstStartEnabled(before: seq<AudibleEffect>, modeName: string, m: Measured)
    ensures before + [SettingsLoaded] + [Log(StartingAudible)]
              + ([ThreadStarted, SpeakWhenReady(modeName)] + m.effects
                 + (if m.text != "" then [SpeakWhenReady(m.text)] else []))
              + [SavedEnabled(true), PostedAudibleEvent]
            == before + FirstStartEffects(true, modeName, m)
  {
  }

  class MyAudible {
    /** `prefs != null`. */
    var prefsReady: bool
    /** `speech != null`. */
    var speechReady: bool
    /** `audibleThread.isRunning()`. */
    var threadRunning: bool
    var isInitialized: bool
    var isEnabled: bool
    var boundaryState: Boundary
    var gpsFix: bool
    var effects: seq<AudibleEffect>

    /** While initialized, the speech and the preferences exist; otherwise no thread runs. */
    ghost predicate Valid()
      reads this
    {
      (isInitialized ==> speechReady && prefsReady) && (!isInitialized ==> !threadRunning)
    }

    constructor ()
      ensures Valid()
      ensures !prefsReady && !speechReady && !threadRunning && !isInitialized && !isEnabled
      ensures boundaryState == Inside && !gpsFix && effects == []
    {
      prefsReady, speechReady, threadRunning := false, false, false;
      isInitialized, isEnabled := false, false;
      boundaryState, gpsFix, effects := Inside, false, [];
    }

    /** `isEnabled`. */
    function IsEnabled(): (r: bool)
      reads this
      ensures r == isEnabled
    {
      isEnabled
    }

    /** `goodGpsFix`: updates the fix flag and speaks "Signal lost" when a good fix is lost. */
    method GoodGpsFix(gps: GpsStatus) returns (outcome: Outcome, good: bool)
      modifies this`gpsFix, this`effects
      ensures outcome.Completed? ==> good == GoodFix(gps) && gpsFix == GoodFix(gps)
      ensures outcome.Completed? ==> effects == old(effects) + FixEffects(old(gpsFix), gps)
      ensures outcome.Threw? <==> !GoodFix(gps) && old(gpsFix) && !speechReady
      ensures outcome.Threw? ==> outcome == Threw(NullPointer) && gpsFix == old(gpsFix)
                                 && effects == old(effects) + FixEffects(old(gpsFix), gps)[..1]
    {
      if GoodFix(gps) {
        gpsFix := true;
      } else {
        effects := effects + [Log(if gps.hasLastLoc then StaleGpsSignal else NoGpsSignal)];
        if gpsFix {
          if !speechReady {
            return Threw(NullPointer), false;
          }
          effects := effects + [SpeakNow(SIGNAL_LOST)];
        }
        gpsFix := false;
      }
      outcome, good := Completed, gpsFix;
    }

    /** `getMeasurement`: the text to say for the current sample. */
    method GetMeasurement(settings: AudibleSettings, sample: AudibleSample, gps: GpsStatus)
      returns (outcome: Outcome, text: string)
      modifies this`boundaryState, this`gpsFix, this`effects
      ensures var m := MeasureOf(old(boundaryState), old(gpsFix), speechReady, settings, sample, gps);
        && outcome == m.outcome && text == m.text && boundaryState == m.boundary
        && gpsFix == m.gpsFix && effects == old(effects) + m.effects
    {
      var usable := true;
      if settings.modeId != VERTICAL_SPEED {
        outcome, usable := GoodGpsFix(gps);
        if outcome.Threw? {
          return outcome, "";
        }
      }
      outcome := Completed;
      if usable {
        if IsReal(sample.value) {
          if Less(sample.value, settings.min) {
            if boundaryState != Below {
              boundaryState := Below;
              text := "min";
            } else {
              effects := effects + [Log(NotSpeakingMin)];
              text := "";
            }
          } else if Less(settings.max, sample.value) {
            if boundaryState != Above {
              boundaryState := Above;
              text := "max";
            } else {
              effects := effects + [Log(NotSpeakingMax)];
              text := "";
            }
          } else {
            boundaryState := Inside;
            text := sample.phrase;
          }
        } else {
          effects := effects + [Log(NoSignal)];
          text := "";
        }
      } else {
        effects := effects + [Log(StaleSignal)];
        text := "";
      }
    }

    /** `speak`: speak the measurement now, when there is one and a speech engine. */
    method Speak(settings: AudibleSettings, sample: AudibleSample, gps: GpsStatus) returns (outcome: Outcome)
      modifies this`boundaryState, this`gpsFix, this`effects
      ensures var m := MeasureOf(old(boundaryState), old(gpsFix), speechReady, settings, sample, gps);
        && outcome == m.outcome && boundaryState == m.boundary && gpsFix == m.gpsFix
        && effects == old(effects) + m.effects
                      + (if m.outcome == Completed && speechReady && m.text != "" then [SpeakNow(m.text)] else [])
    {
      var text;
      outcome, text := GetMeasurement(settings, sample, gps);
      if outcome == Completed && speechReady && text != "" {
        effects := effects + [SpeakNow(text)];
      }
    }

    /** `speakWhenReady`: the same, queued behind the current speech. */
    method SpeakMeasurementWhenReady(settings: AudibleSettings, sample: AudibleSample, gps: GpsStatus)
      returns (outcome: Outcome)
      modifies this`boundaryState, this`gpsFix, this`effects
      ensures var m := MeasureOf(old(boundaryState), old(gpsFix), speechReady, settings, sample, gps);
        && outcome == m.outcome && boundaryState == m.boundary && gpsFix == m.gpsFix
        && effects == old(effects) + m.effects
                      + (if m.outcome == Completed && speechReady && m.text != "" then [SpeakWhenReady(m.text)] else [])
    {
      var text;
      outcome, text := GetMeasurement(settings, sample, gps);
      if outcome == Completed && speechReady && text != "" {
        effects := effects + [SpeakWhenReady(text)];
      }
    }

    /** `speakNow`: a special announcement; speaking while disabled is reported, not refused. */
    method SpeakNowText(text: string)
      modifies this`effects
      ensures effects == old(effects)
        + (if !isEnabled then [Log(SpeakWhileDisabled), Report(SpeakWhileDisabled)] else [])
        + (if speechReady then [SpeakNow(text)] else [Log(SpeechNull)])
    {
      if !isEnabled {
        effects := effects + [Log(SpeakWhileDisabled), Report(SpeakWhileDisabled)];
      }
      if speechReady {
        effects := effects + [SpeakNow(text)];
      } else {
        effects := effects + [Log(SpeechNull)];
      }
    }

    /**
     * `enableAudible`: starts the thread (announcing the mode and a first measurement) when
     * initialized and not yet running; in every case it then sets and persists the enabled
     * flag and posts an event — without preferences that write throws.
     */
    method EnableAudible(settings: AudibleSettings, sample: AudibleSample, gps: GpsStatus)
      returns (outcome: Outcome)
      requires Valid()
      modifies this`threadRunning, this`isEnabled, this`boundaryState, this`gpsFix, this`effects
      ensures Valid()
      ensures isEnabled
      ensures isInitialized == old(isInitialized) && prefsReady == old(prefsReady) && speechReady == old(speechReady)
      ensures threadRunning == old(isInitialized)
      ensures outcome == (if prefsReady then Completed else Threw(NullPointer))
      ensures var starts := old(isInitialized) && !old(threadRunning);
        var m := MeasureOf(old(boundaryState), old(gpsFix), speechReady, settings, sample, gps);
        && boundaryState == (if starts then m.boundary else old(boundaryState))
        && gpsFix == (if starts then m.gpsFix else old(gpsFix))
        && effects == old(effects) + [Log(StartingAudible)]
             + (if !old(isInitialized) then [Log(StartNotInitialized)]
                else if old(threadRunning) then [Log(ThreadAlreadyStarted)]
                else [ThreadStarted, SpeakWhenReady(settings.modeName)] + m.effects
                     + (if m.text != "" then [SpeakWhenReady(m.text)] else []))
             + (if prefsReady then [SavedEnabled(true), PostedAudibleEvent] else [])
    {
      effects := effects + [Log(StartingAudible)];
      StartThreadIfInitialized(settings, sample, gps);
      isEnabled := true;
      if !prefsReady {
        return Threw(NullPointer);
      }
      effects := effects + [SavedEnabled(true), PostedAudibleEvent];
      outcome := Completed;
    }

    /** The thread part of `enableAudible`: start it, announcing the mode and a first measurement. */
    method StartThreadIfInitialized(settings: AudibleSettings, sample: AudibleSample, gps: GpsStatus)
      requires Valid()
      modifies this`threadRunning, this`boundaryState, this`gpsFix, this`effects
      ensures Valid()
      ensures threadRunning == isInitialized
      ensures var starts := isInitialized && !old(threadRunning);
        var m := MeasureOf(old(boundaryState), old(gpsFix), speechReady, settings, sample, gps);
        && boundaryState == (if starts then m.boundary else old(boundaryState))
        && gpsFix == (if starts then m.gpsFix else old(gpsFix))
        && effects == old(effects)
             + (if !isInitialized then [Log(StartNotInitialized)]
                else if old(threadRunning) then [Log(ThreadAlreadyStarted)]
                else [ThreadStarted, SpeakWhenReady(settings.modeName)] + m.effects
                     + (if m.text != "" then [SpeakWhenReady(m.text)] else []))
    {
      if isInitialized {
        if !threadRunning {
          threadRunning := true;
          effects := effects + [ThreadStarted, SpeakWhenReady(settings.modeName)];
          var _ := SpeakMeasurementWhenReady(settings, sample, gps);
        } else {
          effects := effects + [Log(ThreadAlreadyStarted)];
        }
      } else {
        effects := effects + [Log(StartNotInitialized)];
      }
    }

    /**
     * `disableAudible`: when initialized, silences the speech, stops the thread and queues
     * "Goodbye"; in every case it then clears and persists the enabled flag and posts an event.
     */
    method DisableAudible() returns (outcome: Outcome)
      requires Valid()
      modifies this`threadRunning, this`isEnabled, this`effects
      ensures Valid()
      ensures !isEnabled
      ensures threadRunning == (old(threadRunning) && !isInitialized)
      ensures outcome == (if prefsReady then Completed else Threw(NullPointer))
      ensures effects == old(effects)
        + (if isInitialized then [StopAllSpeech, ThreadStopped, SpeakWhenReady(GOODBYE)] else [Log(StopNotInitialized)])
        + (if prefsReady then [SavedEnabled(false), PostedAudibleEvent] else [])
    {
      if isInitialized {
        effects := effects + [StopAllSpeech, ThreadStopped, SpeakWhenReady(GOODBYE)];
        threadRunning := false;
      } else {
        effects := effects + [Log(StopNotInitialized)];
      }
      isEnabled := false;
      if !prefsReady {
        return Threw(NullPointer);
      }
      effects := effects + [SavedEnabled(false), PostedAudibleEvent];
      outcome := Completed;
    }

    /**
     * `start`: (re)creates the speech engine, then on the first call initializes: a new thread,
     * the settings loaded, and the stored enabled flag restored (enabling when set). A second
     * call only logs and reports.
     */
    method Start(storedEnabled: bool, settings: AudibleSettings, sample: AudibleSample, gps: GpsStatus)
      returns (outcome: Outcome)
      requires Valid()
      modifies this
      ensures Valid()
      ensures prefsReady && speechReady && isInitialized && outcome == Completed
      ensures old(isInitialized) ==>
        && isEnabled == old(isEnabled) && threadRunning == old(threadRunning)
        && boundaryState == old(boundaryState) && gpsFix == old(gpsFix)
        && effects == old(effects) + [Log(InitializingAudible), SpeechCreated, Log(InitializedTwice), Report(InitializedTwice)]
      ensures !old(isInitialized) ==>
        var m := MeasureOf(old(boundaryState), old(gpsFix), true, settings, sample, gps);
        && isEnabled == storedEnabled && threadRunning == storedEnabled
        && boundaryState == (if storedEnabled then m.boundary else old(boundaryState))
        && gpsFix == (if storedEnabled then m.gpsFix else old(gpsFix))
        && effects == old(effects) + [Log(InitializingAudible), SpeechCreated]
                      + FirstStartEffects(storedEnabled, settings.modeName, m)
    {
      effects := effects + [Log(InitializingAudible), SpeechCreated];
      prefsReady, speechReady := true, true;
      if !isInitialized {
        InitializeOnce(storedEnabled, settings, sample, gps);
      } else {
        effects := effects + [Log(InitializedTwice), Report(InitializedTwice)];
      }
      outcome := Completed;
    }

    /**
     * The first-call part of `start`: a new thread, the settings loaded, and the stored flag
     * restored, enabling the audible when it is set.
     */
    method InitializeOnce(storedEnabled: bool, settings: AudibleSettings, sample: AudibleSample, gps: GpsStatus)
      requires Valid() && !isInitialized && prefsReady && speechReady
      modifies this
      ensures Valid() && isInitialized && prefsReady && speechReady
      ensures var m := MeasureOf(old(boundaryState), old(gpsFix), true, settings, sample, gps);
        && isEnabled == storedEnabled && threadRunning == storedEnabled
        && boundaryState == (if storedEnabled then m.boundary else old(boundaryState))
        && gpsFix == (if storedEnabled then m.gpsFix else old(gpsFix))
        && effects == old(effects) + FirstStartEffects(storedEnabled, settings.modeName, m)
    {
      isInitialized := true;
      threadRunning := false;
      effects := effects + [SettingsLoaded];
      isEnabled := storedEnabled;
      if isEnabled {
        ghost var m := MeasureOf(boundaryState, gpsFix, true, settings, sample, gps);
        var outcome := EnableAudible(settings, sample, gps);
        assert effects == old(effects) + [SettingsLoaded] + [Log(StartingAudible)]
                          + ([ThreadStarted, SpeakWhenReady(settings.modeName)] + m.effects
                             + (if m.text != "" then [SpeakWhenReady(m.text)] else []))
                          + [SavedEnabled(true), PostedAudibleEvent];
        FirstStartEnabled(old(effects), settings.modeName, m);
      }
    }

    /** `stop`: when initialized, disables a running thread, then drops the thread and the speech. */
    method Stop() returns (outcome: Outcome)
      requires Valid()
      modifies this`threadRunning, this`isEnabled, this`effects, this`isInitialized, this`speechReady
      ensures Valid()
      ensures !isInitialized && !threadRunning && outcome == Completed
      ensures prefsReady == old(prefsReady)
      ensures old(isInitialized) ==>
        (&& !speechReady
         && isEnabled == (old(isEnabled) && !old(threadRunning))
         && effects == old(effects)
              + (if old(threadRunning) then [StopAllSpeech, ThreadStopped, SpeakWhenReady(GOODBYE), SavedEnabled(false), PostedAudibleEvent] else []))
      ensures !old(isInitialized) ==> speechReady == old(speechReady) && isEnabled == old(isEnabled) && effects == old(effects)
    {
      outcome := Completed;
      if isInitialized {
        if threadRunning {
          outcome := DisableAudible();
        }
        threadRunning := false;
        isInitialized := false;
        speechReady := false;
      }
    }
  }
}
