# BASElineFlightComputer core, modelled in Dafny

BASEline is an Android flight computer for skydivers and BASE jumpers. Its core:

- decodes NMEA 0183 sentences from the phone or a bluetooth GPS into location fixes;
- chooses among the location providers;
- fuses barometer and GPS readings into an altitude;
- records tracks to `track_*.csv.gz` files, lists them and uploads the ones queued for upload;
- speaks measurements through the audible;
- keeps a foreground notification while recording or speaking;
- starts and stops all of this through a reference-counted service registry.

Each Java file of the core is one Dafny module:

| Dafny file | module | models |
|---|---|---|
| `location_provider_nmea.dfy` | `NmeaLocation` | `LocationProviderNMEA.onNmeaReceived` and its per-command branches |
| `location_service.dfy` | `LocationArbitration` | `LocationService`: start / stop / restart and the three listener filters |
| `my_altimeter.dfy` | `Altimeter` | `MyAltimeter`: barometer and GPS updates, ground level, listeners |
| `track_file.dfy` | `Tracks` | `TrackFile`, plus the track state registry it is keyed in |
| `track_files.dfy` | `TrackListing` | `TrackFiles.getTracks` |
| `track_logger.dfy` | `TrackLogging` | `TrackLogger` |
| `upload_queue.dfy` | `Uploads` | `UploadQueue` |
| `upload_manager.dfy` | `UploadManagement` | `UploadManager` |
| `services.dfy` | `AppServices` | `Services` |
| `my_audible.dfy` | `Audible` | `MyAudible` |
| `foreground_service.dfy` | `Foreground` | `ForegroundService` |
| `auth_event.dfy` | `AuthEvents` | `AuthEvent` |
| `util.dfy` | `Util` | `Util` |
| `time_chart_touchable.dfy` | `Charts` | `TimeChartTouchable.findClosest` and the `Collections.binarySearch` it calls |

`java_lang.dfy`, `strings.dfy` and `decimal.dfy` hold the Java semantics the core relies on:

- `int` wrap-around, truncating division, `&`;
- `double` with NaN and the infinities;
- `String.trim`, `split("[,*]")`, `startsWith`, `endsWith` and `compareTo`;
- decimal digit strings.

**Objects and collaborators.**
- Objects whose fields change in place are classes. Their methods have `modifies` clauses and state the whole new state.
- Code that only computes is functions and lemmas.
- Calls into code outside the core are function-typed parameters or inputs. This covers the NMEA helpers, number parsers, the barometric formula, the Kalman filter, the uploader and `Numbers.parseDouble`.
- What the code does to the outside world is appended to an `effects` (or `logs`) trace field, in order. This includes event-bus posts, listener registration, speech, provider start/stop and log lines. Every warning and error line of the modelled operations is recorded, except the two of `TrackFiles.getTracks` and the barometer's refresh-rate error. Informational lines are recorded where they mark a branch: in the audible, the foreground service, the upload queue and manager, and the location service. The unrecorded log lines are listed under "## Left out". The contracts can therefore say both what happens and that nothing else happens.
- A Java exception that escapes a method is returned as a `Threw` outcome. Assignments made before the throw persist, as in Java.

**Where the code and its documentation differ, the model follows the code:**
- Upload tending uploads only tracks in state QUEUED.
- `altitudeAGL` is the filtered pressure altitude minus the ground level.
- A bad NMEA tag or checksum is only logged; the sentence is still applied.
- A GGA altitude in a unit other than "M" is still stored, with a log line.
- GNS updates the fix but does not hand a location on.

## Model

Paths are relative to the repository root.

| member | source | states |
|---|---|---|
| AuthEvents.AuthEvent.ToString | app/src/main/java/com/platypii/baseline/events/AuthEvent.java:29-32 | the text is "AuthEvent(" + the state name + ")", and has exactly that length |
| AuthEvents.FromString | app/src/main/java/com/platypii/baseline/events/AuthEvent.java:17-28 | a result is the event whose state name is the input; none exactly when no event has that name (null included) |
| AuthEvents.FromStringRoundTrip | app/src/main/java/com/platypii/baseline/events/AuthEvent.java:8-28 | parsing the state name of every event gives that event back |
| AuthEvents.ToStringInjective | app/src/main/java/com/platypii/baseline/events/AuthEvent.java:29-32 | different events print differently |
| Util.IsReal | app/src/main/java/com/platypii/baseline/util/Util.java:7-9 | true exactly for finite values: false for NaN and both infinities |
| Util.ParseIntStrict | app/src/main/java/com/platypii/baseline/util/Util.java:41 | a value is returned only for an optionally signed literal of digits that the given `Character.digit` accepts (any script's decimal digits) whose value fits in 32 bits, and it is that literal's value |
| Util.ParseInt | app/src/main/java/com/platypii/baseline/util/Util.java:37-48 | null or empty gives the default and reports nothing; otherwise the parsed value, or the default with a crash report exactly when the strict parse fails |
| Util.ParseIntOfLiteral | app/src/main/java/com/platypii/baseline/util/Util.java:37-48 | a signed string of accepted digits in int range parses to its value, with no report |
| Util.ParseIntOutOfRange | app/src/main/java/com/platypii/baseline/util/Util.java:42-47 | a digit string outside int range gives the default, and the caught NumberFormatException is reported |
| Util.ParseIntMalformed | app/src/main/java/com/platypii/baseline/util/Util.java:42-47 | text that is no integer literal gives the default, reported unless the text is empty |
| Util.ParseIntRoundTrip | app/src/main/java/com/platypii/baseline/util/Util.java:37-48 | for every digit function that agrees with ASCII, the decimal text of every 32-bit value parses back to it, unreported |
| Util.AsciiDigitsValue | app/src/main/java/com/platypii/baseline/util/Util.java:41 | on ASCII digit strings every admissible `Character.digit` accepts each digit and gives the plain decimal value |
| Util.LiteralParts | app/src/main/java/com/platypii/baseline/util/Util.java:41 | a literal's sign character and its digits can be told apart again from the concatenation |
| Util.ParseDouble | app/src/main/java/com/platypii/baseline/util/Util.java:11-22 | null and empty give NaN unreported; unparsable text gives NaN and a crash report; otherwise the library parser's value, unreported |
| Util.ParseFloat | app/src/main/java/com/platypii/baseline/util/Util.java:24-35 | null and empty give NaN unreported; unparsable text gives NaN and a crash report; otherwise the library parser's value, unreported |
| Tracks.RemoveCsvGz | app/src/main/java/com/platypii/baseline/tracks/TrackFile.java:21 | the length drops by a multiple of seven; a name with no match of `.csv.gz` (the dot matching any character but a line terminator) is unchanged |
| Tracks.RemoveCsvGzLeftmost | app/src/main/java/com/platypii/baseline/tracks/TrackFile.java:21 | the leftmost match is cut out, the text in front of it is kept, and the replacement goes on behind the seven matched characters; with the no-match case this fixes the result for every name |
| Tracks.RemoveCsvGzStem | app/src/main/java/com/platypii/baseline/tracks/TrackFile.java:21 | a stem without 's' followed by ".csv.gz" becomes the stem |
| Tracks.ReplaceChar | app/src/main/java/com/platypii/baseline/tracks/TrackFile.java:22-23 | each occurrence of the character, and only those, is replaced; the length is kept |
| Tracks.GetNameHasNoUnderscoreOrDash | app/src/main/java/com/platypii/baseline/tracks/TrackFile.java:20-25 | the display name has no '_' and no '-' left |
| Tracks.GetNameExample | app/src/main/java/com/platypii/baseline/tracks/TrackFile.java:20-25 | "track_2017-01-02_03-04-05.csv.gz" is shown as "track 2017.01.02 03.04.05" |
| Tracks.ExampleStemRewritten | app/src/main/java/com/platypii/baseline/tracks/TrackFile.java:22-23 | the two character replacements turn the stem of that example into its display name |
| Tracks.SizeStringDecodes | app/src/main/java/com/platypii/baseline/tracks/TrackFile.java:27-31 | the size text is decimal digits then "kb", and the digits read back as the length divided by 1024 |
| Tracks.TrackFile.ToString | app/src/main/java/com/platypii/baseline/tracks/TrackFile.java:39-42 | the text is the file's name |
| Tracks.TrackFile.Equals | app/src/main/java/com/platypii/baseline/tracks/TrackFile.java:44-47 | equal exactly to a non-null track file with the same file |
| Tracks.HashCodeAgreesWithEquals | app/src/main/java/com/platypii/baseline/tracks/TrackFile.java:44-51 | equal track files have equal hash codes, for any file hash |
| Tracks.EqualsSymmetric | app/src/main/java/com/platypii/baseline/tracks/TrackFile.java:44-47 | equality of track files is symmetric |
| Tracks.TrackStateRegistry.GetState | app/src/main/java/com/platypii/baseline/tracks/TrackFiles.java:35 | a state exactly for a registered track, and it is the registered one |
| Tracks.TrackStateRegistry.SetState | app/src/main/java/com/platypii/baseline/tracks/TrackLogger.java:64 | only this track's state changes, to the given one |
| Tracks.StateIn | app/src/main/java/com/platypii/baseline/cloud/UploadQueue.java:59 | the state looked up in a map of states: present exactly for registered tracks |
| TrackListing.GetTracks | app/src/main/java/com/platypii/baseline/tracks/TrackFiles.java:28-46 | the loop and sort return exactly `ListedTracks`: nothing without a directory, else the matching non-recording entries sorted by name, descending |
| TrackListing.ListedTracksMembers | app/src/main/java/com/platypii/baseline/tracks/TrackFiles.java:27-46 | a track is listed iff the directory exists, it is in it, its name is "track_…​.csv.gz" and it is not RECORDING |
| TrackListing.ListedTracksOnce | app/src/main/java/com/platypii/baseline/tracks/TrackFiles.java:28-41 | with distinct directory names, each listed track occurs exactly once |
| TrackListing.ListedTracksSorted | app/src/main/java/com/platypii/baseline/tracks/TrackFiles.java:41 | the listing is ordered by display name, newest (greatest) first |
| TrackListing.SelectedMembers | app/src/main/java/com/platypii/baseline/tracks/TrackFiles.java:29-38 | the loop keeps exactly the matching non-recording entries |
| TrackListing.SelectedOnce | app/src/main/java/com/platypii/baseline/tracks/TrackFiles.java:29-38 | with distinct directory names, the loop keeps each such entry once |
| TrackListing.SortDescPermutes | app/src/main/java/com/platypii/baseline/tracks/TrackFiles.java:41 | the sort is a permutation of its input |
| TrackListing.SortDescStable | app/src/main/java/com/platypii/baseline/tracks/TrackFiles.java:41 | the sort is stable like `Collections.sort`: the elements with one key keep their input order |
| TrackListing.InsertDescStable | app/src/main/java/com/platypii/baseline/tracks/TrackFiles.java:41 | one insertion puts the element behind all elements of a sorted list with its key |
| TrackListing.ListedTracksStable | app/src/main/java/com/platypii/baseline/tracks/TrackFiles.java:29-41 | tracks with equal display names (such as "track_a-b.csv.gz" and "track_a.b.csv.gz") come in directory order |
| TrackListing.SortDescSorted | app/src/main/java/com/platypii/baseline/tracks/TrackFiles.java:41 | the sort output is in descending key order |
| TrackListing.InsertDescPermutes | app/src/main/java/com/platypii/baseline/tracks/TrackFiles.java:41 | one insertion step adds exactly the inserted element |
| TrackListing.InsertDescSorted | app/src/main/java/com/platypii/baseline/tracks/TrackFiles.java:41 | one insertion step keeps a sorted list sorted |
| TrackListing.InsertFrontSorted | app/src/main/java/com/platypii/baseline/tracks/TrackFiles.java:41 | an element greater than the first goes in front and the list stays sorted |
| TrackListing.InsertBehindSorted | app/src/main/java/com/platypii/baseline/tracks/TrackFiles.java:41 | an element not greater than the first goes behind it and the list stays sorted |
| JavaStrings.LexLessIrreflexive | app/src/main/java/com/platypii/baseline/tracks/TrackFiles.java:41 | `compareTo` never puts a name before itself |
| JavaStrings.LexLessTransitive | app/src/main/java/com/platypii/baseline/tracks/TrackFiles.java:41 | `compareTo` order is transitive |
| JavaStrings.LexLessTotal | app/src/main/java/com/platypii/baseline/tracks/TrackFiles.java:41 | any two names are ordered or equal |
| TrackLogging.TrackLogger.Start | app/src/main/java/com/platypii/baseline/tracks/TrackLogger.java:47-49 | only the track directory is set |
| TrackLogging.TrackLogger.NewTrackFile | app/src/main/java/com/platypii/baseline/tracks/TrackLogger.java:133-146 | the loop returns a file in the track directory whose name no file there has, and which is the first free name: "track_T.csv.gz", then "track_T_2.csv.gz", "track_T_3.csv.gz", ... |
| TrackLogging.CandidateNameInjective | app/src/main/java/com/platypii/baseline/tracks/TrackLogger.java:139-143 | different loop indices try different names |
| TrackLogging.LeastFreeNameUnique | app/src/main/java/com/platypii/baseline/tracks/TrackLogger.java:139-143 | the first free name is determined by the directory contents |
| TrackLogging.TrackLogger.StartLogging | app/src/main/java/com/platypii/baseline/tracks/TrackLogger.java:51-79 | without a directory only "called before start()" is logged; while logging only "already logging"; otherwise logging with the clocks reset, the least free name, the track RECORDING, and then either an open failure, a header failure or the header written with listeners on and the start posted |
| TrackLogging.TrackLogger.StopLogging | app/src/main/java/com/platypii/baseline/tracks/TrackLogger.java:84-99 | not logging only logs; otherwise listeners off and the stop time taken; a closed log gives NOT_UPLOADED and the stop event, a failing close logs, reports and sets no state; a null writer is a NullPointerException |
| TrackLogging.TrackLogger.IsLogging | app/src/main/java/com/platypii/baseline/tracks/TrackLogger.java:101-103 | the logging flag |
| TrackLogging.TrackLogger.GetStartTime | app/src/main/java/com/platypii/baseline/tracks/TrackLogger.java:105-111 | the start time while logging, 0 otherwise |
| TrackLogging.TrackLogger.GetLogTime | app/src/main/java/com/platypii/baseline/tracks/TrackLogger.java:116-131 | empty when idle; else the elapsed time to now, or to the stop time once taken, formatted |
| TrackLogging.LogTimeDecodes | app/src/main/java/com/platypii/baseline/tracks/TrackLogger.java:124-127 | the "%d:%02d.%03d" text splits into minutes, seconds below 60 and milliseconds below 1000 that add up to the elapsed milliseconds |
| TrackLogging.FormatNonNegative | app/src/main/java/com/platypii/baseline/tracks/TrackLogger.java:124-127 | for a non-negative duration the truncating operators are the plain ones |
| TrackLogging.ElapsedParts | app/src/main/java/com/platypii/baseline/tracks/TrackLogger.java:124-126 | minutes, seconds and milliseconds recombine to the elapsed milliseconds |
| TrackLogging.FieldSlices | app/src/main/java/com/platypii/baseline/tracks/TrackLogger.java:127 | the three fields sit at fixed positions from the end of the text |
| TrackLogging.TrackLogger.LogLine | app/src/main/java/com/platypii/baseline/tracks/TrackLogger.java:219-231 | while logging, the line and a newline are appended to the open file and the write recorded; a closed writer or a failed write is logged and reported; a null writer throws NullPointerException; when idle only the report; the recording state is kept |
| TrackLogging.TrackLogger.OnAltitudeEvent | app/src/main/java/com/platypii/baseline/tracks/TrackLogger.java:190-195 | a NaN pressure changes nothing; otherwise the row is logged with every outcome of `logLine`; the recording state is kept |
| TrackLogging.TrackLogger.OnLocationChanged | app/src/main/java/com/platypii/baseline/tracks/TrackLogger.java:200-205 | a NaN latitude or longitude changes nothing; otherwise the row is logged with every outcome of `logLine`; the recording state is kept |
| TrackLogging.TrackLogger.OnSensorChanged | app/src/main/java/com/platypii/baseline/tracks/TrackLogger.java:210-213 | the row is logged with every outcome of `logLine`; the recording state is kept |
| TrackLogging.TrackLogger.Stop | app/src/main/java/com/platypii/baseline/tracks/TrackLogger.java:233-238 | only the "still logging" error, and only while logging; files and the recording state are kept |
| Uploads.UploadQueue.Start | app/src/main/java/com/platypii/baseline/cloud/UploadQueue.java:22-25 | one tend |
| Uploads.UploadQueue.TendQueue | app/src/main/java/com/platypii/baseline/cloud/UploadQueue.java:30-50 | skips while a tender runs or when not signed in; otherwise one pass, and the tender stays registered exactly when some upload failed |
| Uploads.UploadQueue.UploadPass | app/src/main/java/com/platypii/baseline/cloud/UploadQueue.java:56-66 | attempts exactly the QUEUED listed tracks in listing order; true iff every attempt succeeded |
| Uploads.UploadQueue.VisitTrack | app/src/main/java/com/platypii/baseline/cloud/UploadQueue.java:58-63 | one loop step: a QUEUED track is attempted and a failure counted; any other track is skipped |
| Uploads.PassStep | app/src/main/java/com/platypii/baseline/cloud/UploadQueue.java:58-63 | appending a track extends the queued tracks, attempts and failures by that track's share |
| Uploads.AttemptsOfSpec | app/src/main/java/com/platypii/baseline/cloud/UploadQueue.java:58-63 | the i-th attempt is the i-th queued track with its upload result |
| Uploads.FailuresZeroIff | app/src/main/java/com/platypii/baseline/cloud/UploadQueue.java:62-65 | no errors iff every queued upload succeeded |
| Uploads.QueuedInMembers | app/src/main/java/com/platypii/baseline/cloud/UploadQueue.java:58-59 | a track is visited iff it is listed and QUEUED |
| Uploads.QueuedInOnce | app/src/main/java/com/platypii/baseline/cloud/UploadQueue.java:58-59 | a QUEUED track is visited as often as it is listed, any other never |
| Uploads.PassUploadsEachQueuedOnce | app/src/main/java/com/platypii/baseline/cloud/UploadQueue.java:56-66 | with distinct directory names, each QUEUED track file of the directory is uploaded exactly once per pass, and nothing else is |
| UploadManagement.UploadManager.Start | app/src/main/java/com/platypii/baseline/cloud/UploadManager.java:35-41 | subscribes, then one tend of the queue |
| UploadManagement.UploadManager.OnLoggingEvent | app/src/main/java/com/platypii/baseline/cloud/UploadManager.java:48-55 | a stopped recording of a signed-in user logs the autosync and tends the queue; anything else does nothing |
| UploadManagement.UploadManager.OnUploadSuccess | app/src/main/java/com/platypii/baseline/cloud/UploadManager.java:56-60 | the track becomes UPLOADED and its cloud data is remembered; other tracks' cloud data is unchanged |
| UploadManagement.UploadManager.OnUploadFailure | app/src/main/java/com/platypii/baseline/cloud/UploadManager.java:61-64 | the track becomes NOT_UPLOADED |
| UploadManagement.UploadManager.GetCompleted | app/src/main/java/com/platypii/baseline/cloud/UploadManager.java:66-68 | the remembered cloud data, null for a track never uploaded |
| UploadManagement.UploadManager.Stop | app/src/main/java/com/platypii/baseline/cloud/UploadManager.java:70-72 | unsubscribes and nothing else |
| NmeaLocation.LocationProviderNMEA.OnNmeaReceived | app/src/main/java/com/platypii/baseline/location/LocationProviderNMEA.java:61-192 | sets the latch and does what `ReceiveFields` says for the trimmed, split sentence: fix, log lines, emitted locations and exception |
| NmeaLocation.LocationProviderNMEA.ReceiveSplit | app/src/main/java/com/platypii/baseline/location/LocationProviderNMEA.java:66-191 | the latch is set, its line logged on the first sentence only, and the rest is `Latched` |
| NmeaLocation.LocationProviderNMEA.SetReceived | app/src/main/java/com/platypii/baseline/location/LocationProviderNMEA.java:66-69 | the latch is set, and "First NMEA string received" is logged iff it was not; nothing else changes |
| NmeaLocation.LocationProviderNMEA.ReceiveLatched | app/src/main/java/com/platypii/baseline/location/LocationProviderNMEA.java:71-191 | an empty split throws ArrayIndexOutOfBounds and a short tag StringIndexOutOfBounds, with nothing changed; otherwise as `Checked` |
| NmeaLocation.LocationProviderNMEA.CheckAndDispatch | app/src/main/java/com/platypii/baseline/location/LocationProviderNMEA.java:74-191 | the tag complaint, then the checksum complaint, then the command's branch, as `Checked` |
| NmeaLocation.ReceiveDispatches | app/src/main/java/com/platypii/baseline/location/LocationProviderNMEA.java:61-83 | with a tag of 6 or more characters: the first-sentence log, tag and checksum complaints, then the command's own effect on the fix |
| NmeaLocation.ReceiveLatch | app/src/main/java/com/platypii/baseline/location/LocationProviderNMEA.java:66-69 | "First NMEA string received" is logged first exactly when no sentence came before, never after |
| NmeaLocation.DispatchLogs | app/src/main/java/com/platypii/baseline/location/LocationProviderNMEA.java:83-191 | no command logs the first-sentence line |
| NmeaLocation.FieldReports | app/src/main/java/com/platypii/baseline/util/Util.java:11-35 | a field sends a crash report exactly when it is non-empty and the library parser rejects it, for both parsers |
| NmeaLocation.NoReportWhenFieldsParse | app/src/main/java/com/platypii/baseline/location/LocationProviderNMEA.java:83-191 | when every field is empty or parses, no command sends a crash report |
| NmeaLocation.GsaLogLines | app/src/main/java/com/platypii/baseline/location/LocationProviderNMEA.java:84-91 | GSA never logs the latch line, and reports only an unparsable dilution |
| NmeaLocation.GgaLogLines | app/src/main/java/com/platypii/baseline/location/LocationProviderNMEA.java:96-128 | GGA never logs the latch line, and reports only an unparsable hdop or altitude |
| NmeaLocation.RmcLogLines | app/src/main/java/com/platypii/baseline/location/LocationProviderNMEA.java:129-160 | RMC never logs the latch line, and reports only an unparsable speed or course |
| NmeaLocation.GnsLogLines | app/src/main/java/com/platypii/baseline/location/LocationProviderNMEA.java:161-173 | GNS never logs the latch line, and reports only an unparsable altitude |
| NmeaLocation.VtgLogLines | app/src/main/java/com/platypii/baseline/location/LocationProviderNMEA.java:174-177 | VTG never logs the latch line, and reports only an unparsable course or speed |
| NmeaLocation.ReceiveMalformedFirstField | app/src/main/java/com/platypii/baseline/location/LocationProviderNMEA.java:71-72 | an empty split throws ArrayIndexOutOfBounds, a tag shorter than 6 throws StringIndexOutOfBounds; the fix is untouched and nothing is emitted |
| NmeaLocation.ChecksumOnlyLogged | app/src/main/java/com/platypii/baseline/location/LocationProviderNMEA.java:78-80 | the checksum result changes no fix value, emitted location or exception |
| NmeaLocation.DispatchIgnoresChecksum | app/src/main/java/com/platypii/baseline/location/LocationProviderNMEA.java:83-191 | the command branches do not read the checksum |
| NmeaLocation.OnlyRmcEmits | app/src/main/java/com/platypii/baseline/location/LocationProviderNMEA.java:129-160 | a sentence emits at most one location, and only a complete RMC sentence does |
| NmeaLocation.DispatchEmitsOnlyRmc | app/src/main/java/com/platypii/baseline/location/LocationProviderNMEA.java:83-191 | only the RMC branch emits, at most once, after all its fields were read |
| NmeaLocation.CommandOf | app/src/main/java/com/platypii/baseline/location/LocationProviderNMEA.java:83-190 | the default case is taken exactly for a command outside GSA, GSV, GGA, RMC, GNS, VTG, PWR |
| NmeaLocation.GsaSetsDops | app/src/main/java/com/platypii/baseline/location/LocationProviderNMEA.java:84-91 | only pdop, hdop and vdop change, read from the 4th, 3rd and 2nd last fields, with one crash report per unparsable one, in order; fewer than 4 fields throw and change nothing |
| NmeaLocation.GsvSetsSatellitesInView | app/src/main/java/com/platypii/baseline/location/LocationProviderNMEA.java:92-95 | only the satellites in view change, parsed from field 3 (-1 if empty); it completes iff that field exists and parses |
| NmeaLocation.GgaFrame | app/src/main/java/com/platypii/baseline/location/LocationProviderNMEA.java:96-128 | GGA changes only position, fix quality, satellites used, hdop and GPS altitude, and emits nothing |
| NmeaLocation.GgaComplete | app/src/main/java/com/platypii/baseline/location/LocationProviderNMEA.java:96-128 | with 11 fields and parsable counts: each value from its field, the altitude only when field 9 is non-empty, a log line when the unit is not "M", and the hdop and altitude crash reports |
| NmeaLocation.GgaBadQuality | app/src/main/java/com/platypii/baseline/location/LocationProviderNMEA.java:98-100 | an unparsable fix quality throws NumberFormatException after the position was already stored, with no log line |
| NmeaLocation.GgaLogs | app/src/main/java/com/platypii/baseline/location/LocationProviderNMEA.java:96-108 | GGA logs nothing before the hdop; then the hdop's report, and with field 9 set the unit complaint and the altitude's report |
| NmeaLocation.RmcComplete | app/src/main/java/com/platypii/baseline/location/LocationProviderNMEA.java:129-160 | with 10 fields: position, speed, course, date and fix time from their fields, the velocity components from speed and course, a location emitted iff some coordinate or component is real, and the log lines: speed and course reports, then the fix-quality and clock checks |
| NmeaLocation.RmcChecksOnlyLog | app/src/main/java/com/platypii/baseline/location/LocationProviderNMEA.java:142-148 | the fix-quality and clock checks only log: the fix, the emitted location and the outcome do not depend on them |
| NmeaLocation.GnsUsesStoredDate | app/src/main/java/com/platypii/baseline/location/LocationProviderNMEA.java:161-173 | the fix time is the stored date plus the time field; only time, position, altitude and satellites used can change, nothing is emitted, and only a non-empty unparsable altitude is reported |
| NmeaLocation.VtgSetsCourseAndSpeed | app/src/main/java/com/platypii/baseline/location/LocationProviderNMEA.java:174-177 | only course and speed change, from fields 1 and 5, each unparsable one reported; fewer than 6 fields throw after the course and its report |
| NmeaLocation.PwrAndUnknownKeepFix | app/src/main/java/com/platypii/baseline/location/LocationProviderNMEA.java:185-190 | PWR and unknown commands keep the fix; only the unknown one logs |
| NmeaLocation.FieldIntReads | app/src/main/java/com/platypii/baseline/location/LocationProviderNMEA.java:194-196 | an empty field reads -1; for any admissible `Character.digit`, the decimal text of a 32-bit value reads as that value |
| NmeaLocation.LocationProviderNMEA.DispatchCommand | app/src/main/java/com/platypii/baseline/location/LocationProviderNMEA.java:83-191 | the switch does what `Dispatch` says for the command |
| NmeaLocation.LocationProviderNMEA.OnGsa | app/src/main/java/com/platypii/baseline/location/LocationProviderNMEA.java:84-91 | the GSA branch, statement by statement, as `GsaStep` |
| NmeaLocation.LocationProviderNMEA.OnGsv | app/src/main/java/com/platypii/baseline/location/LocationProviderNMEA.java:92-95 | the GSV branch as `GsvStep` |
| NmeaLocation.LocationProviderNMEA.OnGga | app/src/main/java/com/platypii/baseline/location/LocationProviderNMEA.java:96-128 | the GGA branch as `GgaStep`, including the partial updates before an exception |
| NmeaLocation.LocationProviderNMEA.GgaFinish | app/src/main/java/com/platypii/baseline/location/LocationProviderNMEA.java:102-108 | the hdop, unit check and altitude part of GGA, as `GgaTail` |
| NmeaLocation.LocationProviderNMEA.OnRmc | app/src/main/java/com/platypii/baseline/location/LocationProviderNMEA.java:129-160 | the RMC branch as `RmcStep` |
| NmeaLocation.LocationProviderNMEA.RmcFinish | app/src/main/java/com/platypii/baseline/location/LocationProviderNMEA.java:139-159 | the date, checks, velocity and hand-off part of RMC as `RmcCommit` |
| NmeaLocation.LocationProviderNMEA.OnGns | app/src/main/java/com/platypii/baseline/location/LocationProviderNMEA.java:161-173 | the GNS branch as `GnsStep` |
| NmeaLocation.LocationProviderNMEA.OnVtg | app/src/main/java/com/platypii/baseline/location/LocationProviderNMEA.java:174-177 | the VTG branch as `VtgStep` |
| NmeaLocation.LocationProviderNMEA.UpdateLocation | app/src/main/java/com/platypii/baseline/location/LocationProviderNMEA.java:51-55 | hands on one location built from the current values, with NaN horizontal accuracy, and changes nothing else |
| JavaStrings.Trim | app/src/main/java/com/platypii/baseline/location/LocationProviderNMEA.java:62 | the trimmed text neither starts nor ends with a character at or below ' ' |
| JavaStrings.TrimIsMiddle | app/src/main/java/com/platypii/baseline/location/LocationProviderNMEA.java:62 | the trimmed text is a slice of the input with only such characters cut off |
| JavaStrings.Split | app/src/main/java/com/platypii/baseline/location/LocationProviderNMEA.java:71 | `split("[,*]")`: fields without separators; the whole text when there is no separator; else the fields up to trailing empty ones, which are all dropped |
| JavaStrings.FieldsRoundTrip | app/src/main/java/com/platypii/baseline/location/LocationProviderNMEA.java:71 | the fields joined with their separators are the text again |
| LocationArbitration.ModeValue | common/src/main/java/com/platypii/baseline/location/LocationService.java:19-21 | NONE, ANDROID and BLUETOOTH are 0, 1 and 2 |
| LocationArbitration.LocationService.Start | common/src/main/java/com/platypii/baseline/location/LocationService.java:83-97 | the preference alone picks the mode and exactly its providers are started and attached |
| LocationArbitration.LocationService.Stop | common/src/main/java/com/platypii/baseline/location/LocationService.java:109-123 | the current mode's providers are detached and stopped, the mode becomes NONE and the superclass stops |
| LocationArbitration.LocationService.Restart | common/src/main/java/com/platypii/baseline/location/LocationService.java:102-106 | a log line, a stop of the old mode, a start of the new one |
| LocationArbitration.LocationService.OnNmeaLocation | common/src/main/java/com/platypii/baseline/location/LocationService.java:40-47 | an NMEA fix is forwarded iff bluetooth is off |
| LocationArbitration.LocationService.OnBluetoothLocation | common/src/main/java/com/platypii/baseline/location/LocationService.java:67-74 | a bluetooth fix is forwarded iff bluetooth is on |
| LocationArbitration.LocationService.OnAndroidLocation | common/src/main/java/com/platypii/baseline/location/LocationService.java:48-62 | an android fix passes only with bluetooth off and no NMEA ever received; it then bumps the wrapping counter, reports counts that are powers of two above 1, and is forwarded |
| LocationArbitration.StartRunsMode | common/src/main/java/com/platypii/baseline/location/LocationService.java:83-97 | after a start exactly the mode's providers run and are attached |
| LocationArbitration.StopUndoesMode | common/src/main/java/com/platypii/baseline/location/LocationService.java:109-123 | a stop detaches and stops exactly the mode's providers and leaves any others as they were |
| LocationArbitration.StartTouchesOnlyMode | common/src/main/java/com/platypii/baseline/location/LocationService.java:83-97 | a start touches no provider outside its mode and stops none |
| LocationArbitration.RestartRunsNewMode | common/src/main/java/com/platypii/baseline/location/LocationService.java:102-106 | after start then restart, exactly the new mode's providers run and are attached |
| LocationArbitration.AttachmentsAppend | common/src/main/java/com/platypii/baseline/location/LocationService.java:83-123 | replaying two traces one after the other is replaying their concatenation |
| LocationArbitration.RunningAppend | common/src/main/java/com/platypii/baseline/location/LocationService.java:83-123 | the same for which providers run |
| LocationArbitration.IsPower2Correct | common/src/main/java/com/platypii/baseline/location/LocationService.java:63-65 | for positive ints `(n & (n - 1)) == 0` holds exactly for powers of two |
| LocationArbitration.BitAndPredecessor | common/src/main/java/com/platypii/baseline/location/LocationService.java:64 | n & (n - 1) is 0 exactly for powers of two |
| LocationArbitration.BitAndSelf | common/src/main/java/com/platypii/baseline/location/LocationService.java:64 | n & n is n |
| LocationArbitration.ReportedAtPowersOfTwo | common/src/main/java/com/platypii/baseline/location/LocationService.java:57-59 | a fallback count is reported exactly when it is a power of two other than 1 |
| LocationArbitration.ReportedAtPow2 | common/src/main/java/com/platypii/baseline/location/LocationService.java:57-59 | counts 2, 4, 8, ... in int range are reported |
| LocationArbitration.Pow2IsPowerOfTwo | common/src/main/java/com/platypii/baseline/location/LocationService.java:57 | 2^k is a power of two |
| Altimeter.MyAltimeter.Start | app/src/main/java/com/platypii/baseline/altimeter/MyAltimeter.java:67-86 | once: registers the pressure sensor if there is one and the GPS listener if location runs, else logs; again: only the "already started" warning |
| Altimeter.MyAltimeter.Stop | app/src/main/java/com/platypii/baseline/altimeter/MyAltimeter.java:278-286 | removes the GPS listener and unregisters the sensor, warning if listeners remain; without a location service the first call throws NullPointerException and nothing changes; before a start the null sensor manager throws after the listener is removed |
| Altimeter.MyAltimeter.AddListener | app/src/main/java/com/platypii/baseline/altimeter/MyAltimeter.java:267-271 | appends the listener |
| Altimeter.MyAltimeter.RemoveListener | app/src/main/java/com/platypii/baseline/altimeter/MyAltimeter.java:272-276 | removes its first occurrence |
| Altimeter.RemoveFirstRemovesOne | app/src/main/java/com/platypii/baseline/altimeter/MyAltimeter.java:272-276 | removing a present listener removes exactly one occurrence |
| Altimeter.RemoveFirst | app/src/main/java/com/platypii/baseline/altimeter/MyAltimeter.java:274 | removing an absent listener changes nothing |
| Altimeter.MyAltimeter.AltitudeAGL | app/src/main/java/com/platypii/baseline/altimeter/MyAltimeter.java:88-90 | the filtered pressure altitude minus the ground level, NaN if either is |
| Altimeter.MyAltimeter.UpdateAltitude | app/src/main/java/com/platypii/baseline/altimeter/MyAltimeter.java:218-240 | publishes one record of the current time, altitude, climb and pressure |
| Altimeter.MyAltimeter.UpdateBarometer | app/src/main/java/com/platypii/baseline/altimeter/MyAltimeter.java:116-174 | a null, empty or NaN event changes nothing; any other is read, filtered, counted, refines the ground level over the first 16 samples and publishes once |
| Altimeter.MyAltimeter.AcceptBarometer | app/src/main/java/com/platypii/baseline/altimeter/MyAltimeter.java:120-173 | the accepted path: read, calibrate, publish, keeping the sample counters and the ground-level mean in step |
| Altimeter.MyAltimeter.ReadBarometer | app/src/main/java/com/platypii/baseline/altimeter/MyAltimeter.java:120-161 | pressure, times, raw altitude, the filter update with its time step, filtered altitude, climb, official altitude and the NaN warning |
| Altimeter.BarometerDt | app/src/main/java/com/platypii/baseline/altimeter/MyAltimeter.java:145 | the time step is 0 while the altitude is NaN, else the nanosecond delta in seconds |
| Altimeter.MyAltimeter.CalibrateGroundLevel | app/src/main/java/com/platypii/baseline/altimeter/MyAltimeter.java:164-172 | counts the sample; the ground level stays the running mean of the first 16 raw altitudes and is frozen afterwards |
| Altimeter.GroundLevelStep | app/src/main/java/com/platypii/baseline/altimeter/MyAltimeter.java:164-170 | the three branches of the ground-level update compute the running mean over at most 16 samples |
| Altimeter.RunningMeanIsMean | app/src/main/java/com/platypii/baseline/altimeter/MyAltimeter.java:164-170 | the incremental update yields the arithmetic mean of finite samples |
| Altimeter.GroundLevelIsMean | app/src/main/java/com/platypii/baseline/altimeter/MyAltimeter.java:164-170 | the ground level is the arithmetic mean of the first (at most 16) finite raw altitudes |
| Altimeter.MeanStep | app/src/main/java/com/platypii/baseline/altimeter/MyAltimeter.java:169 | one incremental step turns the mean of k samples into the mean of k + 1 |
| Altimeter.MyAltimeter.UpdateGps | app/src/main/java/com/platypii/baseline/altimeter/MyAltimeter.java:180-213 | a NaN GPS altitude changes nothing; with barometer samples the offset is seeded from the unchanged filtered altitude, then nudged by the error over min(count, 20); without them the GPS altitude and its climb rate become official; one record is published; the pressure fields, listeners and raw samples stay as they were |
| Altimeter.NudgeShrinksError | app/src/main/java/com/platypii/baseline/altimeter/MyAltimeter.java:191-194 | for the count-th further GPS sample the correction factor c = min(count, 20) lies in [1, 20]; one nudge multiplies the altitude error against GPS by 1 - 1/c, which lies in [0, 19/20], and the second sample snaps the altitude onto GPS |
| AppServices.Services.Create | app/src/main/java/com/platypii/baseline/Services.java:65-71 | the first call loads the preferences, later calls change nothing |
| AppServices.LoadPreferences | app/src/main/java/com/platypii/baseline/Services.java:212-236 | each setting is its preference or its default (metric off, barometer on, auto-stop on, bluetooth off, no device), and the home location changes only when both coordinates are real |
| AppServices.DefaultPreferences | app/src/main/java/com/platypii/baseline/Services.java:216-235 | empty preferences give exactly the defaults and keep the home location |
| AppServices.GetBoolean | app/src/main/java/com/platypii/baseline/Services.java:216-225 | the stored boolean, or the default when absent |
| AppServices.GetString | app/src/main/java/com/platypii/baseline/Services.java:226-231 | the stored string, or null when absent |
| AppServices.Services.Start | app/src/main/java/com/platypii/baseline/Services.java:74-144 | the count goes up (32-bit); the first start runs the whole start-up sequence; a later one only warns when the count exceeds 2 |
| AppServices.StartupOrder | app/src/main/java/com/platypii/baseline/Services.java:85-132 | start-up starts bluetooth (if enabled), logger, location (if permitted), sensors, altimeter, flight computer, audible (if speech is loaded), notifications, cloud, in that order; with all three, the full order |
| AppServices.StartupTailOrder | app/src/main/java/com/platypii/baseline/Services.java:109-132 | the second half of that order |
| AppServices.BluetoothStartup | app/src/main/java/com/platypii/baseline/Services.java:85-88 | bluetooth starts iff its preference is on |
| AppServices.LocationStartup | app/src/main/java/com/platypii/baseline/Services.java:94-107 | location starts iff permission is granted (a SecurityException is only logged), else permission is requested |
| AppServices.AudibleStartup | app/src/main/java/com/platypii/baseline/Services.java:118-126 | the audible starts iff speech is loaded, else the speech check begins |
| AppServices.StartEach | app/src/main/java/com/platypii/baseline/Services.java:92-132 | starting a list of services starts exactly those, in order |
| AppServices.StopEach | app/src/main/java/com/platypii/baseline/Services.java:190-198 | stopping a list of services stops exactly those, in order, and starts none |
| AppServices.StartedInAppend | app/src/main/java/com/platypii/baseline/Services.java:85-132 | the services started by two traces in a row are those of each, in order |
| AppServices.StoppedInAppend | app/src/main/java/com/platypii/baseline/Services.java:190-198 | the same for stopped services |
| AppServices.StartedInCons | app/src/main/java/com/platypii/baseline/Services.java:85-132 | one effect in front adds its started service in front |
| AppServices.StoppedInCons | app/src/main/java/com/platypii/baseline/Services.java:190-198 | one effect in front adds its stopped service in front |
| AppServices.Services.OnTtsLoaded | app/src/main/java/com/platypii/baseline/Services.java:149-162 | the breadcrumb; the first load starts the audible if services are up; a second load warns and reports |
| AppServices.Services.Stop | app/src/main/java/com/platypii/baseline/Services.java:164-170 | the count goes down (32-bit) and the idle check is scheduled after 10 s exactly when it reaches 0 |
| AppServices.Services.StopIfIdle | app/src/main/java/com/platypii/baseline/Services.java:185-210 | when up with count 0: shuts everything down unless recording or audible, in which case each reason is warned; otherwise nothing |
| AppServices.ShutdownReversesStartup | app/src/main/java/com/platypii/baseline/Services.java:190-198 | shutdown stops every service, in exactly the reverse of the start order, and starts none |
| AppServices.StopOrderReversesStartOrder | app/src/main/java/com/platypii/baseline/Services.java:85-132 | the stop order is the start order reversed |
| AppServices.Reverse | app/src/main/java/com/platypii/baseline/Services.java:190-198 | element i of the reversal is element n-1-i |
| Audible.StateCode | app/src/main/java/com/platypii/baseline/audible/MyAudible.java:30-32 | below, inside and above are -1, 0 and 1, and only they |
| Audible.Announce | app/src/main/java/com/platypii/baseline/audible/MyAudible.java:139-158 | the new state is the sample's side of [min, max]; inside speaks the phrase; outside speaks "min"/"max" only when the state was not already that side, else nothing |
| Audible.FixStep | app/src/main/java/com/platypii/baseline/audible/MyAudible.java:176-191 | the new fix flag is whether the fix is good, and "Signal lost" is spoken exactly on a good-to-bad transition |
| Audible.MeasureOf | app/src/main/java/com/platypii/baseline/audible/MyAudible.java:133-167 | `getMeasurement` throws (a null speech engine) exactly when a good fix is lost outside vertical-speed mode with no speech, and then changes no state |
| Audible.SkippedSampleKeepsState | app/src/main/java/com/platypii/baseline/audible/MyAudible.java:159-166 | a stale fix (outside vertical speed) or a non-real sample speaks nothing and keeps the boundary state |
| Audible.FreshSampleAnnounced | app/src/main/java/com/platypii/baseline/audible/MyAudible.java:136-158 | a fresh real sample is announced by the hysteresis |
| Audible.MeasureTracksFix | app/src/main/java/com/platypii/baseline/audible/MyAudible.java:136 | vertical-speed mode never looks at the fix; other modes record it and say "Signal lost" exactly when it is lost |
| Audible.AnnouncementsRememberPreviousSide | app/src/main/java/com/platypii/baseline/audible/MyAudible.java:139-158 | over a run of samples, each text is the hysteresis applied to the state the previous samples left |
| Audible.ExcursionAnnouncedOnce | app/src/main/java/com/platypii/baseline/audible/MyAudible.java:139-154 | a run of samples all on one side outside the range says "min"/"max" at most once, at its start, and only when the state was not already there |
| Audible.SignalLostAtFallingEdges | app/src/main/java/com/platypii/baseline/audible/MyAudible.java:176-191 | over a run of fix checks, "Signal lost" is spoken exactly where a good fix is followed by a bad one |
| Audible.MyAudible.IsEnabled | app/src/main/java/com/platypii/baseline/audible/MyAudible.java:169-171 | the enabled flag |
| Audible.MyAudible.GoodGpsFix | app/src/main/java/com/platypii/baseline/audible/MyAudible.java:176-191 | the flag becomes whether the fix is good; a lost fix with no speech throws after the log line |
| Audible.MyAudible.GetMeasurement | app/src/main/java/com/platypii/baseline/audible/MyAudible.java:133-167 | does exactly what `MeasureOf` says: text, boundary state, fix flag, effects, exception |
| Audible.MyAudible.Speak | app/src/main/java/com/platypii/baseline/audible/MyAudible.java:116-121 | the measurement, then speaks it now iff speech exists and it is non-empty |
| Audible.MyAudible.SpeakMeasurementWhenReady | app/src/main/java/com/platypii/baseline/audible/MyAudible.java:123-128 | the measurement, then queues it iff speech exists and it is non-empty |
| Audible.MyAudible.SpeakNowText | app/src/main/java/com/platypii/baseline/audible/MyAudible.java:104-114 | complains when disabled; speaks if speech exists, else logs |
| Audible.MyAudible.EnableAudible | app/src/main/java/com/platypii/baseline/audible/MyAudible.java:55-77 | initialised and not running: the thread starts, the mode name and first measurement are queued; otherwise the matching log line; then enabled, saved and posted (null preferences throw) |
| Audible.MyAudible.StartThreadIfInitialized | app/src/main/java/com/platypii/baseline/audible/MyAudible.java:57-71 | the branch of `enableAudible` that starts the thread |
| Audible.MyAudible.DisableAudible | app/src/main/java/com/platypii/baseline/audible/MyAudible.java:79-92 | initialised: stops speech and thread and says goodbye, else logs; then disabled, saved and posted |
| Audible.MyAudible.Start | app/src/main/java/com/platypii/baseline/audible/MyAudible.java:35-53 | speech and preferences are (re)created; the first call loads settings and, iff the flag was stored enabled, runs all of `enableAudible` with the first measurement from the old state, stated effect by effect with the new boundary state and fix flag; a second call only logs and reports |
| Audible.MyAudible.InitializeOnce | app/src/main/java/com/platypii/baseline/audible/MyAudible.java:40-48 | the first-call branch: a new thread, the settings load, the stored flag, and `enableAudible`'s effects and state when it is set |
| Audible.MyAudible.Stop | app/src/main/java/com/platypii/baseline/audible/MyAudible.java:198-207 | disables a running audible, then drops thread and speech; nothing if never initialised |
| Foreground.ActionOf | app/src/main/java/com/platypii/baseline/ForegroundService.java:24-42 | each of the four actions is recognised exactly for its string; null and anything else are unexpected |
| Foreground.ForegroundService.OnStartCommand | app/src/main/java/com/platypii/baseline/ForegroundService.java:22-44 | each known action sets just its flag and updates the notification; an unexpected one is only logged; always START_STICKY; in the foreground iff a flag is set |
| Foreground.ForegroundService.UpdateNotification | app/src/main/java/com/platypii/baseline/ForegroundService.java:46-58 | shows the notification while a flag is set, else leaves the foreground and stops itself |
| Foreground.ForegroundAfterUpdate | app/src/main/java/com/platypii/baseline/ForegroundService.java:46-58 | after an update the service is in the foreground exactly when a flag is set |
| Foreground.ReceivedKeepsForeground | app/src/main/java/com/platypii/baseline/ForegroundService.java:24-42 | the log lines change nothing about the foreground |
| Charts.BinarySearch | app/src/main/java/com/platypii/baseline/views/charts/TimeChartTouchable.java:38 | `Collections.binarySearch` on points sorted by time: a matching index or -(insertion point) - 1 |
| Charts.NegativeResultIsInsertionPoint | app/src/main/java/com/platypii/baseline/views/charts/TimeChartTouchable.java:38 | a negative result means the time is absent and encodes the insertion point |
| Charts.InsertionPointUnique | app/src/main/java/com/platypii/baseline/views/charts/TimeChartTouchable.java:38 | the insertion point of a sorted list is determined |
| Charts.InsertionPoint | app/src/main/java/com/platypii/baseline/views/charts/TimeChartTouchable.java:38 | the insertion point is between 0 and the size |
| Charts.ClosestIndexCases | app/src/main/java/com/platypii/baseline/views/charts/TimeChartTouchable.java:39-40 | a match is read at its index; otherwise the index is insertion point + 1, the last point when that is the size, and out of bounds when the time is beyond every point |
| Charts.TimeChartTouchable.FindClosest | app/src/main/java/com/platypii/baseline/views/charts/TimeChartTouchable.java:36-42 | no track throws NullPointerException; a matching time returns that point; otherwise the point after the insertion point, the last point, or IndexOutOfBoundsException beyond the end |
| Charts.BeyondLastPointIsOutOfBounds | app/src/main/java/com/platypii/baseline/views/charts/TimeChartTouchable.java:38-41 | one point at time 0 touched at 5: search result -2, index 2 on a one-point list |
| Charts.IntendedClosestIndexInBounds | app/src/main/java/com/platypii/baseline/views/charts/TimeChartTouchable.java:38-41 | with `-(r + 1)`, the index is always in bounds on a non-empty track and picks the first point at or after the time, or the last one |

## Left out

- Android, threads and I/O are not modelled. This covers contexts, handlers, `AsyncTask`, `EventBus` delivery, gzip streams and file-system listing. Their calls are trace effects; their answers are inputs.
- The tender thread and the altimeter's listener notification run to completion inside the call. Concurrency and `synchronized` are not modelled.
- Floating point:
  - `double` and `float` are exact reals plus NaN and the two infinities, with no rounding;
  - the `float` fields of the NMEA provider are not narrowed;
  - `refreshRate` is left out, because only the (unmodelled) display reads it, and with it its NaN error line (MyAltimeter.java:134);
  - the model-error statistic is left out for the same reason.
- Outside the core, and therefore parameters: the barometric formula, the Kalman filter, `NMEA.parseDegreesMinutes`, `parseDate`, `parseTime`, `nmeaChecksum`, `Convert.kts2mps`, the trigonometry, `Double.parseDouble`, `Float.parseFloat`, `Numbers.parseDouble`, `UploadTask.upload`, and the `toRow` texts.
- `Character.digit`, which `Integer.parseInt` reads digits with, is a parameter. It is constrained to give the ASCII digits their values, to give no value of 10 or more, and to reject the two signs and characters outside the Basic Multilingual Plane. Which other Unicode characters are decimal digits is left to that parameter.
- `FirebaseCrash.report` is recorded, not delivered. `Util`'s parse helpers return a `reported` flag, and the NMEA provider turns it into a `Reported` entry of its log, at the point of the parse.
- Strings are sequences of Unicode code points; Java strings are sequences of UTF-16 code units. So `compareTo`, `length`, `substring`, `charAt`, `trim` and `split` agree with Java only on text inside the Basic Multilingual Plane. Outside it they differ: U+1F600 is one element here but a surrogate pair starting 0xD83D in Java, so it sorts above U+FFFD here and below it in Java, and it counts 1 towards a length here but 2 in Java.
- `AudibleSettings.load` and the audible mode's `currentSample` are inputs. AudibleSettings.java is not part of this model.
- MLocation.java is not part of this model. MLocation's `compareTo` is taken to order points by `millis`; `binarySearch` needs that.
- Services:
  - informational (`Log.i`/`Log.v`) lines and the start-up timing line are not recorded;
  - the location service's `SecurityException` is a boolean input.
- `TrackFiles.getTracks`:
  - `listFiles` returning null is not modelled; the directory listing is a sequence of names;
  - `getTrackDirectory` is an optional directory, so its fallback warning (TrackFiles.java:54) is not recorded, and neither is the error line for a missing directory (TrackFiles.java:44).
- `TrackFile.delete` is not modelled: it is one file-system call behind a warning line.
- `TrackLogger`'s informational lines ("Starting logging", "Stopping logging", "Logging to …", "Logging stopped for …") are not recorded; its error lines are.
- `TrackLogger` writes the line and the newline as one write, whose success is one input.
- `LocationProviderNMEA.start`/`stop` and `LocationProvider`'s own fields (`satellitesInView`, `satellitesUsed`, `groundDistance`, listeners) are not modelled beyond what `updateLocation` reads. `MainActivity`, `TimeChart` drawing, `onTouchEvent` and the other UI files are not part of this model.
- Foreground.ForegroundService.OnStartCommand: the notification's text and intents are not modelled, only its two flags.

## Findings

| source | as written | input that shows it | evidently intended | confidence | as-written member | corrected member |
|---|---|---|---|---|---|---|
| app/src/main/java/com/platypii/baseline/views/charts/TimeChartTouchable.java:39-41 | a negative `binarySearch` result r is turned into the index -r, which is insertion point + 1 | a track with one point at time 0, touched at time 5: r = -2, index 2, `get(2)` on a one-point list throws IndexOutOfBoundsException (an empty track throws at index 1) | the index -(r + 1), the insertion point, clamped to the last point | not executed | Charts.BeyondLastPointIsOutOfBounds | Charts.IntendedClosestIndexInBounds |
