/**
 * TrackFile.java: a recorded track on the device, its display name, its size string and its
 * identity; with the track-state registry the other classes share (the registry class itself
 * is not part of this model, its states are the five the callers use) and the logging event
 * posted when a recording starts or stops.
 */
module Tracks {
  import opened JavaLang
  import Decimal
  import JavaStrings

  /** A `java.io.File` in a directory; two files are equal when directory and name are. */
  datatype File = File(dir: string, name: string)

  datatype TrackState = Recording | NotUploaded | Queued | Uploading | Uploaded

  /** `LoggingEvent(started, trackFile)`, posted on the event bus. */
  datatype LoggingEvent = LoggingEvent(started: bool, trackFile: Option<TrackFile>)

  // ---------------------------------------------------------------------------
  // getName: replaceAll(".csv.gz", ""), then '_' to ' ', then '-' to '.'

  /** The characters the regular-expression dot does not match. */
  predicate IsLineTerminator(c: char) {
    c == '\n' || c == '\r' || c == '\U{0085}' || c == '\U{2028}' || c == '\U{2029}'
  }

  /** Whether the regular expression `.csv.gz` matches the seven characters starting at i. */
  predicate MatchesCsvGzAt(s: string, i: nat) {
    && i + 7 <= |s|
    && !IsLineTerminator(s[i]) && s[i + 1] == 'c' && s[i + 2] == 's' && s[i + 3] == 'v'
    && !IsLineTerminator(s[i + 4]) && s[i + 5] == 'g' && s[i + 6] == 'z'
  }

  predicate NoCsvGzMatch(s: string) {
    forall i: nat :: i < |s| ==> !MatchesCsvGzAt(s, i)
  }

  /** `replaceAll(".csv.gz", "")`: scanning left to right, every match is cut out. */
  function RemoveCsvGz(s: string): (r: string)
    ensures |r| <= |s| && (|s| - |r|) % 7 == 0
    ensures NoCsvGzMatch(s) ==> r == s
  {
    if |s| < 7 then s
    else if MatchesCsvGzAt(s, 0) then RemoveCsvGz(s[7..])
    else
      assert NoCsvGzMatch(s) ==> NoCsvGzMatch(s[1..]) by {
        if NoCsvGzMatch(s) {
          forall i: nat | i < |s[1..]| ensures !MatchesCsvGzAt(s[1..], i) {
            assert !MatchesCsvGzAt(s, i + 1);
          }
        }
      }
      [s[0]] + RemoveCsvGz(s[1..])
  }

  /** `replaceAll` with a one-character pattern and a one-character replacement. */
  function ReplaceChar(s: string, from: char, to: char): (r: string)
    ensures |r| == |s|
    ensures forall i :: 0 <= i < |s| ==> r[i] == (if s[i] == from then to else s[i])
  {
    if s == [] then [] else [if s[0] == from then to else s[0]] + ReplaceChar(s[1..], from, to)
  }

  /** `file.length() / 1024` followed by "kb". */
  function SizeString(length: nat): string {
    Decimal.FromNat(length / 1024) + "kb"
  }

  /** The digits in front of "kb" in a size string are the whole kibibytes of the length. */
  lemma SizeStringDecodes(length: nat)
    ensures var s := SizeString(length);
      && |s| >= 3 && s[|s| - 2..] == "kb"
      && Decimal.AllDigits(s[..|s| - 2]) && Decimal.Value(s[..|s| - 2]) == length / 1024
  {
    var digits := Decimal.FromNat(length / 1024);
    assert SizeString(length)[..|SizeString(length)| - 2] == digits;
    Decimal.ValueFromNat(length / 1024);
  }

  datatype TrackFile = TrackFile(file: File) {

    /** `getName`: the file name without ".csv.gz", with blanks for '_' and dots for '-'. */
    function GetName(): string {
      ReplaceChar(ReplaceChar(RemoveCsvGz(file.name), '_', ' '), '-', '.')
    }

    /** `getSize` for a file of the given length in bytes. */
    function GetSize(length: nat): string {
      SizeString(length)
    }

    /** `toString`: the raw file name. */
    function ToString(): (s: string)
      ensures s == file.name
    {
      file.name
    }

    /** `equals`: true exactly for another track file on the same file (never for null). */
    function Equals(other: Option<TrackFile>): (r: bool)
      ensures r <==> other.Some? && other.value.file == file
      ensures r <==> other == Some(this)
    {
      other.Some? && other.value.file == file
    }

    /** `hashCode`: the file's hash code, for whatever hash `java.io.File` computes. */
    function HashCode(fileHash: File -> int): int {
      fileHash(file)
    }
  }

  /** The display name has no '_' and no '-' left in it. */
  lemma GetNameHasNoUnderscoreOrDash(t: TrackFile)
    ensures forall i :: 0 <= i < |t.GetName()| ==> t.GetName()[i] != '_' && t.GetName()[i] != '-'
  {
    var once := ReplaceChar(RemoveCsvGz(t.file.name), '_', ' ');
    forall i | 0 <= i < |t.GetName()| ensures t.GetName()[i] != '_' && t.GetName()[i] != '-' {
      assert once[i] != '_';
    }
  }

  /** The display name of a typical recording. */
  lemma GetNameExample(t: TrackFile)
    requires t.file.name == "track_2017-01-02_03-04-05.csv.gz"
    ensures t.GetName() == "track 2017.01.02 03.04.05"
  {
    var stem := t.file.name[..25];
    assert t.file.name == stem + ".csv.gz";
    assert forall i :: 0 <= i < |stem| ==> stem[i] != 's';
    RemoveCsvGzStem(stem);
    ExampleStemRewritten(stem);
  }

  lemma ExampleStemRewritten(stem: string)
    requires stem == "track_2017-01-02_03-04-05"
    ensures ReplaceChar(ReplaceChar(stem, '_', ' '), '-', '.') == "track 2017.01.02 03.04.05"
  {
    var once := ReplaceChar(stem, '_', ' ');
    var twice := ReplaceChar(once, '-', '.');
    var expected := "track 2017.01.02 03.04.05";
    forall i | 0 <= i < |expected| ensures twice[i] == expected[i] {
      assert once[i] == (if stem[i] == '_' then ' ' else stem[i]);
    }
  }

  /** A name whose stem has no 's' loses exactly its ".csv.gz" suffix. */
  lemma {:induction false} RemoveCsvGzStem(stem: string)
    requires forall i :: 0 <= i < |stem| ==> stem[i] != 's'
    ensures RemoveCsvGz(stem + ".csv.gz") == stem
  {
    var s := stem + ".csv.gz";
    if stem != [] {
      assert !MatchesCsvGzAt(s, 0) by {
        if |stem| >= 3 { assert s[2] == stem[2]; }
        else if |stem| == 2 { assert s[2] == '.'; }
        else { assert s[2] == 'c'; }
      }
      assert s[1..] == stem[1..] + ".csv.gz";
      RemoveCsvGzStem(stem[1..]);
    }
  }

  /**
   * The leftmost match is what `replaceAll` cuts first: the text in front of it is kept as it
   * is, and the scan goes on right behind the seven matched characters. With the no-match case
   * of `RemoveCsvGz`'s contract this fixes the result for every name.
   */
  lemma {:induction false} RemoveCsvGzLeftmost(s: string, i: nat)
    requires MatchesCsvGzAt(s, i)
    requires forall j: nat :: j < i ==> !MatchesCsvGzAt(s, j)
    ensures RemoveCsvGz(s) == s[..i] + RemoveCsvGz(s[i + 7..])
  {
    if i > 0 {
      MatchesShift(s, i);
      RemoveCsvGzLeftmost(s[1..], i - 1);
      KeptFirstThenCut(s, i);
    }
  }

  /** One step of the scan: the first character is kept, then the cut found in the rest applies. */
  lemma KeptFirstThenCut(s: string, i: nat)
    requires 0 < i && i + 7 <= |s| && !MatchesCsvGzAt(s, 0)
    requires RemoveCsvGz(s[1..]) == s[1..][..i - 1] + RemoveCsvGz(s[1..][i - 1 + 7..])
    ensures RemoveCsvGz(s) == s[..i] + RemoveCsvGz(s[i + 7..])
  {
    assert s[1..][i - 1 + 7..] == s[i + 7..];
    RemoveCsvGzKeepsFirst(s);
    ConsThenCut(s, i, RemoveCsvGz(s[1..]), RemoveCsvGz(s[i + 7..]));
  }

  /** Without a match at the start, the first character is kept and the scan moves on by one. */
  lemma RemoveCsvGzKeepsFirst(s: string)
    requires |s| >= 7 && !MatchesCsvGzAt(s, 0)
    ensures RemoveCsvGz(s) == [s[0]] + RemoveCsvGz(s[1..])
  {
  }

  lemma ConsThenCut(s: string, i: nat, tail: string, rest: string)
    requires 0 < i <= |s| && tail == s[1..][..i - 1] + rest
    ensures [s[0]] + tail == s[..i] + rest
  {
    assert [s[0]] + s[1..][..i - 1] == s[..i];
  }

  /** Dropping the first character moves the leftmost match one place to the left. */
  lemma MatchesShift(s: string, i: nat)
    requires 0 < i && MatchesCsvGzAt(s, i)
    requires forall j: nat :: j < i ==> !MatchesCsvGzAt(s, j)
    ensures !MatchesCsvGzAt(s, 0) && MatchesCsvGzAt(s[1..], i - 1)
    ensures forall j: nat :: j < i - 1 ==> !MatchesCsvGzAt(s[1..], j)
  {
    forall j: nat | j < i - 1 ensures !MatchesCsvGzAt(s[1..], j) {
      assert !MatchesCsvGzAt(s, j + 1);
    }
  }

  /** Equal track files have equal hash codes, whatever hash the files have. */
  lemma HashCodeAgreesWithEquals(a: TrackFile, b: TrackFile, fileHash: File -> int)
    requires a.Equals(Some(b))
    ensures a.HashCode(fileHash) == b.HashCode(fileHash)
  {
  }

  /** Equality of track files is symmetric. */
  lemma EqualsSymmetric(a: TrackFile, b: TrackFile)
    ensures a.Equals(Some(b)) <==> b.Equals(Some(a))
  {
  }

  // ---------------------------------------------------------------------------
  // The track-state registry shared by the logger, the lister and the uploader

  class TrackStateRegistry {
    var states: map<TrackFile, TrackState>

    constructor ()
      ensures states == map[]
    {
      states := map[];
    }

    /** `getState`: the recorded state, if any. */
    function GetState(t: TrackFile): (r: Option<TrackState>)
      reads this
      ensures r.Some? <==> t in states
      ensures r.Some? ==> r.value == states[t]
    {
      if t in states then Some(states[t]) else None
    }

    /** `setState`: records the state of one file and leaves every other entry alone. */
    method SetState(t: TrackFile, s: TrackState)
      modifies this
      ensures states == old(states)[t := s]
    {
      states := states[t := s];
    }
  }

  /** The state lookup on a plain map, for specifications over a registry's contents. */
  function StateIn(states: map<TrackFile, TrackState>, t: TrackFile): (r: Option<TrackState>)
    ensures r.Some? <==> t in states
    ensures r.Some? ==> r.value == states[t]
  {
    if t in states then Some(states[t]) else None
  }
}
