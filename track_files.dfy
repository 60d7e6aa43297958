/**
 * TrackFiles.java, `getTracks`: the finished recordings in the track directory, newest name first.
 * The directory is given as the names `listFiles` returns, in its order, or as absent when no
 * storage directory is available.
 */
module TrackListing {
  import opened JavaLang
  import opened JavaStrings
  import opened Tracks

  /** Recordings are named like "track_(yyyy-MM-dd_HH-mm-ss).csv.gz". */
  predicate MatchesFilenamePattern(name: string) {
    StartsWith(name, "track_") && EndsWith(name, ".csv.gz")
  }

  /** A directory entry is listed when its name fits and it is not being recorded right now. */
  predicate IsListed(dir: string, name: string, states: map<TrackFile, TrackState>) {
    MatchesFilenamePattern(name) && StateIn(states, TrackFile(File(dir, name))) != Some(Recording)
  }

  /** The listed entries in directory order, as the loop collects them. */
  function Selected(dir: string, names: seq<string>, states: map<TrackFile, TrackState>): seq<TrackFile> {
    if names == [] then []
    else
      var last := names[|names| - 1];
      Selected(dir, names[..|names| - 1], states)
        + (if IsListed(dir, last, states) then [TrackFile(File(dir, last))] else [])
  }

  // ---------------------------------------------------------------------------
  // Collections.sort with the comparator -compareTo on a key: a descending sort by insertion

  /** The sort key: the display name. */
  function NameOf(t: TrackFile): string {
    t.GetName()
  }

  /** `a` may stand before `b` in the sorted list: its key is not smaller. */
  predicate KeyGeq<T>(key: T -> string, a: T, b: T) {
    !LexLess(key(a), key(b))
  }

  predicate SortedDesc<T>(key: T -> string, s: seq<T>) {
    forall i, j :: 0 <= i < j < |s| ==> KeyGeq(key, s[i], s[j])
  }

  /** Inserts x in front of the first element with a smaller key (so behind all equal ones). */
  function InsertDesc<T>(key: T -> string, s: seq<T>, x: T): seq<T> {
    if s == [] then [x]
    else if LexLess(key(s[0]), key(x)) then [x] + s
    else [s[0]] + InsertDesc(key, s[1..], x)
  }

  /** The sorted list: each element in turn inserted into the sorted list of those before it. */
  function SortDesc<T>(key: T -> string, s: seq<T>): seq<T> {
    if s == [] then []
    else InsertDesc(key, SortDesc(key, s[..|s| - 1]), s[|s| - 1])
  }

  /** Inserting adds exactly the one element. */
  lemma {:induction false} InsertDescPermutes<T>(key: T -> string, s: seq<T>, x: T)
    ensures multiset(InsertDesc(key, s, x)) == multiset(s) + multiset{x}
  {
    if s != [] && !LexLess(key(s[0]), key(x)) {
      InsertDescPermutes(key, s[1..], x);
      assert s == [s[0]] + s[1..];
    }
  }

  /** Sorting permutes: the result holds the same elements, each as often. */
  lemma {:induction false} SortDescPermutes<T>(key: T -> string, s: seq<T>)
    ensures multiset(SortDesc(key, s)) == multiset(s)
  {
    if s != [] {
      SortDescPermutes(key, s[..|s| - 1]);
      InsertDescPermutes(key, SortDesc(key, s[..|s| - 1]), s[|s| - 1]);
      assert s == s[..|s| - 1] + [s[|s| - 1]];
    }
  }

  lemma {:induction false} InsertDescSorted<T>(key: T -> string, s: seq<T>, x: T)
    requires SortedDesc(key, s)
    ensures SortedDesc(key, InsertDesc(key, s, x))
  {
    if s == [] {
    } else if LexLess(key(s[0]), key(x)) {
      InsertFrontSorted(key, s, x);
    } else {
      InsertDescSorted(key, s[1..], x);
      InsertBehindSorted(key, s, x);
    }
  }

  /** x goes in front when its key exceeds the first one, and so every one. */
  lemma InsertFrontSorted<T>(key: T -> string, s: seq<T>, x: T)
    requires SortedDesc(key, s) && s != [] && LexLess(key(s[0]), key(x))
    ensures SortedDesc(key, [x] + s)
  {
    var r := [x] + s;
    forall j | 0 <= j < |s| ensures KeyGeq(key, x, s[j]) {
      if LexLess(key(x), key(s[j])) {
        LexLessTransitive(key(s[0]), key(x), key(s[j]));
        if j == 0 {
          LexLessIrreflexive(key(s[0]));
        }
      }
    }
    forall i, j | 0 <= i < j < |r| ensures KeyGeq(key, r[i], r[j]) {
      if i > 0 {
        assert r[i] == s[i - 1] && r[j] == s[j - 1];
      }
    }
  }

  /** The first element stays in front when x's key does not exceed it. */
  lemma InsertBehindSorted<T>(key: T -> string, s: seq<T>, x: T)
    requires SortedDesc(key, s) && s != [] && !LexLess(key(s[0]), key(x))
    requires SortedDesc(key, InsertDesc(key, s[1..], x))
    ensures SortedDesc(key, [s[0]] + InsertDesc(key, s[1..], x))
  {
    var tail := InsertDesc(key, s[1..], x);
    var r := [s[0]] + tail;
    InsertDescPermutes(key, s[1..], x);
    forall y | y in tail ensures KeyGeq(key, s[0], y) {
      assert y in multiset(tail);
      if y != x {
        assert y in multiset(s[1..]);
        var k :| 0 <= k < |s[1..]| && s[1..][k] == y;
        assert s[k + 1] == y;
      }
    }
    forall i, j | 0 <= i < j < |r| ensures KeyGeq(key, r[i], r[j]) {
      if i == 0 {
        assert r[j] in tail;
      } else {
        assert r[i] == tail[i - 1] && r[j] == tail[j - 1];
      }
    }
  }

  lemma {:induction false} SortDescSorted<T>(key: T -> string, s: seq<T>)
    ensures SortedDesc(key, SortDesc(key, s))
  {
    if s != [] {
      SortDescSorted(key, s[..|s| - 1]);
      InsertDescSorted(key, SortDesc(key, s[..|s| - 1]), s[|s| - 1]);
    }
  }

  /** The elements whose key is k, in their order in s. */
  function WithKey<T>(key: T -> string, s: seq<T>, k: string): (r: seq<T>)
    ensures |r| <= |s|
  {
    if s == [] then [] else (if key(s[0]) == k then [s[0]] else []) + WithKey(key, s[1..], k)
  }

  lemma {:induction false} WithKeyAppend<T>(key: T -> string, a: seq<T>, b: seq<T>, k: string)
    ensures WithKey(key, a + b, k) == WithKey(key, a, k) + WithKey(key, b, k)
  {
    if a != [] {
      assert (a + b)[1..] == a[1..] + b;
      WithKeyAppend(key, a[1..], b, k);
    } else {
      assert a + b == b;
    }
  }

  lemma SortedTail<T>(key: T -> string, s: seq<T>)
    requires SortedDesc(key, s) && s != []
    ensures SortedDesc(key, s[1..])
  {
    var t := s[1..];
    forall i, j | 0 <= i < j < |t| ensures KeyGeq(key, t[i], t[j]) {
      assert t[i] == s[i + 1] && t[j] == s[j + 1];
    }
  }

  /** No element of a sorted list behind a smaller key has the key x has. */
  lemma {:induction false} WithKeyNoneBelow<T>(key: T -> string, s: seq<T>, x: T)
    requires SortedDesc(key, s) && s != [] && LexLess(key(s[0]), key(x))
    ensures WithKey(key, s, key(x)) == []
  {
    if key(s[0]) == key(x) {
      LexLessIrreflexive(key(x));
    }
    if |s| > 1 {
      var t := s[1..];
      SortedTail(key, s);
      assert KeyGeq(key, s[0], t[0]);
      if !LexLess(key(t[0]), key(x)) {
        if key(t[0]) == key(x) {
          assert false;
        } else {
          LexLessTotal(key(t[0]), key(x));
          LexLessTransitive(key(s[0]), key(x), key(t[0]));
          assert false;
        }
      }
      WithKeyNoneBelow(key, t, x);
    }
  }

  /** Inserting x puts it behind every element of a sorted list whose key equals its own. */
  lemma {:induction false} InsertDescStable<T>(key: T -> string, s: seq<T>, x: T, k: string)
    requires SortedDesc(key, s)
    ensures WithKey(key, InsertDesc(key, s, x), k) == WithKey(key, s, k) + (if key(x) == k then [x] else [])
  {
    if s == [] {
    } else if LexLess(key(s[0]), key(x)) {
      InsertFrontStable(key, s, x, k);
    } else {
      SortedTail(key, s);
      InsertDescStable(key, s[1..], x, k);
      InsertBehindStable(key, s, InsertDesc(key, s[1..], x), if key(x) == k then [x] else [], k);
    }
  }

  lemma InsertFrontStable<T>(key: T -> string, s: seq<T>, x: T, k: string)
    requires SortedDesc(key, s) && s != [] && LexLess(key(s[0]), key(x))
    ensures WithKey(key, [x] + s, k) == WithKey(key, s, k) + (if key(x) == k then [x] else [])
  {
    assert ([x] + s)[1..] == s;
    if key(x) == k {
      WithKeyNoneBelow(key, s, x);
    }
  }

  /** Keeping the first element in front keeps its place among the elements of its key. */
  lemma InsertBehindStable<T>(key: T -> string, s: seq<T>, rest: seq<T>, added: seq<T>, k: string)
    requires s != [] && WithKey(key, rest, k) == WithKey(key, s[1..], k) + added
    ensures WithKey(key, [s[0]] + rest, k) == WithKey(key, s, k) + added
  {
    assert ([s[0]] + rest)[1..] == rest;
  }

  /** The sort is stable: the elements of each key keep the order they had in the input. */
  lemma {:induction false} SortDescStable<T>(key: T -> string, s: seq<T>, k: string)
    ensures WithKey(key, SortDesc(key, s), k) == WithKey(key, s, k)
  {
    if s != [] {
      var init := s[..|s| - 1];
      SortDescStable(key, init, k);
      SortDescSorted(key, init);
      InsertDescStable(key, SortDesc(key, init), s[|s| - 1], k);
      assert s == init + [s[|s| - 1]];
      WithKeyAppend(key, init, [s[|s| - 1]], k);
      assert WithKey(key, [s[|s| - 1]], k) == if key(s[|s| - 1]) == k then [s[|s| - 1]] else [];
    }
  }

  // ---------------------------------------------------------------------------
  // getTracks

  /** What `getTracks` returns: nothing without a directory, else the listed entries sorted. */
  function ListedTracks(logDir: Option<string>, names: seq<string>, states: map<TrackFile, TrackState>): seq<TrackFile> {
    if logDir.None? then [] else SortDesc(NameOf, Selected(logDir.value, names, states))
  }

  method GetTracks(logDir: Option<string>, names: seq<string>, registry: TrackStateRegistry)
    returns (tracks: seq<TrackFile>)
    ensures tracks == ListedTracks(logDir, names, registry.states)
  {
    tracks := [];
    if logDir.Some? {
      var dir := logDir.value;
      var i := 0;
      while i < |names|
        invariant 0 <= i <= |names|
        invariant tracks == Selected(dir, names[..i], registry.states)
      {
        var filename := names[i];
        var trackFile := TrackFile(File(dir, filename));
        var matchesFilenamePattern := StartsWith(filename, "track_") && EndsWith(filename, ".csv.gz");
        var isLogging := registry.GetState(trackFile) == Some(Recording);
        if matchesFilenamePattern && !isLogging {
          tracks := tracks + [trackFile];
        }
        assert names[..i + 1][..i] == names[..i];
        i := i + 1;
      }
      assert names[..i] == names;
      tracks := SortDesc(NameOf, tracks);
    }
  }

  // ---------------------------------------------------------------------------
  // What the listing promises

  predicate Distinct(names: seq<string>) {
    forall i, j :: 0 <= i < j < |names| ==> names[i] != names[j]
  }

  /** A track file is selected exactly when it is a listed entry of the directory. */
  lemma {:induction false} SelectedMembers(dir: string, names: seq<string>, states: map<TrackFile, TrackState>, t: TrackFile)
    ensures t in Selected(dir, names, states)
            <==> t.file.dir == dir && t.file.name in names && IsListed(dir, t.file.name, states)
  {
    if names != [] {
      var init := names[..|names| - 1];
      SelectedMembers(dir, init, states, t);
      assert names == init + [names[|names| - 1]];
    }
  }

  /** With distinct names, every listed entry is selected once and nothing else is. */
  lemma {:induction false} SelectedOnce(dir: string, names: seq<string>, states: map<TrackFile, TrackState>, t: TrackFile)
    requires Distinct(names)
    ensures multiset(Selected(dir, names, states))[t]
            == if t.file.dir == dir && t.file.name in names && IsListed(dir, t.file.name, states) then 1 else 0
  {
    if names != [] {
      var init := names[..|names| - 1];
      var last := names[|names| - 1];
      assert names == init + [last];
      SelectedOnce(dir, init, states, t);
      if t == TrackFile(File(dir, last)) {
        assert last !in init;
      }
    }
  }

  /** Membership in the result: a listed entry of an available directory. */
  lemma ListedTracksMembers(logDir: Option<string>, names: seq<string>, states: map<TrackFile, TrackState>, t: TrackFile)
    ensures t in ListedTracks(logDir, names, states)
            <==> logDir.Some? && t.file.dir == logDir.value && t.file.name in names
                 && MatchesFilenamePattern(t.file.name) && StateIn(states, t) != Some(Recording)
  {
    if logDir.Some? {
      var sel := Selected(logDir.value, names, states);
      SelectedMembers(logDir.value, names, states, t);
      SortDescPermutes(NameOf, sel);
      assert t in ListedTracks(logDir, names, states) <==> t in multiset(sel);
    }
  }

  /** Each listed entry appears exactly once when the directory holds distinct names. */
  lemma ListedTracksOnce(logDir: Option<string>, names: seq<string>, states: map<TrackFile, TrackState>, t: TrackFile)
    requires Distinct(names)
    ensures multiset(ListedTracks(logDir, names, states))[t]
            == if logDir.Some? && t.file.dir == logDir.value && t.file.name in names
                  && IsListed(logDir.value, t.file.name, states) then 1 else 0
  {
    if logDir.Some? {
      SelectedOnce(logDir.value, names, states, t);
      SortDescPermutes(NameOf, Selected(logDir.value, names, states));
    }
  }

  /** Tracks with equal display names are listed in directory order. */
  lemma ListedTracksStable(logDir: Option<string>, names: seq<string>, states: map<TrackFile, TrackState>, k: string)
    requires logDir.Some?
    ensures WithKey(NameOf, ListedTracks(logDir, names, states), k)
            == WithKey(NameOf, Selected(logDir.value, names, states), k)
  {
    SortDescStable(NameOf, Selected(logDir.value, names, states), k);
  }

  /** The result is in descending order of display names. */
  lemma ListedTracksSorted(logDir: Option<string>, names: seq<string>, states: map<TrackFile, TrackState>)
    ensures SortedDesc(NameOf, ListedTracks(logDir, names, states))
  {
    if logDir.Some? {
      SortDescSorted(NameOf, Selected(logDir.value, names, states));
    }
  }
}
