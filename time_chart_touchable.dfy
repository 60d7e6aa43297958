/**
 * TimeChartTouchable.java: a chart of a track over time that, when touched, looks up the
 * track point for the touched time. The lookup writes the time into a shared probe location
 * and runs `Collections.binarySearch` over the track points, which are ordered by time;
 * its result is turned into a list index by negation and a single decrement.
 *
 * The binary search is the JDK's indexed search, proved against the documented Java SE
 * contract: an index whose element matches, or `-(insertion point) - 1`.
 */
module Charts {
  import opened JavaLang
  import opened NmeaLocation

  /** Track points ordered by time, the order `binarySearch` requires. */
  ghost predicate SortedByMillis(s: seq<MLocation>) {
    forall i, j :: 0 <= i < j < |s| ==> s[i].millis <= s[j].millis
  }

  /** The insertion point of `key`: how many points come strictly before it. */
  function InsertionPoint(s: seq<MLocation>, key: int): (ip: nat)
    ensures ip <= |s|
  {
    if s == [] then 0
    else (if s[0].millis < key then 1 else 0) + InsertionPoint(s[1..], key)
  }

  /** Whether `key` is the time of some point. */
  predicate Present(s: seq<MLocation>, key: int) {
    exists i :: 0 <= i < |s| && s[i].millis == key
  }

  /** The return contract of `Collections.binarySearch`. */
  ghost predicate IsSearchResult(s: seq<MLocation>, key: int, r: int) {
    if r >= 0 then r < |s| && s[r].millis == key
    else
      var ip := -(r + 1);
      && ip <= |s|
      && (forall i :: 0 <= i < ip ==> s[i].millis < key)
      && (forall i :: ip <= i < |s| ==> s[i].millis > key)
  }

  /** In a sorted list the points before the insertion point are exactly those before `key`. */
  lemma {:induction false} InsertionPointUnique(s: seq<MLocation>, key: int, ip: nat)
    requires ip <= |s|
    requires forall i :: 0 <= i < ip ==> s[i].millis < key
    requires forall i :: ip <= i < |s| ==> s[i].millis >= key
    ensures InsertionPoint(s, key) == ip
    decreases |s|
  {
    if s != [] {
      if ip == 0 {
        assert s[0].millis >= key;
        InsertionPointUnique(s[1..], key, 0);
      } else {
        assert s[0].millis < key;
        InsertionPointUnique(s[1..], key, ip - 1);
      }
    }
  }

  /** A negative search result encodes exactly the insertion point, and means the key is absent. */
  lemma NegativeResultIsInsertionPoint(s: seq<MLocation>, key: int, r: int)
    requires IsSearchResult(s, key, r) && r < 0
    ensures InsertionPoint(s, key) == -(r + 1)
    ensures !Present(s, key)
  {
    InsertionPointUnique(s, key, -(r + 1));
  }

  /**
   * `Collections.binarySearch` over a random-access list: the loop narrows [low, high]
   * around the key and returns the matching index, or `-(low + 1)` when the range empties.
   */
  method BinarySearch(s: seq<MLocation>, key: int) returns (r: int)
    requires SortedByMillis(s)
    requires |s| <= INT_MAX
    ensures IsSearchResult(s, key, r)
    ensures InInt32(r)
  {
    var low, high := 0, |s| - 1;
    while low <= high
      invariant 0 <= low <= high + 1 <= |s|
      invariant forall i :: 0 <= i < low ==> s[i].millis < key
      invariant forall i :: high < i < |s| ==> s[i].millis > key
      decreases high - low
    {
      var mid := (low + high) / 2;
      if s[mid].millis < key {
        low := mid + 1;
      } else if s[mid].millis > key {
        high := mid - 1;
      } else {
        return mid;
      }
    }
    r := -(low + 1);
  }

  /** The index `findClosest` reads: the negated search result, one less when it equals the size. */
  function ClosestIndex(r: int, size: nat): int {
    var i := if r < 0 then Wrap32(-r) else r;
    if i == size then i - 1 else i
  }

  /**
   * What `findClosest` returns for each kind of search result: the point that matched, the point
   * one past the insertion point, the last point when that is the size, and an index out of
   * bounds when the key is beyond every point (or the list is empty).
   */
  lemma ClosestIndexCases(s: seq<MLocation>, key: int, r: int)
    requires IsSearchResult(s, key, r) && |s| <= INT_MAX
    ensures r >= 0 ==> ClosestIndex(r, |s|) == if r == |s| then r - 1 else r
    ensures r >= 0 ==> 0 <= ClosestIndex(r, |s|) < |s| && s[ClosestIndex(r, |s|)].millis == key
    ensures r < 0 && InsertionPoint(s, key) + 1 < |s| ==> ClosestIndex(r, |s|) == InsertionPoint(s, key) + 1
    ensures r < 0 && InsertionPoint(s, key) + 1 == |s| ==> ClosestIndex(r, |s|) == |s| - 1
    ensures r < 0 && InsertionPoint(s, key) == |s| ==> !(0 <= ClosestIndex(r, |s|) < |s|)
  {
    if r < 0 {
      NegativeResultIsInsertionPoint(s, key, r);
    }
  }

  class TimeChartTouchable {
    /** `TimeChart.trackData`: null until a track is loaded. */
    var trackData: Option<seq<MLocation>>
    /** The time in the shared `touchLocation` probe. */
    var touchMillis: int

    constructor ()
      ensures trackData == None
    {
      trackData := None;
      touchMillis := 0;
    }

    /**
     * `findClosest`: the probe takes the touched time, then the search result picks the point.
     * A missing track is a NullPointerException; an index outside the list an
     * IndexOutOfBoundsException.
     */
    method FindClosest(millis: int) returns (outcome: Outcome, closest: Option<MLocation>)
      requires trackData.Some? ==> SortedByMillis(trackData.value) && |trackData.value| <= INT_MAX
      modifies this`touchMillis
      ensures touchMillis == millis
      ensures trackData.None? ==> outcome == Threw(NullPointer) && closest == None
      ensures trackData.Some? ==>
        var s := trackData.value;
        var ip := InsertionPoint(s, millis);
        && (outcome.Completed? <==> closest.Some?)
        && (Present(s, millis) ==> outcome == Completed && closest.value.millis == millis)
        && (!Present(s, millis) && ip + 1 < |s| ==> outcome == Completed && closest == Some(s[ip + 1]))
        && (!Present(s, millis) && ip + 1 == |s| ==> outcome == Completed && closest == Some(s[|s| - 1]))
        && (!Present(s, millis) && ip == |s| ==> outcome == Threw(IndexOutOfBounds) && closest == None)
    {
      touchMillis := millis;
      if trackData.None? {
        return Threw(NullPointer), None;
      }
      var s := trackData.value;
      var r := BinarySearch(s, millis);
      ClosestIndexCases(s, millis, r);
      var index := ClosestIndex(r, |s|);
      if 0 <= index < |s| {
        outcome, closest := Completed, Some(s[index]);
      } else {
        outcome, closest := Threw(IndexOutOfBounds), None;
      }
    }
  }

  /** A single point at time 0 touched at time 5: the index read is 2, outside the list. */
  lemma BeyondLastPointIsOutOfBounds(p: MLocation)
    requires p.millis == 0
    ensures IsSearchResult([p], 5, -2)
    ensures InsertionPoint([p], 5) == 1
    ensures ClosestIndex(-2, 1) == 2
  {
  }

  /**
   * The evidently intended index: the insertion point itself (the first point at or after the
   * touched time), and the last point when the time is beyond all of them.
   */
  function IntendedClosestIndex(r: int, size: nat): int {
    var i := if r < 0 then -(r + 1) else r;
    if i == size then i - 1 else i
  }

  /** On a non-empty track the intended index is always in bounds and picks the point at or after the key. */
  lemma IntendedClosestIndexInBounds(s: seq<MLocation>, key: int, r: int)
    requires IsSearchResult(s, key, r) && |s| > 0
    ensures 0 <= IntendedClosestIndex(r, |s|) < |s|
    ensures var i := IntendedClosestIndex(r, |s|);
      s[i].millis >= key || (i == |s| - 1 && forall j :: 0 <= j < |s| ==> s[j].millis < key)
  {
  }
}
