/**
 * The java.lang.String operations the core relies on: `trim`, `split("[,*]")`,
 * `startsWith`, `endsWith` and the lexicographic order of `compareTo`.
 */
module JavaStrings {

  // ---------------------------------------------------------------------------
  // trim: drop leading and trailing characters whose code is at most U+0020

  predicate IsTrimmable(c: char) {
    c <= ' '
  }

  function TrimStart(s: string): (r: string)
    ensures |r| <= |s| && r == s[|s| - |r|..]
    ensures r == [] || !IsTrimmable(r[0])
    ensures forall i :: 0 <= i < |s| - |r| ==> IsTrimmable(s[i])
  {
    if s != [] && IsTrimmable(s[0]) then TrimStart(s[1..]) else s
  }

  function TrimEnd(s: string): (r: string)
    ensures |r| <= |s| && r == s[..|r|]
    ensures r == [] || !IsTrimmable(r[|r| - 1])
    ensures forall i :: |r| <= i < |s| ==> IsTrimmable(s[i])
  {
    if s != [] && IsTrimmable(s[|s| - 1]) then TrimEnd(s[..|s| - 1]) else s
  }

  /** `s.trim()`: the longest middle part of s that neither starts nor ends with a trimmable character. */
  function Trim(s: string): (r: string)
    ensures r == [] || (!IsTrimmable(r[0]) && !IsTrimmable(r[|r| - 1]))
  {
    TrimEnd(TrimStart(s))
  }

  /** Trimming cuts only trimmable characters, and only from the two ends. */
  lemma TrimIsMiddle(s: string)
    ensures exists i, j :: 0 <= i <= j <= |s| && Trim(s) == s[i..j]
              && (forall k :: 0 <= k < i ==> IsTrimmable(s[k]))
              && (forall k :: j <= k < |s| ==> IsTrimmable(s[k]))
  {
    var t := TrimStart(s);
    var i := |s| - |t|;
    var j := i + |TrimEnd(t)|;
    assert Trim(s) == s[i..j];
    forall k | j <= k < |s| ensures IsTrimmable(s[k]) {
      assert s[k] == t[k - i];
    }
  }

  // ---------------------------------------------------------------------------
  // split on the regular expression "[,*]" (limit 0)

  predicate IsSeparator(c: char) {
    c == ',' || c == '*'
  }

  predicate NoSeparator(s: string) {
    forall i :: 0 <= i < |s| ==> !IsSeparator(s[i])
  }

  /** The separator characters of s, in order. */
  function Separators(s: string): (r: string)
    ensures |r| <= |s|
    ensures forall i :: 0 <= i < |r| ==> IsSeparator(r[i])
  {
    if s == [] then []
    else if IsSeparator(s[0]) then [s[0]] + Separators(s[1..])
    else Separators(s[1..])
  }

  /** Every piece of s between two consecutive separators, empty pieces included. */
  function Fields(s: string): (r: seq<string>)
    ensures |r| == |Separators(s)| + 1
    ensures forall i :: 0 <= i < |r| ==> NoSeparator(r[i])
  {
    if s == [] then [""]
    else
      var rest := Fields(s[1..]);
      if IsSeparator(s[0]) then [""] + rest
      else [[s[0]] + rest[0]] + rest[1..]
  }

  /** Puts the separators back between the fields. */
  function Interleave(fields: seq<string>, seps: string): string
    requires |fields| == |seps| + 1
  {
    if seps == [] then fields[0]
    else fields[0] + [seps[0]] + Interleave(fields[1..], seps[1..])
  }

  /** The fields and the separators together are exactly the original string. */
  lemma {:induction false} FieldsRoundTrip(s: string)
    ensures Interleave(Fields(s), Separators(s)) == s
  {
    if s != [] {
      FieldsRoundTrip(s[1..]);
      var rest := Fields(s[1..]);
      var seps := Separators(s[1..]);
      if IsSeparator(s[0]) {
        assert Fields(s)[1..] == rest;
      } else {
        var f := Fields(s);
        assert f[1..] == rest[1..];
        if seps == [] {
          assert Interleave(f, Separators(s)) == [s[0]] + rest[0];
        } else {
          assert Interleave(rest, seps) == rest[0] + [seps[0]] + Interleave(rest[1..], seps[1..]);
          assert Interleave(f, Separators(s)) == ([s[0]] + rest[0]) + [seps[0]] + Interleave(rest[1..], seps[1..]);
        }
      }
    }
  }

  /** The first field is everything before the first separator. */
  lemma {:induction false} FirstField(s: string, k: nat)
    requires k <= |s| && NoSeparator(s[..k]) && (k == |s| || IsSeparator(s[k]))
    ensures Fields(s)[0] == s[..k]
  {
    if k > 0 {
      FirstField(s[1..], k - 1);
      assert s[1..][..k - 1] == s[1..k];
      assert s[..k] == [s[0]] + s[1..k];
    }
  }

  function DropTrailingEmpty(p: seq<string>): (r: seq<string>)
    ensures |r| <= |p| && r == p[..|r|]
    ensures r == [] || r[|r| - 1] != ""
    ensures forall i :: |r| <= i < |p| ==> p[i] == ""
  {
    if p != [] && p[|p| - 1] == "" then DropTrailingEmpty(p[..|p| - 1]) else p
  }

  /**
   * `s.split("[,*]")`: the fields between separators with trailing empty fields removed;
   * a string without any separator splits into itself (even the empty string).
   */
  function Split(s: string): (r: seq<string>)
    ensures forall i :: 0 <= i < |r| ==> NoSeparator(r[i])
    ensures Separators(s) == [] ==> r == [s]
    ensures Separators(s) != [] ==> |r| <= |Fields(s)| && r == Fields(s)[..|r|]
    ensures Separators(s) != [] ==> r == [] || r[|r| - 1] != ""
    ensures Separators(s) != [] ==> forall i :: |r| <= i < |Fields(s)| ==> Fields(s)[i] == ""
  {
    if Separators(s) == [] then (SeparatorFree(s); [s]) else DropTrailingEmpty(Fields(s))
  }

  lemma {:induction false} SeparatorFree(s: string)
    requires Separators(s) == []
    ensures NoSeparator(s)
  {
    if s != [] {
      SeparatorFree(s[1..]);
      assert forall i :: 1 <= i < |s| ==> s[i] == s[1..][i - 1];
    }
  }

  // ---------------------------------------------------------------------------
  // prefixes, suffixes and order

  predicate StartsWith(s: string, prefix: string) {
    |prefix| <= |s| && s[..|prefix|] == prefix
  }

  predicate EndsWith(s: string, suffix: string) {
    |suffix| <= |s| && s[|s| - |suffix|..] == suffix
  }

  /** `a.compareTo(b) < 0`: lexicographic order on characters, a proper prefix first. */
  predicate LexLess(a: string, b: string) {
    if a == [] then b != []
    else b != [] && (a[0] < b[0] || (a[0] == b[0] && LexLess(a[1..], b[1..])))
  }

  lemma {:induction false} LexLessIrreflexive(a: string)
    ensures !LexLess(a, a)
  {
    if a != [] {
      LexLessIrreflexive(a[1..]);
    }
  }

  lemma {:induction false} LexLessTransitive(a: string, b: string, c: string)
    requires LexLess(a, b) && LexLess(b, c)
    ensures LexLess(a, c)
  {
    if a != [] && a[0] == b[0] && b[0] == c[0] {
      LexLessTransitive(a[1..], b[1..], c[1..]);
    }
  }

  lemma {:induction false} LexLessTotal(a: string, b: string)
    ensures LexLess(a, b) || a == b || LexLess(b, a)
  {
    if a != [] && b != [] && a[0] == b[0] {
      LexLessTotal(a[1..], b[1..]);
      if a[1..] == b[1..] {
        assert a == [a[0]] + a[1..] && b == [b[0]] + b[1..];
      }
    }
  }
}
