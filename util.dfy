/**
 * Util.java: the real-number test and the parse-or-default helpers.
 * `Double.parseDouble` and `Float.parseFloat` are library code; they are passed in as
 * functions that answer `None` where Java throws NumberFormatException, and so is the
 * `Character.digit` that `Integer.parseInt` reads digits with.
 */
module Util {
  import opened JavaLang
  import Decimal

  /** `isReal`: neither NaN nor an infinity, that is, a finite real number. */
  function IsReal(value: Double): (r: bool)
    ensures r <==> value.Finite?
  {
    !IsNaN(value) && !IsInfinite(value)
  }

  /**
   * What a parse helper returns: the value, and whether it passed the NumberFormatException it
   * caught to `FirebaseCrash.report`.
   */
  datatype Parsed<T> = Parsed(value: T, reported: bool)

  /**
   * `Character.digit(c, 10)`, which `Integer.parseInt` reads each digit with. It accepts the
   * decimal digits of every script in the Basic Multilingual Plane, not only '0'..'9'; the
   * Unicode tables are library data, so the function is a parameter constrained here: the ASCII
   * digits keep their values, every digit value is below 10, a character outside the BMP (a
   * surrogate pair to Java's `charAt`) and the two signs are no digits.
   */
  ghost predicate IsCharacterDigit(digit: char -> Option<nat>) {
    && (forall c :: Decimal.IsDigit(c) ==> digit(c) == Some(Decimal.DigitValue(c)))
    && (forall c :: digit(c).Some? ==> digit(c).value < 10 && c as int < 0x1_0000)
    && digit('-') == None && digit('+') == None
  }

  predicate AllDigitsOf(s: string, digit: char -> Option<nat>) {
    forall i :: 0 <= i < |s| ==> digit(s[i]).Some?
  }

  /** The number a digit string denotes, most significant digit first. */
  function DigitsValue(s: string, digit: char -> Option<nat>): nat
    requires AllDigitsOf(s, digit)
  {
    if s == [] then 0 else DigitsValue(s[..|s| - 1], digit) * 10 + digit(s[|s| - 1]).value
  }

  /** On ASCII digits every such digit function agrees with the plain decimal reading. */
  lemma {:induction false} AsciiDigitsValue(s: string, digit: char -> Option<nat>)
    requires IsCharacterDigit(digit) && Decimal.AllDigits(s)
    ensures AllDigitsOf(s, digit) && DigitsValue(s, digit) == Decimal.Value(s)
  {
    assert forall i :: 0 <= i < |s| ==> digit(s[i]) == Some(Decimal.DigitValue(s[i]));
    if s != [] {
      AsciiDigitsValue(s[..|s| - 1], digit);
    }
  }

  /** The value of a sign ("", "+" or "-") followed by decimal digits. */
  function LiteralValue(sign: string, digits: string, digit: char -> Option<nat>): int
    requires AllDigitsOf(digits, digit)
  {
    var n: int := DigitsValue(digits, digit);
    if sign == "-" then -n else n
  }

  /** The optionally signed decimal literals `Integer.parseInt` accepts, with the value they denote. */
  ghost predicate IsIntLiteral(s: string, v: int, digit: char -> Option<nat>) {
    exists sign: string, digits: string ::
      && s == sign + digits
      && (sign == "" || sign == "+" || sign == "-")
      && |digits| >= 1 && AllDigitsOf(digits, digit)
      && v == LiteralValue(sign, digits, digit)
  }

  /** `Integer.parseInt(s)` in base 10; `None` where it throws NumberFormatException. */
  function ParseIntStrict(s: string, digit: char -> Option<nat>): (r: Option<int>)
    ensures r.Some? ==> InInt32(r.value) && IsIntLiteral(s, r.value, digit)
  {
    if |s| == 0 then None
    else
      var signed := s[0] == '-' || s[0] == '+';
      var digits := if signed then s[1..] else s;
      if |digits| == 0 || !AllDigitsOf(digits, digit) then None
      else
        var sign := if signed then s[..1] else "";
        var v := LiteralValue(sign, digits, digit);
        if InInt32(v) then
          assert s == sign + digits;
          Some(v)
        else None
  }

  /**
   * `parseInt(str, defaultValue)`: the value of a well-formed int literal; otherwise the default,
   * and the exception is reported unless the string was null or empty.
   */
  function ParseInt(str: Option<string>, defaultValue: int, digit: char -> Option<nat>): (r: Parsed<int>)
    ensures str.None? || str == Some("") ==> r == Parsed(defaultValue, false)
    ensures r.reported <==> str.Some? && str.value != "" && ParseIntStrict(str.value, digit).None?
    ensures r.reported ==> r.value == defaultValue
    ensures !r.reported && str.Some? && str.value != "" ==> ParseIntStrict(str.value, digit) == Some(r.value)
  {
    if str.None? || str.value == "" then Parsed(defaultValue, false)
    else
      match ParseIntStrict(str.value, digit)
      case Some(v) => Parsed(v, false)
      case None => Parsed(defaultValue, true)
  }

  /** A literal's sign and digits are determined by the string. */
  lemma LiteralParts(sign: string, digits: string, digit: char -> Option<nat>)
    requires IsCharacterDigit(digit)
    requires sign == "" || sign == "+" || sign == "-"
    requires |digits| >= 1 && AllDigitsOf(digits, digit)
    ensures var s := sign + digits;
      && (s[0] == '-' || s[0] == '+' <==> sign != "")
      && (sign != "" ==> s[1..] == digits && s[0] == sign[0])
      && (sign == "" ==> s == digits)
  {
    var s := sign + digits;
    if sign == "" {
      assert s == digits;
      assert digit(digits[0]).Some?;
    } else {
      assert s[1..] == digits;
    }
  }

  /** A well-formed literal within the int range, in any script's digits, parses to its value. */
  lemma ParseIntOfLiteral(sign: string, digits: string, defaultValue: int, digit: char -> Option<nat>)
    requires IsCharacterDigit(digit)
    requires sign == "" || sign == "+" || sign == "-"
    requires |digits| >= 1 && AllDigitsOf(digits, digit)
    requires InInt32(LiteralValue(sign, digits, digit))
    ensures ParseInt(Some(sign + digits), defaultValue, digit)
            == Parsed(LiteralValue(sign, digits, digit), false)
  {
    LiteralParts(sign, digits, digit);
  }

  /** A well-formed literal outside the int range yields the default, and is reported. */
  lemma ParseIntOutOfRange(sign: string, digits: string, defaultValue: int, digit: char -> Option<nat>)
    requires IsCharacterDigit(digit)
    requires sign == "" || sign == "+" || sign == "-"
    requires |digits| >= 1 && AllDigitsOf(digits, digit)
    requires !InInt32(LiteralValue(sign, digits, digit))
    ensures ParseInt(Some(sign + digits), defaultValue, digit) == Parsed(defaultValue, true)
  {
    LiteralParts(sign, digits, digit);
  }

  /** A string that is no int literal at all yields the default; it is reported unless empty. */
  lemma ParseIntMalformed(s: string, defaultValue: int, digit: char -> Option<nat>)
    requires forall v :: !IsIntLiteral(s, v, digit)
    ensures ParseInt(Some(s), defaultValue, digit) == Parsed(defaultValue, s != "")
  {
  }

  /** Every int printed in decimal parses back to itself, whatever the default. */
  lemma ParseIntRoundTrip(v: int, defaultValue: int, digit: char -> Option<nat>)
    requires IsCharacterDigit(digit)
    requires InInt32(v)
    ensures ParseInt(Some(Decimal.FromInt(v)), defaultValue, digit) == Parsed(v, false)
  {
    var n: nat := if v < 0 then -v else v;
    var digits := Decimal.FromNat(n);
    var sign := if v < 0 then "-" else "";
    Decimal.ValueFromNat(n);
    AsciiDigitsValue(digits, digit);
    assert Decimal.FromInt(v) == sign + digits;
    assert LiteralValue(sign, digits, digit) == v;
    ParseIntOfLiteral(sign, digits, defaultValue, digit);
  }

  /**
   * `parseDouble`: NaN for null, empty or malformed input, otherwise the library's value; only
   * a malformed input is reported.
   */
  function ParseDouble(str: Option<string>, parse: string -> Option<Double>): (r: Parsed<Double>)
    ensures str.None? || str == Some("") ==> IsNaN(r.value) && !r.reported
    ensures r.reported <==> str.Some? && str.value != "" && parse(str.value).None?
    ensures r.reported ==> IsNaN(r.value)
    ensures str.Some? && str.value != "" && parse(str.value).Some? ==> r.value == parse(str.value).value
  {
    if str.None? || str.value == "" then Parsed(NaN, false)
    else match parse(str.value)
      case None => Parsed(NaN, true)
      case Some(v) => Parsed(v, false)
  }

  /**
   * `parseFloat`: the same branches over `Float.parseFloat`. Values are not narrowed to float
   * precision in this model, so the two differ only in the library parser passed in.
   */
  function ParseFloat(str: Option<string>, parseFloat: string -> Option<Double>): (r: Parsed<Double>)
    ensures str.None? || str == Some("") ==> IsNaN(r.value) && !r.reported
    ensures r.reported <==> str.Some? && str.value != "" && parseFloat(str.value).None?
    ensures r.reported ==> IsNaN(r.value)
    ensures str.Some? && str.value != "" && parseFloat(str.value).Some? ==> r.value == parseFloat(str.value).value
  {
    if str.None? || str.value == "" then Parsed(NaN, false)
    else match parseFloat(str.value)
      case None => Parsed(NaN, true)
      case Some(v) => Parsed(v, false)
  }
}
