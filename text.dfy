/**
 * The text forms the writer gives to boolean and integer values (Go's `%v` verb),
 * and reference parsers in the manner of `strconv.ParseBool` and `strconv.ParseInt`
 * against which those forms are proved to round-trip.
 */
module Text {
  import opened Wrappers

  /** `strconv.ParseBool`: the literals it accepts in either sense, and nothing else. */
  function ParseBool(s: string): Option<bool>
  {
    if s == "1" || s == "t" || s == "T" || s == "TRUE" || s == "true" || s == "True" then Some(true)
    else if s == "0" || s == "f" || s == "F" || s == "FALSE" || s == "false" || s == "False" then Some(false)
    else None
  }

  /** `%v` of a Go bool: one of the two lower-case literals, from which the value is parsed back. */
  function FormatBool(b: bool): (s: string)
    ensures s == "true" || s == "false"
    ensures ParseBool(s) == Some(b)
  {
    if b then "true" else "false"
  }

  predicate IsDigit(c: char)
  {
    '0' <= c <= '9'
  }

  predicate AllDigits(s: string)
  {
    forall k :: 0 <= k < |s| ==> IsDigit(s[k])
  }

  function DigitChar(d: nat): (c: char)
    requires d < 10
    ensures IsDigit(c)
  {
    ('0' as int + d) as char
  }

  function DigitValue(c: char): (d: nat)
    requires IsDigit(c)
    ensures d < 10 && DigitChar(d) == c
  {
    c as int - '0' as int
  }

  /** The base-10 digits of `n`: at least one, all digits, and no leading zero unless `n` is 0. */
  function FormatNat(n: nat): (s: string)
    ensures |s| >= 1 && AllDigits(s)
    ensures s[0] == '0' <==> n == 0
    ensures n == 0 ==> s == "0"
  {
    if n < 10 then [DigitChar(n)] else FormatNat(n / 10) + [DigitChar(n % 10)]
  }

  /** The number a string of decimal digits denotes, most significant digit first. */
  function ParseDigits(s: string): nat
    requires AllDigits(s)
  {
    if |s| == 0 then 0 else 10 * ParseDigits(s[..|s| - 1]) + DigitValue(s[|s| - 1])
  }

  lemma {:induction false} DigitsRoundTrip(n: nat)
    ensures ParseDigits(FormatNat(n)) == n
  {
    var s := FormatNat(n);
    if n >= 10 {
      var p := FormatNat(n / 10);
      assert s == p + [DigitChar(n % 10)];
      assert s[..|s| - 1] == p;
      DigitsRoundTrip(n / 10);
    }
  }

  /**
   * Canonical decimal text: an optional '-', then at least one digit, with no leading
   * zero unless the digits are exactly "0", and never "-0".
   */
  predicate CanonicalDecimal(s: string)
  {
    |s| >= 1 &&
    var d := if s[0] == '-' then s[1..] else s;
    |d| >= 1 && AllDigits(d) && (d[0] == '0' ==> d == "0") && (s[0] == '-' ==> d != "0")
  }

  /** `%v` of a Go integer of any width: the base-10 digits, with '-' only before a negative value. */
  function FormatInt(v: int): (s: string)
    ensures CanonicalDecimal(s)
    ensures s[0] == '-' <==> v < 0
  {
    if v < 0 then "-" + FormatNat(-v) else FormatNat(v)
  }

  /** `strconv.ParseInt(s, 10, _)` without the width check: an optional sign and one or more digits. */
  function ParseInt(s: string): Option<int>
  {
    if |s| == 0 then None
    else if s[0] == '-' || s[0] == '+' then
      if |s| > 1 && AllDigits(s[1..]) then
        var m: int := ParseDigits(s[1..]);
        Some(if s[0] == '-' then -m else m)
      else None
    else if AllDigits(s) then Some(ParseDigits(s))
    else None
  }

  /** Parsing the text of an integer gives the integer back. */
  lemma IntRoundTrip(v: int)
    ensures ParseInt(FormatInt(v)) == Some(v)
  {
    var s := FormatInt(v);
    if v < 0 {
      assert s[1..] == FormatNat(-v);
      DigitsRoundTrip(-v);
    } else {
      DigitsRoundTrip(v);
    }
  }

  /** Distinct integers get distinct text. */
  lemma FormatIntInjective(a: int, b: int)
    ensures FormatInt(a) == FormatInt(b) ==> a == b
  {
    IntRoundTrip(a);
    IntRoundTrip(b);
  }
}
