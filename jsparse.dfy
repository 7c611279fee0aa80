/**
 * The global `parseInt` of JavaScript called with one argument, on the text its argument
 * converts to: optional leading whitespace, one sign, an optional `0x` prefix, then digits.
 */
module JsParse {
  import opened Wrappers
  import opened Text

  // ---------------------------------------------------------------------------
  // parseInt without a radix argument

  /** The value of a character as a digit in bases up to 36; 36 for any other character. */
  function DigitOf(c: char): (d: nat)
    ensures d <= 36
    ensures IsDigit(c) <==> d < 10
  {
    if '0' <= c <= '9' then c as int - '0' as int
    else if 'a' <= c <= 'z' then c as int - 'a' as int + 10
    else if 'A' <= c <= 'Z' then c as int - 'A' as int + 10
    else 36
  }

  /** The length of the longest prefix made of digits of the given radix. */
  function DigitRun(s: string, radix: nat): (k: nat)
    ensures k <= |s|
    ensures forall j :: 0 <= j < k ==> DigitOf(s[j]) < radix
    ensures k < |s| ==> DigitOf(s[k]) >= radix
  {
    if |s| > 0 && DigitOf(s[0]) < radix then 1 + DigitRun(s[1..], radix) else 0
  }

  /** The number a digit string denotes in the given radix. */
  function DigitsValue(s: string, radix: nat): nat {
    if |s| == 0 then 0 else DigitsValue(s[..|s| - 1], radix) * radix + DigitOf(s[|s| - 1])
  }

  /** The digits after the sign: a `0x`/`0X` prefix selects base 16, base 10 otherwise; no digits is NaN. */
  function UnsignedValue(u: string): Option<int> {
    if |u| >= 2 && u[0] == '0' && (u[1] == 'x' || u[1] == 'X') then LeadingNumber(u[2..], 16)
    else LeadingNumber(u, 10)
  }

  /** The number the longest run of digits at the start denotes; None when there is none. */
  function LeadingNumber(s: string, radix: nat): Option<int> {
    var k := DigitRun(s, radix);
    if k == 0 then None else Some(DigitsValue(s[..k], radix))
  }

  /**
   * `parseInt(s)` with no radix: skip leading whitespace, take one sign, then read the digits;
   * NaN is None.
   */
  function ParseInt(s: string): Option<int> {
    ParseSigned(TrimStart(s))
  }

  /** The sign, then the digits. */
  function ParseSigned(t: string): Option<int> {
    if |t| > 0 && t[0] == '-' then
      match UnsignedValue(t[1..])
      case None => None
      case Some(v) => Some(-v)
    else if |t| > 0 && t[0] == '+' then
      match UnsignedValue(t[1..])
      case None => None
      case Some(v) => Some(v)
    else
      match UnsignedValue(t)
      case None => None
      case Some(v) => Some(v)
  }

  lemma SkipNoSpace(s: string)
    requires |s| > 0 && !IsSpace(s[0])
    ensures TrimStart(s) == s
    ensures ParseInt(s) == ParseSigned(s)
  {
  }

  lemma {:induction false} DigitsValueDecimal(s: string)
    requires forall k :: 0 <= k < |s| ==> IsDigit(s[k])
    ensures DigitsValue(s, 10) == DecimalValue(s)
  {
    if |s| > 0 {
      DigitsValueDecimal(s[..|s| - 1]);
    }
  }

  lemma {:induction false} DigitRunStops(d: string, rest: string, radix: nat)
    requires forall k :: 0 <= k < |d| ==> DigitOf(d[k]) < radix
    requires |rest| > 0 ==> DigitOf(rest[0]) >= radix
    ensures DigitRun(d + rest, radix) == |d|
  {
    if |d| > 0 {
      assert (d + rest)[1..] == d[1..] + rest;
      DigitRunStops(d[1..], rest, radix);
    }
  }

  /** A run of decimal digits followed by a character that is no digit of any base is read in base 10. */
  lemma UnsignedDecimal(d: string, rest: string)
    requires |d| > 0 && forall k :: 0 <= k < |d| ==> IsDigit(d[k])
    requires |d| == 1 ==> d[0] != '0' || |rest| == 0 || DigitOf(rest[0]) == 36
    requires |rest| > 0 ==> DigitOf(rest[0]) == 36
    ensures UnsignedValue(d + rest) == Some(DecimalValue(d))
  {
    var u := d + rest;
    if |d| >= 2 {
      assert IsDigit(u[1]);
    }
    LeadingDecimal(d, rest);
  }

  lemma LeadingDecimal(d: string, rest: string)
    requires |d| > 0 && forall k :: 0 <= k < |d| ==> IsDigit(d[k])
    requires |rest| > 0 ==> DigitOf(rest[0]) == 36
    ensures LeadingNumber(d + rest, 10) == Some(DecimalValue(d))
  {
    DigitRunStops(d, rest, 10);
    assert (d + rest)[..|d|] == d;
    DigitsValueDecimal(d);
  }

  /**
   * parseInt reads back the decimal rendering of every integer, whatever follows it as long as
   * that starts with a character that is not a letter or a digit (`"7.5"`, `"7 chapters"`).
   */
  lemma ParseIntReadsDecimal(n: int, rest: string)
    requires |rest| > 0 ==> DigitOf(rest[0]) == 36
    ensures ParseInt(IntToString(n) + rest) == Some(n)
  {
    var m: nat := if n < 0 then -n else n;
    NatToStringValue(m);
    if n < 0 {
      NegativeDigits(NatToString(m), rest, m);
    } else {
      PositiveDigits(NatToString(m), rest, m);
    }
  }

  /** parseInt reads back the decimal rendering of every integer. */
  lemma ParseIntOfDecimal(n: int)
    ensures ParseInt(IntToString(n)) == Some(n)
  {
    ParseIntReadsDecimal(n, "");
    assert IntToString(n) + "" == IntToString(n);
  }

  /**
   * Leading whitespace and a tail that starts with neither a letter nor a digit do not change
   * the number read: `" 7"`, `"7.9"` and `"7 chapters"` all read as 7.
   */
  lemma ParseIntPadded(lead: string, n: int, rest: string)
    requires forall k :: 0 <= k < |lead| ==> IsSpace(lead[k])
    requires |rest| > 0 ==> DigitOf(rest[0]) == 36
    ensures ParseInt(lead + IntToString(n) + rest) == Some(n)
  {
    ParseIntReadsDecimal(n, rest);
    ConcatAssoc(lead, IntToString(n), rest);
    ParseIntSkipsSpaces(lead, IntToString(n) + rest);
  }

  lemma NegativeDigits(d: string, rest: string, v: int)
    requires |d| > 0 && forall k :: 0 <= k < |d| ==> IsDigit(d[k])
    requires |rest| > 0 ==> DigitOf(rest[0]) == 36
    requires v == DecimalValue(d)
    ensures ParseInt("-" + d + rest) == Some(-v)
  {
    UnsignedDecimal(d, rest);
    ConcatAssoc("-", d, rest);
    MinusSign(d + rest, v);
  }

  lemma PositiveDigits(d: string, rest: string, v: int)
    requires |d| > 0 && forall k :: 0 <= k < |d| ==> IsDigit(d[k])
    requires |rest| > 0 ==> DigitOf(rest[0]) == 36
    requires v == DecimalValue(d)
    ensures ParseInt(d + rest) == Some(v)
  {
    UnsignedDecimal(d, rest);
    NoSign(d + rest, v);
  }

  lemma MinusSign(u: string, v: int)
    requires UnsignedValue(u) == Some(v)
    ensures ParseInt("-" + u) == Some(-v)
  {
    SkipNoSpace("-" + u);
    assert ("-" + u)[1..] == u;
  }

  lemma NoSign(u: string, v: int)
    requires |u| > 0 && IsDigit(u[0]) && UnsignedValue(u) == Some(v)
    ensures ParseInt(u) == Some(v)
  {
    SkipNoSpace(u);
  }

  /** Leading whitespace does not change what parseInt reads. */
  lemma ParseIntSkipsSpaces(w: string, s: string)
    requires forall k :: 0 <= k < |w| ==> IsSpace(w[k])
    ensures ParseInt(w + s) == ParseInt(s)
  {
    SkipAll(w, s);
  }

  lemma {:induction false} SkipAll(w: string, s: string)
    requires forall k :: 0 <= k < |w| ==> IsSpace(w[k])
    ensures SkipSpaces(w + s) == |w| + SkipSpaces(s)
    ensures TrimStart(w + s) == TrimStart(s)
  {
    if |w| > 0 {
      assert (w + s)[1..] == w[1..] + s;
      SkipAll(w[1..], s);
    }
    assert (w + s)[|w| + SkipSpaces(s)..] == s[SkipSpaces(s)..];
  }

}
