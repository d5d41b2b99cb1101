/** Text primitives shared by every generation of the engine: the optional
    value, "first occurrence of a character" (JavaScript `indexOf`, C++
    `string_view::find`), decimal rendering of integers (`Number.toString`,
    `std::to_string`) and the C library's leading-integer parse (`strtol`). */
module Common {

  datatype Option<+T> = None | Some(value: T)

  /** Index of the first occurrence of `c` in `s`, or None (`indexOf` == -1, `npos`). */
  function Find(s: string, c: char): (r: Option<nat>)
    ensures r.None? <==> c !in s
    ensures r.Some? ==> r.value < |s| && s[r.value] == c && c !in s[..r.value]
  {
    if |s| == 0 then None
    else if s[0] == c then Some(0)
    else match Find(s[1..], c)
      case None => None
      case Some(k) =>
        assert s[..k + 1] == [s[0]] + s[1..][..k];
        Some(k + 1)
  }

  /** The first `c` in `a + [c] + b` is the one after `a` when `a` has none. */
  lemma FindAt(a: string, c: char, b: string)
    requires c !in a
    ensures Find(a + [c] + b, c) == Some(|a|)
  {
    var s := a + [c] + b;
    assert s[|a|] == c;
    assert s[..|a|] == a;
  }

  // ---------------------------------------------------------------------
  // Decimal digits

  predicate IsDigit(c: char) { '0' <= c <= '9' }

  predicate AllDigits(s: string) { forall i | 0 <= i < |s| :: IsDigit(s[i]) }

  function DigitChar(d: nat): (c: char)
    requires d < 10
  {
    (48 + d) as char
  }

  /** Value of a run of decimal digits, most significant first. */
  function DigitsValue(s: string): nat
    requires AllDigits(s)
  {
    if |s| == 0 then 0
    else DigitsValue(s[..|s| - 1]) * 10 + (s[|s| - 1] as int - 48)
  }

  /** Decimal text of a natural number, without leading zeros. */
  function NatToDecimal(n: nat): (s: string)
    ensures |s| >= 1 && AllDigits(s)
    ensures s[0] == '0' <==> n == 0
    decreases n
  {
    if n < 10 then [DigitChar(n)] else NatToDecimal(n / 10) + [DigitChar(n % 10)]
  }

  /** Decimal text of an integer: a '-' sign then the digits of its magnitude. */
  function IntToDecimal(i: int): string
  {
    if i < 0 then "-" + NatToDecimal(-i) else NatToDecimal(i)
  }

  /** Reading back the digits of NatToDecimal(n) yields n. */
  lemma {:induction false} DecimalRoundTrip(n: nat)
    ensures DigitsValue(NatToDecimal(n)) == n
    decreases n
  {
    var s := NatToDecimal(n);
    if n >= 10 {
      DecimalRoundTrip(n / 10);
      assert s[..|s| - 1] == NatToDecimal(n / 10);
    }
  }

  /** Distinct numbers have distinct decimal texts. */
  lemma NatToDecimalInjective(a: nat, b: nat)
    requires NatToDecimal(a) == NatToDecimal(b)
    ensures a == b
  {
    DecimalRoundTrip(a);
    DecimalRoundTrip(b);
  }

  // ---------------------------------------------------------------------
  // C library strtol / strtoul: leading white space, an optional sign, then
  // the longest run of decimal digits.  With no digits the value is 0 and the
  // end position is the start of the text.

  predicate IsSpace(c: char)
  {
    c == ' ' || c == '\t' || c == '\n' || c == '\U{B}' || c == '\U{C}' || c == '\r'
  }

  function SkipSpaces(s: string): (r: string)
    ensures |r| <= |s|
    ensures r == [] || !IsSpace(r[0])
  {
    if |s| > 0 && IsSpace(s[0]) then SkipSpaces(s[1..]) else s
  }

  /** Length of the run of digits at the start of `s`. */
  function DigitRunLength(s: string): (n: nat)
    ensures n <= |s| && AllDigits(s[..n])
    ensures n < |s| ==> !IsDigit(s[n])
  {
    if |s| > 0 && IsDigit(s[0]) then
      var k := DigitRunLength(s[1..]);
      assert s[..k + 1] == [s[0]] + s[1..][..k];
      k + 1
    else 0
  }

  datatype Parsed = Parsed(value: int, rest: string)

  /** `strtol(s, &end, 10)` as a value and the text from `end` on (magnitudes
      beyond the C `long` range are not clamped here). */
  function StrToL(s: string): (p: Parsed)
    ensures |p.rest| <= |s|
  {
    var t := SkipSpaces(s);
    if |t| > 0 && t[0] == '-' then ReadMagnitude(s, t[1..], true)
    else if |t| > 0 && t[0] == '+' then ReadMagnitude(s, t[1..], false)
    else ReadMagnitude(s, t, false)
  }

  /** The digit run at the start of `u`, negated if a minus sign preceded it;
      with no digits nothing is consumed from the original text `s`. */
  function ReadMagnitude(s: string, u: string, negative: bool): (p: Parsed)
    requires |u| <= |s|
    ensures |p.rest| <= |s|
  {
    var n := DigitRunLength(u);
    if n == 0 then Parsed(0, s)
    else
      var magnitude: int := DigitsValue(u[..n]);
      Parsed(if negative then -magnitude else magnitude, u[n..])
  }

  /** The digits of NatToDecimal(n), followed by a non-digit, form exactly one run. */
  lemma DigitRunOfDecimal(n: nat, tail: string)
    requires tail == [] || !IsDigit(tail[0])
    ensures DigitRunLength(NatToDecimal(n) + tail) == |NatToDecimal(n)|
  {
    var d := NatToDecimal(n);
    DigitRunPrefix(d, tail);
  }

  lemma {:induction false} DigitRunPrefix(d: string, tail: string)
    requires AllDigits(d)
    requires tail == [] || !IsDigit(tail[0])
    ensures DigitRunLength(d + tail) == |d|
    decreases |d|
  {
    if |d| > 0 {
      assert (d + tail)[1..] == d[1..] + tail;
      DigitRunPrefix(d[1..], tail);
    } else {
      assert d + tail == tail;
    }
  }

  /** A run of digits followed by a text that does not start with a digit
      is read whole. */
  lemma ReadDigits(s: string, d: string, tail: string, negative: bool)
    requires |d| > 0 && AllDigits(d) && |d + tail| <= |s|
    requires tail == [] || !IsDigit(tail[0])
    ensures ReadMagnitude(s, d + tail, negative)
         == Parsed(if negative then -(DigitsValue(d) as int) else DigitsValue(d), tail)
  {
    DigitRunPrefix(d, tail);
    assert (d + tail)[..|d|] == d && (d + tail)[|d|..] == tail;
  }

  /** A text that starts with a digit or a sign has no leading space. */
  lemma NoLeadingSpace(s: string)
    requires |s| > 0 && (IsDigit(s[0]) || s[0] == '-')
    ensures SkipSpaces(s) == s
  {
  }

  /** `strtol` on a run of digits followed by a text that does not start
      with a digit. */
  lemma StrToLOfDigits(d: string, tail: string)
    requires |d| > 0 && AllDigits(d)
    requires tail == [] || !IsDigit(tail[0])
    ensures StrToL(d + tail) == Parsed(DigitsValue(d), tail)
  {
    assert (d + tail)[0] == d[0];
    NoLeadingSpace(d + tail);
    ReadDigits(d + tail, d, tail, false);
  }

  /** The same after a minus sign. */
  lemma StrToLOfNegativeDigits(d: string, tail: string)
    requires |d| > 0 && AllDigits(d)
    requires tail == [] || !IsDigit(tail[0])
    ensures StrToL("-" + (d + tail)) == Parsed(-(DigitsValue(d) as int), tail)
  {
    var u := d + tail;
    var s := "-" + u;
    NoLeadingSpace(s);
    assert s[1..] == u;
    ReadDigits(s, d, tail, true);
  }

  lemma StrToLOfNat(n: nat, msg: string)
    ensures StrToL(NatToDecimal(n) + " " + msg) == Parsed(n, " " + msg)
  {
    var d := NatToDecimal(n);
    DecimalRoundTrip(n);
    StrToLOfDigits(d, " " + msg);
    assert d + " " + msg == d + (" " + msg);
  }

  lemma StrToLOfNegative(n: nat, msg: string)
    ensures StrToL("-" + NatToDecimal(n) + " " + msg) == Parsed(-(n as int), " " + msg)
  {
    var d := NatToDecimal(n);
    var tail := " " + msg;
    assert "-" + d + " " + msg == "-" + (d + tail) by {
      SplitSign(d, tail);
    }
    DecimalRoundTrip(n);
    StrToLOfNegativeDigits(d, tail);
  }

  lemma SplitSign(d: string, tail: string)
    requires |tail| > 0 && tail[0] == ' '
    ensures "-" + d + [' '] + tail[1..] == "-" + (d + tail)
  {
    assert [' '] + tail[1..] == tail;
  }

  /** `strtol` reads back an integer written by `std::to_string` in front of a
      space-separated text, and leaves the end position on the space. */
  lemma StrToLOfDecimal(code: int, msg: string)
    ensures StrToL(IntToDecimal(code) + " " + msg) == Parsed(code, " " + msg)
  {
    if code < 0 {
      assert IntToDecimal(code) == "-" + NatToDecimal(-code);
      StrToLOfNegative(-code, msg);
    } else {
      assert IntToDecimal(code) == NatToDecimal(code);
      StrToLOfNat(code, msg);
    }
  }
}
