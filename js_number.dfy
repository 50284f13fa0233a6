/** Models of the JavaScript number conversions the components use:
    `parseInt` (no radix argument) and integer `toString`, with NaN as
    `None`. Numbers are unbounded integers here. */
module JsNumber {
  import opened JsString

  /** The value of a digit character in radices up to 36, or 36 when the
      character is no digit at all. */
  function DigitValue(c: char): (d: nat)
    ensures d <= 36
  {
    if '0' <= c <= '9' then c as int - '0' as int
    else if 'a' <= c <= 'z' then c as int - 'a' as int + 10
    else if 'A' <= c <= 'Z' then c as int - 'A' as int + 10
    else 36
  }

  predicate IsDigitIn(c: char, radix: nat) {
    DigitValue(c) < radix
  }

  predicate AllDigitsIn(s: string, radix: nat) {
    forall i :: 0 <= i < |s| ==> IsDigitIn(s[i], radix)
  }

  /** The length of the longest prefix of `s` made of digits of `radix`. */
  function DigitRun(s: string, radix: nat): (k: nat)
    ensures k <= |s|
    ensures AllDigitsIn(s[..k], radix)
    ensures k < |s| ==> !IsDigitIn(s[k], radix)
  {
    if |s| == 0 || !IsDigitIn(s[0], radix) then 0
    else
      var k' := DigitRun(s[1..], radix);
      assert s[..1 + k'] == [s[0]] + s[1..][..k'];
      1 + k'
  }

  /** The number a string of digits denotes, most significant digit first. */
  function DigitsValue(s: string, radix: nat): nat
    requires AllDigitsIn(s, radix)
  {
    if |s| == 0 then 0
    else DigitsValue(s[..|s| - 1], radix) * radix + DigitValue(s[|s| - 1])
  }

  /** The value of the longest digit prefix, or NaN when there is none. */
  function PrefixValue(s: string, radix: nat): Option<nat> {
    var k := DigitRun(s, radix);
    if k == 0 then None else Some(DigitsValue(s[..k], radix))
  }

  /** The white-space characters `parseInt` skips: the ASCII ones, no-break
      space, the byte-order mark and the two Unicode line terminators. */
  predicate IsJsWhitespace(c: char) {
    c == ' ' || c == '\t' || c == '\n' || c == '\r' || c == '\U{B}' || c == '\U{C}'
    || c == '\U{A0}' || c == '\U{FEFF}' || c == '\U{2028}' || c == '\U{2029}'
  }

  function TrimStart(s: string): (r: string)
    ensures |r| <= |s|
    ensures r == [] || !IsJsWhitespace(r[0])
  {
    if |s| > 0 && IsJsWhitespace(s[0]) then TrimStart(s[1..]) else s
  }

  /** The text after an optional leading sign. */
  function Unsigned(t: string): (u: string)
    ensures |u| <= |t|
  {
    if |t| > 0 && (t[0] == '-' || t[0] == '+') then t[1..] else t
  }

  /** A "0x" or "0X" prefix followed by a hexadecimal digit, or else a
      leading decimal digit. */
  predicate StartsWithDigit(u: string) {
    if |u| >= 2 && u[0] == '0' && (u[1] == 'x' || u[1] == 'X') then |u| > 2 && IsDigitIn(u[2], 16)
    else |u| >= 1 && IsDigitIn(u[0], 10)
  }

  /** `parseInt(s)`: skip leading white space, take an optional sign, read a
      hexadecimal number after a "0x" or "0X" prefix and a decimal one
      otherwise, stopping at the first character that is not a digit;
      NaN (`None`) when no digit was read. */
  function ParseInt(s: string): Option<int> {
    var t := TrimStart(s);
    var negative := |t| > 0 && t[0] == '-';
    var u := Unsigned(t);
    var magnitude :=
      if |u| >= 2 && u[0] == '0' && (u[1] == 'x' || u[1] == 'X') then PrefixValue(u[2..], 16)
      else PrefixValue(u, 10);
    if magnitude.None? then None
    else
      var m: int := magnitude.value;
      Some(if negative then -m else m)
  }

  /** `parseInt` gives NaN exactly when no digit follows the white space
      and the sign, and a negative number only after a minus sign. */
  lemma ParseIntNaN(s: string)
    ensures ParseInt(s).None? <==> !StartsWithDigit(Unsigned(TrimStart(s)))
    ensures ParseInt(s).Some? && ParseInt(s).value < 0 ==> TrimStart(s)[0] == '-'
  {
  }

  function DigitChar(d: nat): (c: char)
    requires d < 10
    ensures '0' <= c <= '9' && DigitValue(c) == d
  {
    ('0' as int + d) as char
  }

  /** `n.toString()` for a non-negative integer: its decimal digits, without
      leading zeros. */
  function NatToDecimal(n: nat): (r: string)
    ensures |r| >= 1 && AllDigitsIn(r, 10)
    ensures DigitsValue(r, 10) == n
    ensures |r| > 1 ==> r[0] != '0'
    ensures n < 10 <==> |r| == 1
  {
    if n < 10 then [DigitChar(n)]
    else
      var r := NatToDecimal(n / 10) + [DigitChar(n % 10)];
      assert r[..|r| - 1] == NatToDecimal(n / 10);
      r
  }

  /** `i.toString()` for any integer. */
  function IntToDecimal(i: int): (r: string)
    ensures |r| >= 1
  {
    if i < 0 then "-" + NatToDecimal(-i) else NatToDecimal(i)
  }

  /** `x.toString()` where NaN prints as "NaN". */
  function NumberToString(x: Option<int>): (r: string)
    ensures |r| >= 1
  {
    match x
    case None => "NaN"
    case Some(i) => IntToDecimal(i)
  }

  /** JS `a * b` and `a + b` on possibly-NaN integers. */
  function Times(a: Option<int>, b: Option<int>): Option<int> {
    if a.Some? && b.Some? then Some(a.value * b.value) else None
  }

  function Plus(a: Option<int>, b: int): Option<int> {
    if a.Some? then Some(a.value + b) else None
  }

  lemma {:induction false} DigitRunOfDigits(s: string, radix: nat)
    requires AllDigitsIn(s, radix)
    ensures DigitRun(s, radix) == |s|
  {
    if |s| > 0 {
      DigitRunOfDigits(s[1..], radix);
    }
  }

  /** A string of decimal digits parses to the number it denotes. */
  lemma ParseDigits(s: string)
    requires |s| >= 1 && AllDigitsIn(s, 10)
    ensures ParseInt(s) == Some(DigitsValue(s, 10))
  {
    assert IsDigitIn(s[0], 10);
    assert TrimStart(s) == s;
    assert Unsigned(s) == s;
    DigitRunOfDigits(s, 10);
    assert s[..|s|] == s;
  }

  /** Printing a number and parsing it back gives the same number, NaN
      included: `parseInt(String(x)) == x` for every integer or NaN. */
  lemma ParseIntRoundTrip(x: Option<int>)
    ensures ParseInt(NumberToString(x)) == x
  {
    match x
    case None =>
      assert TrimStart("NaN") == "NaN";
      assert DigitRun("NaN", 10) == 0;
    case Some(i) =>
      if i < 0 {
        var d := NatToDecimal(-i);
        var s := "-" + d;
        assert TrimStart(s) == s;
        assert s[1..] == d;
        DigitRunOfDigits(d, 10);
        assert d[..|d|] == d;
      } else {
        ParseDigits(NatToDecimal(i));
      }
  }

  lemma IntToDecimalRoundTrip(i: int)
    ensures ParseInt(IntToDecimal(i)) == Some(i)
  {
    ParseIntRoundTrip(Some(i));
  }

  /** Leading zeros do not change the value of a digit string. */
  lemma {:induction false} LeadingZero(s: string)
    requires AllDigitsIn(s, 10)
    ensures AllDigitsIn("0" + s, 10) && DigitsValue("0" + s, 10) == DigitsValue(s, 10)
  {
    var z := "0" + s;
    assert AllDigitsIn(z, 10) by {
      forall i | 0 <= i < |z| ensures IsDigitIn(z[i], 10) {
        if i > 0 { assert z[i] == s[i - 1]; }
      }
    }
    if |s| > 0 {
      assert z[..|z| - 1] == "0" + s[..|s| - 1];
      LeadingZero(s[..|s| - 1]);
    }
  }
}
