/**
 * Integers as JavaScript shows and reads them: template-literal rendering of
 * an integral Number (`${n}`) and `parseInt(s)` with no radix argument.
 * Numbers are modelled as unbounded integers.
 */
module Numerals {
  import opened Wrappers
  import opened Text

  /** The digit character for 0..9. */
  function DigitChar(d: nat): char
    requires d < 10
  {
    ('0' as int + d) as char
  }

  /** The value of a digit in radix 10 or 16, when it is one. */
  function DigitValue(c: char, radix: nat): Option<nat>
  {
    if '0' <= c <= '9' && (c as int - '0' as int) < radix then Some(c as int - '0' as int)
    else if radix == 16 && 'a' <= c <= 'f' then Some(c as int - 'a' as int + 10)
    else if radix == 16 && 'A' <= c <= 'F' then Some(c as int - 'A' as int + 10)
    else None
  }

  /** The decimal rendering of a non-negative integer, without leading zeros. */
  function Decimal(n: nat): (s: string)
    ensures |s| >= 1
    ensures forall i :: 0 <= i < |s| ==> '0' <= s[i] <= '9'
    ensures |s| > 1 ==> s[0] != '0'
  {
    if n < 10 then [DigitChar(n)] else Decimal(n / 10) + [DigitChar(n % 10)]
  }

  /** `${i}` for an integral Number: a minus sign in front of negative values. */
  function IntToString(i: int): string
  {
    if i < 0 then "-" + Decimal(-i) else Decimal(i)
  }

  /** The longest prefix of `s` made of digits of the radix. */
  function DigitRun(s: string, radix: nat): (z: string)
    ensures z <= s
    ensures forall i :: 0 <= i < |z| ==> DigitValue(z[i], radix).Some?
    ensures |z| < |s| ==> DigitValue(s[|z|], radix).None?
  {
    if |s| > 0 && DigitValue(s[0], radix).Some? then [s[0]] + DigitRun(s[1..], radix) else ""
  }

  /** The value of a string of digits of the radix, most significant first. */
  function DigitsValue(z: string, radix: nat): nat
    requires forall i :: 0 <= i < |z| ==> DigitValue(z[i], radix).Some?
  {
    if |z| == 0 then 0
    else DigitsValue(z[..|z| - 1], radix) * radix + DigitValue(z[|z| - 1], radix).value
  }

  /** `parseInt(s)`: skip leading white space, take an optional sign, read
      radix 16 after a `0x`/`0X` prefix and radix 10 otherwise, and convert the
      longest run of digits; `None` stands for NaN (no digits at all). */
  function ParseInt(s: string): Option<int>
  {
    ParseSigned(TrimStart(s))
  }

  /** `parseInt` after the leading white space: an optional sign, then the magnitude. */
  function ParseSigned(t: string): Option<int>
  {
    if |t| > 0 && t[0] == '-' then
      match ParseMagnitude(t[1..]) case None => None case Some(m) => Some(-(m as int))
    else if |t| > 0 && t[0] == '+' then ParseIntMagnitude(t[1..])
    else ParseIntMagnitude(t)
  }

  /** The unsigned part of `parseInt`, after white space and sign. */
  function ParseMagnitude(u: string): Option<nat>
  {
    var hex := |u| >= 2 && u[0] == '0' && (u[1] == 'x' || u[1] == 'X');
    var radix := if hex then 16 else 10;
    var z := DigitRun(if hex then u[2..] else u, radix);
    if |z| == 0 then None else Some(DigitsValue(z, radix))
  }

  function ParseIntMagnitude(u: string): Option<int>
  {
    match ParseMagnitude(u) case None => None case Some(m) => Some(m)
  }

  /** `parseInt(x) || 0` for an array element `x` that may be missing:
      NaN (and a missing element, which parses as NaN) becomes 0. */
  function ParseIntOrZero(x: Option<string>): int
  {
    match x
    case None => 0
    case Some(s) => match ParseInt(s) case None => 0 case Some(v) => v
  }

  /** Reading a decimal rendering back gives the number. */
  lemma {:induction false} DecimalValue(n: nat)
    ensures DigitsValue(Decimal(n), 10) == n
  {
    if n >= 10 {
      DecimalValue(n / 10);
      var s := Decimal(n);
      assert s[..|s| - 1] == Decimal(n / 10);
    }
  }

  /** A string made only of digits is its own digit run. */
  lemma {:induction false} AllDigitsIsDigitRun(s: string, radix: nat)
    requires forall i :: 0 <= i < |s| ==> DigitValue(s[i], radix).Some?
    ensures DigitRun(s, radix) == s
  {
    if |s| > 0 {
      AllDigitsIsDigitRun(s[1..], radix);
      assert [s[0]] + s[1..] == s;
    }
  }

  /** The unsigned part of `parseInt` reads a decimal rendering back. */
  lemma MagnitudeOfDecimal(n: nat)
    ensures ParseMagnitude(Decimal(n)) == Some(n)
  {
    var d := Decimal(n);
    DecimalValue(n);
    AllDigitsIsDigitRun(d, 10);
    assert !(|d| >= 2 && d[0] == '0');
  }

  /** `trimStart` leaves a string that does not start with white space alone. */
  lemma TrimStartNoSpace(s: string)
    requires |s| > 0 && !IsSpace(s[0])
    ensures TrimStart(s) == s
  {
  }

  /** `parseInt` reads back a rendered non-negative number. */
  lemma ParseNonNegative(n: nat)
    ensures ParseInt(Decimal(n)) == Some(n as int)
  {
    var s := Decimal(n);
    MagnitudeOfDecimal(n);
    assert '0' <= s[0] <= '9';
    TrimStartNoSpace(s);
    assert ParseSigned(s) == ParseIntMagnitude(s);
  }

  /** A minus sign in front of a magnitude negates it. */
  lemma SignedNegative(u: string, m: nat)
    requires ParseMagnitude(u) == Some(m)
    ensures ParseSigned(['-'] + u) == Some(-(m as int))
  {
    assert (['-'] + u)[1..] == u;
  }

  /** `parseInt` reads back a rendered negative number. */
  lemma ParseNegative(n: nat)
    ensures ParseInt("-" + Decimal(n)) == Some(-(n as int))
  {
    var d := Decimal(n);
    MagnitudeOfDecimal(n);
    SignedNegative(d, n);
    assert !IsSpace('-');
    TrimStartNoSpace(['-'] + d);
  }

  /** `parseInt` reads back what `${i}` renders, for every integer. */
  lemma ParseIntToString(i: int)
    ensures ParseInt(IntToString(i)) == Some(i)
  {
    var n: nat := if i < 0 then -i else i;
    var s := IntToString(i);
    if i < 0 {
      assert s == "-" + Decimal(n);
      ParseNegative(n);
      assert ParseInt(s) == ParseInt("-" + Decimal(n));
    } else {
      assert s == Decimal(n);
      ParseNonNegative(n);
    }
  }

  /** `parseInt(x) || 0` reads back what `${i}` renders, zero included. */
  lemma ParseIntOrZeroToString(i: int)
    ensures ParseIntOrZero(Some(IntToString(i))) == i
  {
    ParseIntToString(i);
  }
}
