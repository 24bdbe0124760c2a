/** Decimal integer parsing as `parseInt(s)` does it with no radix, for the
    strings a numeric input can hold: leading blanks skipped, an optional
    sign, then the longest run of decimal digits; no digits at all is NaN. */
module Numbers {
  import opened Common

  predicate IsDigit(c: char)
  {
    '0' <= c <= '9'
  }

  /** The blanks `parseInt` skips that are ASCII: space, tab, line feed,
      vertical tab, form feed and carriage return. */
  predicate IsBlank(c: char)
  {
    c == ' ' || c == '\t' || c == '\n' || c == '\U{000B}' || c == '\U{000C}' || c == '\r'
  }

  predicate AllDigits(s: string)
  {
    forall i :: 0 <= i < |s| ==> IsDigit(s[i])
  }

  function TrimStart(s: string): (t: string)
    ensures |t| <= |s| && t == s[|s| - |t|..]
    ensures t == [] || !IsBlank(t[0])
  {
    if s != [] && IsBlank(s[0]) then TrimStart(s[1..]) else s
  }

  /** The longest prefix of `s` made of decimal digits. */
  function LeadingDigits(s: string): (d: string)
    ensures d <= s
    ensures AllDigits(d)
    ensures |d| < |s| ==> !IsDigit(s[|d|])
  {
    if s != [] && IsDigit(s[0]) then [s[0]] + LeadingDigits(s[1..]) else []
  }

  /** Value of a digit string read left to right. */
  function DigitsValue(d: string): nat
    requires AllDigits(d)
  {
    if d == [] then 0
    else DigitsValue(d[..|d| - 1]) * 10 + (d[|d| - 1] as int - '0' as int)
  }

  /** The value of the digits `u` starts with; `None` when it starts with none. */
  function ParseDigits(u: string): Option<nat>
  {
    var digits := LeadingDigits(u);
    if digits == [] then None else Some(DigitsValue(digits))
  }

  /** `parseInt` once leading blanks are gone: an optional sign, then digits. */
  function ParseSigned(t: string): Option<int>
  {
    if t != [] && t[0] == '-' then
      match ParseDigits(t[1..])
      case None => None
      case Some(v) => Some(-(v as int))
    else if t != [] && t[0] == '+' then
      match ParseDigits(t[1..])
      case None => None
      case Some(v) => Some(v as int)
    else
      match ParseDigits(t)
      case None => None
      case Some(v) => Some(v as int)
  }

  /** `parseInt(s)`; `None` stands for NaN. */
  function ParseInt(s: string): Option<int>
  {
    ParseSigned(TrimStart(s))
  }

  /** The canonical decimal spelling of a natural number. */
  function DecimalString(n: nat): (s: string)
    ensures |s| > 0
    ensures AllDigits(s)
  {
    var digit := ('0' as int + n % 10) as char;
    if n < 10 then [digit] else DecimalString(n / 10) + [digit]
  }

  lemma {:induction false} DecimalStringValue(n: nat)
    ensures DigitsValue(DecimalString(n)) == n
    decreases n
  {
    var s := DecimalString(n);
    if n >= 10 {
      DecimalStringValue(n / 10);
      assert s[..|s| - 1] == DecimalString(n / 10);
    }
  }

  lemma {:induction false} LeadingDigitsOfDigitsThen(d: string, rest: string)
    requires AllDigits(d)
    requires rest == [] || !IsDigit(rest[0])
    ensures LeadingDigits(d + rest) == d
    decreases |d|
  {
    if d == [] {
      assert d + rest == rest;
    } else {
      assert (d + rest)[1..] == d[1..] + rest;
      LeadingDigitsOfDigitsThen(d[1..], rest);
    }
  }

  lemma {:induction false} ParseDigitsThen(d: string, rest: string)
    requires AllDigits(d) && d != []
    requires rest == [] || !IsDigit(rest[0])
    ensures ParseDigits(d + rest) == Some(DigitsValue(d))
  {
    LeadingDigitsOfDigitsThen(d, rest);
  }

  lemma {:induction false} ParseIntPlain(u: string, v: nat)
    requires u != [] && IsDigit(u[0])
    requires ParseDigits(u) == Some(v)
    ensures ParseInt(u) == Some(v as int)
  {
    assert !IsBlank(u[0]);
    assert TrimStart(u) == u;
  }

  lemma {:induction false} ParseIntUnsigned(d: string, rest: string)
    requires AllDigits(d) && d != []
    requires rest == [] || !IsDigit(rest[0])
    ensures ParseInt(d + rest) == Some(DigitsValue(d) as int)
  {
    ParseDigitsThen(d, rest);
    assert (d + rest)[0] == d[0];
    ParseIntPlain(d + rest, DigitsValue(d));
  }

  lemma {:induction false} ParseIntMinus(u: string, v: nat)
    requires ParseDigits(u) == Some(v)
    ensures ParseInt("-" + u) == Some(-(v as int))
  {
    var t := "-" + u;
    assert t[0] == '-' && t[1..] == u;
    assert TrimStart(t) == t;
  }

  /** A minus sign, digits, then anything that is not a digit: "-12.5" reads as -12. */
  lemma {:induction false} ParseIntNegative(d: string, rest: string)
    requires AllDigits(d) && d != []
    requires rest == [] || !IsDigit(rest[0])
    ensures ParseInt("-" + (d + rest)) == Some(-(DigitsValue(d) as int))
  {
    ParseDigitsThen(d, rest);
    ParseIntMinus(d + rest, DigitsValue(d));
  }

  /** `parseInt` reads back the decimal spelling of a number and stops at
      the first non-digit after it, so "12.5" and "12abc" read as 12. */
  lemma {:induction false} ParseIntReadsDecimal(n: nat, rest: string)
    requires rest == [] || !IsDigit(rest[0])
    ensures ParseInt(DecimalString(n) + rest) == Some(n as int)
  {
    DecimalStringValue(n);
    ParseIntUnsigned(DecimalString(n), rest);
  }

  /** A string without any digit is NaN; the empty string in particular. */
  lemma {:induction false} ParseIntNaN(s: string)
    requires forall i :: 0 <= i < |s| ==> !IsDigit(s[i])
    ensures ParseInt(s) == None
  {
    var t := TrimStart(s);
    var offset := |s| - |t|;
    assert t == s[offset..];
    if t != [] {
      assert t[0] == s[offset] && !IsDigit(t[0]);
      assert ParseDigits(t) == None;
      if |t| > 1 {
        assert t[1..][0] == s[offset + 1] && !IsDigit(t[1..][0]);
      }
      assert ParseDigits(t[1..]) == None;
    }
  }
}
