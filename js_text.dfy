/**
  The two JavaScript number/text conversions the info panel relies on:
  `parseInt(text)` with no radix argument, and the decimal text an integer
  number becomes when it is assigned to `textContent` (or spliced into a
  template string).
 */
module JsText {
  import opened Common

  /** WhiteSpace and LineTerminator code points, which parseInt skips before the number. */
  predicate IsJsWhitespace(c: char)
  {
    c == '\t' || c == '\n' || c == '\U{000B}' || c == '\U{000C}' || c == '\r' || c == ' '
    || c == '\U{00A0}' || c == '\U{1680}' || ('\U{2000}' <= c <= '\U{200A}')
    || c == '\U{2028}' || c == '\U{2029}' || c == '\U{202F}' || c == '\U{205F}'
    || c == '\U{3000}' || c == '\U{FEFF}'
  }

  /** The input with its leading white space removed. */
  function TrimStart(s: string): (t: string)
    ensures |t| <= |s| && t == s[|s| - |t|..]
    ensures t == [] || !IsJsWhitespace(t[0])
  {
    if s != [] && IsJsWhitespace(s[0]) then TrimStart(s[1..]) else s
  }

  /** The value of a digit character in radix 36; 36 for anything that is not a digit or letter. */
  function DigitValue(c: char): nat
  {
    if '0' <= c <= '9' then c as int - '0' as int
    else if 'a' <= c <= 'z' then c as int - 'a' as int + 10
    else if 'A' <= c <= 'Z' then c as int - 'A' as int + 10
    else 36
  }

  predicate IsDigitIn(c: char, radix: nat)
  {
    DigitValue(c) < radix
  }

  predicate AllDigitsIn(s: string, radix: nat)
  {
    forall i :: 0 <= i < |s| ==> IsDigitIn(s[i], radix)
  }

  /** The longest prefix of `s` made of digits of the given radix. */
  function LeadingDigits(s: string, radix: nat): (z: string)
    ensures |z| <= |s| && z == s[..|z|]
    ensures AllDigitsIn(z, radix)
    ensures |z| < |s| ==> !IsDigitIn(s[|z|], radix)
  {
    if s != [] && IsDigitIn(s[0], radix) then [s[0]] + LeadingDigits(s[1..], radix) else []
  }

  /** The number a string of digits denotes, most significant digit first. */
  function DigitsValue(s: string, radix: nat): nat
    requires AllDigitsIn(s, radix)
  {
    if s == [] then 0 else DigitsValue(s[..|s| - 1], radix) * radix + DigitValue(s[|s| - 1])
  }

  /**
    `parseInt(s)` without a radix: skip white space, read one optional sign,
    then the digits (see ParseUnsigned). `None` is the NaN that no digit at
    all produces.
   */
  function ParseInt(s: string): (r: Option<int>)
    ensures var t := TrimStart(s);
            var u := if t != [] && (t[0] == '-' || t[0] == '+') then t[1..] else t;
            && (r.Some? ==> u != [] && '0' <= u[0] <= '9')
            && (u != [] && '1' <= u[0] <= '9' ==> r.Some?)
            && (r.Some? && r.value < 0 ==> t[0] == '-')
  {
    var t := TrimStart(s);
    var negative := t != [] && t[0] == '-';
    var u := if t != [] && (t[0] == '-' || t[0] == '+') then t[1..] else t;
    match ParseUnsigned(u)
    case None => None
    case Some(n) => if negative then Some(-(n as int)) else Some(n)
  }

  /** The unsigned part of parseInt: radix 16 after a `0x`/`0X` prefix, else radix 10, then as many digits as there are. */
  function ParseUnsigned(u: string): (r: Option<nat>)
    ensures r.Some? ==> u != [] && '0' <= u[0] <= '9'
    ensures u != [] && '1' <= u[0] <= '9' ==> r.Some?
  {
    var hex := |u| >= 2 && u[0] == '0' && (u[1] == 'x' || u[1] == 'X');
    var radix := if hex then 16 else 10;
    var z := LeadingDigits(if hex then u[2..] else u, radix);
    if z == [] then None else Some(DigitsValue(z, radix))
  }

  function DecimalDigit(d: nat): (c: char)
    requires d < 10
    ensures IsDigitIn(c, 10) && DigitValue(c) == d
  {
    ('0' as int + d) as char
  }

  /** The decimal text of a natural number, with no leading zero. */
  function NatToString(n: nat): (r: string)
    ensures r != [] && '0' <= r[0] <= '9'
  {
    if n < 10 then [DecimalDigit(n)] else NatToString(n / 10) + [DecimalDigit(n % 10)]
  }

  /** The text JavaScript produces for an integer-valued number. */
  function IntToString(i: int): (r: string)
    ensures r != [] && (r[0] == '-' <==> i < 0)
    ensures i >= 0 ==> '0' <= r[0] <= '9'
  {
    if i < 0 then "-" + NatToString(-i) else NatToString(i)
  }

  /** The decimal text of n is a non-empty run of decimal digits that reads back as n. */
  lemma {:induction false} NatToStringDigits(n: nat)
    ensures NatToString(n) != []
    ensures AllDigitsIn(NatToString(n), 10)
    ensures DigitsValue(NatToString(n), 10) == n
  {
    if n >= 10 {
      NatToStringDigits(n / 10);
      var s := NatToString(n);
      assert s[..|s| - 1] == NatToString(n / 10);
    }
  }

  /** A string of digits is its own longest digit prefix. */
  lemma {:induction false} LeadingDigitsOfDigits(s: string, radix: nat)
    requires AllDigitsIn(s, radix)
    ensures LeadingDigits(s, radix) == s
  {
    if s != [] {
      LeadingDigitsOfDigits(s[1..], radix);
    }
  }

  lemma DecimalDigitIsNotSpace(c: char)
    requires IsDigitIn(c, 10)
    ensures '0' <= c <= '9' && !IsJsWhitespace(c)
  {
  }

  /** A non-empty run of decimal digits is read in radix 10 and in full. */
  lemma ParseUnsignedOfDigits(d: string)
    requires d != [] && AllDigitsIn(d, 10)
    ensures ParseUnsigned(d) == Some(DigitsValue(d, 10))
  {
    if |d| >= 2 {
      DecimalDigitIsNotSpace(d[1]);
    }
    LeadingDigitsOfDigits(d, 10);
  }

  /** Text that starts with a decimal digit is parsed by its unsigned part alone. */
  lemma ParseIntUnsigned(d: string)
    requires d != [] && '0' <= d[0] <= '9'
    ensures ParseInt(d) == ParseUnsigned(d)
  {
    assert !IsJsWhitespace(d[0]);
    assert TrimStart(d) == d;
  }

  /** A minus sign in front of a decimal digit negates the unsigned part. */
  lemma ParseIntNegative(d: string)
    requires d != [] && '0' <= d[0] <= '9'
    ensures ParseInt("-" + d) == (match ParseUnsigned(d) case None => None case Some(n) => Some(-(n as int)))
  {
    var s := "-" + d;
    assert s[0] == '-' && !IsJsWhitespace(s[0]);
    assert TrimStart(s) == s;
    assert s[1..] == d;
  }

  /** parseInt reads back exactly the integer whose text was written. */
  lemma ParseIntOfIntToString(i: int)
    ensures ParseInt(IntToString(i)) == Some(i)
  {
    var m: nat := if i < 0 then -i else i;
    var d := NatToString(m);
    NatToStringDigits(m);
    ParseUnsignedOfDigits(d);
    DecimalDigitIsNotSpace(d[0]);
    if i < 0 {
      ParseIntNegative(d);
    } else {
      ParseIntUnsigned(d);
    }
  }
}
