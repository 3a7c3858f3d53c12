/** Decimal text and numbers: `Number.prototype.toString` on integers, `parseInt`
    and `Number(text)` restricted to plain decimal literals. Integers are unbounded;
    NaN is `None`. */
module Numbers {
  import opened Base
  import opened Text

  predicate IsDigit(c: char) {
    '0' <= c <= '9'
  }

  predicate IsDigits(s: string) {
    forall i :: 0 <= i < |s| ==> IsDigit(s[i])
  }

  function DigitValue(c: char): nat
    requires IsDigit(c)
  {
    c as int - '0' as int
  }

  function DigitChar(d: nat): (c: char)
    requires d < 10
    ensures IsDigit(c) && DigitValue(c) == d
  {
    ('0' as int + d) as char
  }

  /** The value of a digit string read in base 10; the empty string reads as 0. */
  function DigitsValue(s: string): nat
    requires IsDigits(s)
  {
    if s == [] then 0 else DigitsValue(s[..|s| - 1]) * 10 + DigitValue(s[|s| - 1])
  }

  /** Base-10 text of a natural number, without leading zeros. */
  function NatToString(n: nat): (r: string)
    ensures |r| >= 1 && IsDigits(r)
    ensures n > 0 ==> r[0] != '0'
  {
    if n < 10 then [DigitChar(n)] else NatToString(n / 10) + [DigitChar(n % 10)]
  }

  lemma {:induction false} NatToStringValue(n: nat)
    ensures DigitsValue(NatToString(n)) == n
  {
    if n >= 10 {
      var s := NatToString(n);
      assert s[..|s| - 1] == NatToString(n / 10);
      NatToStringValue(n / 10);
    }
  }

  /** `n.toString()` for an integer `n`. */
  function IntToString(n: int): (r: string)
    ensures |r| >= 1
    ensures n >= 0 ==> IsDigits(r)
    ensures n < 0 ==> r[0] == '-' && IsDigits(r[1..]) && |r| >= 2
  {
    if n < 0 then "-" + NatToString(-n) else NatToString(n)
  }

  /** The longest prefix of `s` made of digits. */
  function DigitPrefix(s: string): (r: string)
    ensures IsDigits(r) && r <= s
    ensures |r| < |s| ==> !IsDigit(s[|r|])
  {
    if s == [] || !IsDigit(s[0]) then [] else [s[0]] + DigitPrefix(s[1..])
  }

  lemma {:induction false} DigitPrefixOf(d: string, rest: string)
    requires IsDigits(d)
    requires rest == [] || !IsDigit(rest[0])
    ensures DigitPrefix(d + rest) == d
  {
    if d != [] {
      assert (d + rest)[1..] == d[1..] + rest;
      DigitPrefixOf(d[1..], rest);
    } else {
      assert d + rest == rest;
    }
  }

  /** The part of the text after an optional leading sign, and whether the sign was `-`. */
  datatype Signed = Signed(negative: bool, rest: string)

  function SignOf(t: string): Signed {
    if t != [] && t[0] == '-' then Signed(true, t[1..])
    else if t != [] && t[0] == '+' then Signed(false, t[1..])
    else Signed(false, t)
  }

  /** `parseInt(s)` in base 10: leading white space is skipped, one sign is read, then
      the longest run of digits; NaN (`None`) when there is no digit. Whatever follows
      the digits is ignored. */
  function ParseInt(s: string): Option<int> {
    var signed := SignOf(TrimStart(s));
    var negative, d := signed.negative, DigitPrefix(signed.rest);
    var value: int := if d == [] then 0 else DigitsValue(d);
    if d == [] then None
    else if negative then Some(-value)
    else Some(value)
  }

  /** Digits followed by anything that does not start with a digit parse to the digits' value. */
  lemma ParseIntOfDigits(d: string, junk: string)
    requires IsDigits(d) && d != []
    requires junk == [] || !IsDigit(junk[0])
    ensures ParseInt(d + junk) == Some(DigitsValue(d))
  {
    var s := d + junk;
    assert s[0] == d[0] && IsDigit(s[0]);
    TrimStartOfNonSpace(s);
    assert SignOf(s) == Signed(false, s);
    DigitPrefixOf(d, junk);
  }

  /** A minus sign before the digits is kept. */
  lemma ParseIntOfNegativeDigits(d: string, junk: string)
    requires IsDigits(d) && d != []
    requires junk == [] || !IsDigit(junk[0])
    ensures ParseInt("-" + d + junk) == Some(-(DigitsValue(d) as int))
  {
    var rest := d + junk;
    var s := "-" + rest;
    assert "-" + d + junk == s;
    assert s[0] == '-' && s[1..] == rest;
    TrimStartOfNonSpace(s);
    DigitPrefixOf(d, junk);
    ParseIntOfSignedRest(s, true, rest, d);
  }

  lemma ParseIntOfSignedRest(s: string, negative: bool, rest: string, d: string)
    requires TrimStart(s) == s && SignOf(s) == Signed(negative, rest)
    requires IsDigits(d) && d != [] && DigitPrefix(rest) == d
    ensures ParseInt(s) == Some(if negative then -(DigitsValue(d) as int) else DigitsValue(d))
  {
  }

  /** Text that starts, after white space and a sign, with anything but a digit is NaN. */
  lemma ParseIntOfNonNumeric(s: string)
    requires SignOf(TrimStart(s)).rest == [] || !IsDigit(SignOf(TrimStart(s)).rest[0])
    ensures ParseInt(s) == None
  {
  }

  lemma ParseIntOfSignedDigits(negative: bool, d: string)
    requires IsDigits(d) && d != []
    ensures ParseInt(if negative then "-" + d else d) == Some(if negative then -(DigitsValue(d) as int) else DigitsValue(d))
  {
    var s := if negative then "-" + d else d;
    assert s[0] == '-' || IsDigit(s[0]);
    TrimStartOfNonSpace(s);
    SignOfSignedDigits(negative, d);
    assert d == d + [];
    DigitPrefixOf(d, []);
    ParseIntOfSigned(s, negative, d);
  }

  lemma ParseIntOfSigned(s: string, negative: bool, d: string)
    requires TrimStart(s) == s && SignOf(s) == Signed(negative, d)
    requires IsDigits(d) && d != [] && DigitPrefix(d) == d
    ensures ParseInt(s) == Some(if negative then -(DigitsValue(d) as int) else DigitsValue(d))
  {
  }

  /** Reading back the text of an integer gives the integer: `parseInt(n.toString()) == n`. */
  lemma ParseIntOfIntToString(n: int)
    ensures ParseInt(IntToString(n)) == Some(n)
  {
    var m: nat := if n < 0 then -n else n;
    NatToStringValue(m);
    ParseIntOfSignedDigits(n < 0, NatToString(m));
  }

  /** A non-empty digit string parses, to its own value. */
  lemma ParseIntOfDigitString(d: string)
    requires IsDigits(d) && d != []
    ensures ParseInt(d) == Some(DigitsValue(d))
  {
    assert d == d + [];
    ParseIntOfDigits(d, []);
  }

  /** A finite decimal literal as `Number(text)` reads it: a sign, the digits before the
      point (as a value) and the digits after it (as text). */
  datatype Decimal = Decimal(negative: bool, whole: nat, fraction: string)

  /** `Number.isInteger`: no non-zero digit after the point. */
  predicate IsWhole(d: Decimal) {
    forall i :: 0 <= i < |d.fraction| ==> d.fraction[i] == '0'
  }

  /** The value of a whole decimal. */
  function WholeValue(d: Decimal): int {
    if d.negative then -(d.whole as int) else d.whole
  }

  /** `Number(text)` on decimal literals: surrounding white space is ignored and blank
      text is 0; otherwise a sign, digits, and optionally a point and more digits, with at
      least one digit in all. Anything else is NaN (`None`). */
  function ToNumber(s: string): Option<Decimal> {
    var t := Trim(s);
    if t == [] then Some(Decimal(false, 0, [])) else DecimalOf(SignOf(t))
  }

  /** The unsigned part of a decimal literal: digits, then optionally a point and digits. */
  function DecimalOf(signed: Signed): Option<Decimal> {
    var w := DigitPrefix(signed.rest);
    var after := signed.rest[|w|..];
    if after == [] then
      if w == [] then None else Some(Decimal(signed.negative, DigitsValue(w), []))
    else if after[0] == '.' && IsDigits(after[1..]) && (w != [] || |after| > 1) then
      Some(Decimal(signed.negative, DigitsValue(w), after[1..]))
    else None
  }

  lemma TrimOfSignedDigits(negative: bool, d: string)
    requires IsDigits(d) && d != []
    ensures Trim(if negative then "-" + d else d) == (if negative then "-" + d else d)
  {
    var s := if negative then "-" + d else d;
    assert s[|s| - 1] == d[|d| - 1];
    assert IsDigit(s[|s| - 1]);
    assert s[0] == '-' || IsDigit(s[0]);
    TrimFixesTrimmed(s);
  }

  lemma DecimalOfDigits(negative: bool, d: string)
    requires IsDigits(d) && d != []
    ensures DecimalOf(Signed(negative, d)) == Some(Decimal(negative, DigitsValue(d), []))
  {
    assert d == d + [];
    DigitPrefixOf(d, []);
    assert d[|d|..] == [];
  }

  lemma SignOfSignedDigits(negative: bool, d: string)
    requires IsDigits(d) && d != []
    ensures SignOf(if negative then "-" + d else d) == Signed(negative, d)
  {
    assert IsDigit(d[0]);
    if negative {
      assert ("-" + d)[1..] == d;
    }
  }

  lemma ToNumberOfDigits(negative: bool, d: string)
    requires IsDigits(d) && d != []
    ensures ToNumber(if negative then "-" + d else d) == Some(Decimal(negative, DigitsValue(d), []))
  {
    var s := if negative then "-" + d else d;
    TrimOfSignedDigits(negative, d);
    SignOfSignedDigits(negative, d);
    DecimalOfDigits(negative, d);
    assert Trim(s) == s && s != [];
  }

  /** `Number(n.toString())` is the whole number `n`. */
  lemma ToNumberOfIntToString(n: int)
    ensures ToNumber(IntToString(n)).Some?
    ensures IsWhole(ToNumber(IntToString(n)).value)
    ensures WholeValue(ToNumber(IntToString(n)).value) == n
  {
    var m: nat := if n < 0 then -n else n;
    NatToStringValue(m);
    ToNumberOfDigits(n < 0, NatToString(m));
  }
}
