/**
  The few pieces of JavaScript value semantics the pages rely on: nullable
  values, truthiness of optional strings, `parseInt` (which may yield NaN) and
  the decimal rendering of an integer (`String(n)`, used when a number becomes
  an <option> value).
 */
module Js {

  datatype Option<+T> = None | Some(value: T)

  /** A JavaScript number as `parseInt` produces it: an integer or NaN. */
  datatype Num = Int(n: int) | NaN

  /** `!!s` for a value of type `string | null | undefined`: absent and "" are falsy. */
  predicate Truthy(s: Option<string>) {
    s.Some? && s.value != ""
  }

  predicate IsDigit(c: char) {
    '0' <= c <= '9'
  }

  /**
    The white space that `parseInt` skips before the number: ECMA-262's
    WhiteSpace (tab, vertical tab, form feed, space, no-break space, the
    byte order mark and the other space separators of Unicode category Zs)
    and LineTerminator (line feed, carriage return, U+2028, U+2029).
   */
  predicate IsSpace(c: char) {
    || c == '\t' || c == '\U{000B}' || c == '\U{000C}' || c == ' '
    || c == '\U{00A0}' || c == '\U{FEFF}' || c == '\U{1680}'
    || ('\U{2000}' <= c <= '\U{200A}') || c == '\U{202F}' || c == '\U{205F}' || c == '\U{3000}'
    || c == '\n' || c == '\r' || c == '\U{2028}' || c == '\U{2029}'
  }

  predicate AllDigits(s: string) {
    forall i :: 0 <= i < |s| ==> IsDigit(s[i])
  }

  /** Number of leading white-space characters of `s`. */
  function LeadingSpaces(s: string): (k: nat)
    ensures k <= |s|
    ensures forall i :: 0 <= i < k ==> IsSpace(s[i])
    ensures k == |s| || !IsSpace(s[k])
  {
    if s != [] && IsSpace(s[0]) then 1 + LeadingSpaces(s[1..]) else 0
  }

  /** Length of the longest prefix of `s` made of decimal digits. */
  function DigitRun(s: string): (k: nat)
    ensures k <= |s|
    ensures AllDigits(s[..k])
    ensures k == |s| || !IsDigit(s[k])
  {
    if s != [] && IsDigit(s[0]) then
      var k := 1 + DigitRun(s[1..]);
      assert s[..k] == [s[0]] + s[1..][..k - 1];
      k
    else 0
  }

  function DigitValue(c: char): (v: nat)
    requires IsDigit(c)
    ensures v < 10
  {
    c as int - '0' as int
  }

  /** The value of a string of decimal digits, most significant first. */
  function DigitsValue(ds: string): nat
    requires AllDigits(ds)
  {
    if ds == [] then 0 else DigitsValue(ds[..|ds| - 1]) * 10 + DigitValue(ds[|ds| - 1])
  }

  /**
    `parseInt(s)` with no radix, for decimal input: skip leading white space,
    take an optional sign, then the longest run of digits; NaN when that run
    is empty.
   */
  function ParseInt(s: string): (r: Num)
    ensures r.NaN? <==>
      var t := s[LeadingSpaces(s)..];
      var u := if t != [] && (t[0] == '-' || t[0] == '+') then t[1..] else t;
      u == [] || !IsDigit(u[0])
  {
    var t := s[LeadingSpaces(s)..];
    var negative := t != [] && t[0] == '-';
    var u := if t != [] && (t[0] == '-' || t[0] == '+') then t[1..] else t;
    var k := DigitRun(u);
    if k == 0 then NaN
    else
      var v: int := DigitsValue(u[..k]);
      Int(if negative then -v else v)
  }

  function DigitChar(d: nat): (c: char)
    requires d < 10
    ensures IsDigit(c) && DigitValue(c) == d
  {
    ('0' as int + d) as char
  }

  /** `String(n)` for a non-negative integer. */
  function NatToDecimal(n: nat): (s: string)
    ensures s != [] && AllDigits(s)
  {
    if n < 10 then [DigitChar(n)] else NatToDecimal(n / 10) + [DigitChar(n % 10)]
  }

  /** `String(n)` for an integer. */
  function IntToDecimal(n: int): (s: string)
    ensures s != []
  {
    if n < 0 then "-" + NatToDecimal(-n) else NatToDecimal(n)
  }

  lemma {:induction false} DecimalValue(n: nat)
    ensures DigitsValue(NatToDecimal(n)) == n
  {
    if n >= 10 {
      var s := NatToDecimal(n);
      assert s[..|s| - 1] == NatToDecimal(n / 10);
      DecimalValue(n / 10);
    }
  }

  /** `parseInt(String(n)) === n`: the decimal rendering of an integer parses back to it. */
  lemma ParseIntOfDecimal(n: int)
    ensures ParseInt(IntToDecimal(n)) == Int(n)
  {
    ParseIntStopsAtNonDigit(n, "");
    assert IntToDecimal(n) + "" == IntToDecimal(n);
  }

  /** `parseInt` skips a leading white-space character: `parseInt("\v12")` is 12. */
  lemma ParseIntSkipsSpace(c: char, n: int)
    requires IsSpace(c)
    ensures ParseInt([c] + IntToDecimal(n)) == Int(n)
  {
    var t := IntToDecimal(n);
    var s := [c] + t;
    ParseIntOfDecimal(n);
    assert !IsSpace(t[0]) by {
      if n < 0 {
        assert t[0] == '-';
      } else {
        assert IsDigit(t[0]);
      }
    }
    assert s[1..] == t;
    assert LeadingSpaces(s) == 1 && s[1..][0..] == t[0..];
  }

  /** `parseInt` reads the number and ignores whatever non-digit text follows it. */
  lemma ParseIntStopsAtNonDigit(n: int, rest: string)
    requires rest == [] || !IsDigit(rest[0])
    ensures ParseInt(IntToDecimal(n) + rest) == Int(n)
  {
    if n < 0 {
      ParseIntOfNegative(-n, rest);
    } else {
      ParseIntOfNatural(n, rest);
    }
  }

  lemma ParseIntOfNatural(m: nat, rest: string)
    requires rest == [] || !IsDigit(rest[0])
    ensures ParseInt(NatToDecimal(m) + rest) == Int(m)
  {
    var ds := NatToDecimal(m);
    var u := ds + rest;
    DecimalValue(m);
    DigitRunOfDigits(ds, rest);
    assert u[..DigitRun(u)] == ds;
    ParseIntOfDigit(u);
  }

  lemma ParseIntOfNegative(m: nat, rest: string)
    requires rest == [] || !IsDigit(rest[0])
    ensures ParseInt("-" + NatToDecimal(m) + rest) == Int(-(m as int))
  {
    var ds := NatToDecimal(m);
    var u := ds + rest;
    DecimalValue(m);
    DigitRunOfDigits(ds, rest);
    assert u[..DigitRun(u)] == ds;
    ParseIntOfMinus(u);
    assert "-" + ds + rest == "-" + u;
  }

  /** Input starting with a digit: no white space, no sign. */
  lemma ParseIntOfDigit(s: string)
    requires s != [] && IsDigit(s[0])
    ensures ParseInt(s) == Int(DigitsValue(s[..DigitRun(s)]))
  {
    assert LeadingSpaces(s) == 0 && s[0..] == s;
  }

  /** A minus followed by input starting with a digit. */
  lemma ParseIntOfMinus(u: string)
    requires u != [] && IsDigit(u[0])
    ensures ParseInt("-" + u) == Int(-(DigitsValue(u[..DigitRun(u)]) as int))
  {
    var s := "-" + u;
    assert LeadingSpaces(s) == 0 && s[0..] == s && s[1..] == u;
  }

  lemma {:induction false} DigitRunOfDigits(ds: string, rest: string)
    requires AllDigits(ds)
    requires rest == [] || !IsDigit(rest[0])
    ensures DigitRun(ds + rest) == |ds|
  {
    if ds != [] {
      assert (ds + rest)[1..] == ds[1..] + rest;
      DigitRunOfDigits(ds[1..], rest);
    }
  }
}
