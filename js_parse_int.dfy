/**
 * `parseInt(s, 10)` as section 19.2.5 of ECMA-262 specifies it: skip the
 * leading white space, take an optional sign, then the longest run of decimal
 * digits; with no digit at all the result is NaN. Every form and route check of
 * the console goes through it.
 */
module JsParseInt {
  import opened JsString

  /** What `parseInt` returns: NaN, or an integral number (negative zero is read as 0). */
  datatype Number = NaN | Int(value: int)

  predicate IsDigit(c: char) {
    '0' <= c <= '9'
  }

  predicate AllDigits(s: string) {
    forall i :: 0 <= i < |s| ==> IsDigit(s[i])
  }

  function DigitValue(c: char): (d: nat)
    requires IsDigit(c)
    ensures d < 10
  {
    (c as int) - ('0' as int)
  }

  /** The length of the run of decimal digits at the start of `s`. */
  function DigitRun(s: string): (n: nat)
    ensures n <= |s|
    ensures forall i :: 0 <= i < n ==> IsDigit(s[i])
    ensures n < |s| ==> !IsDigit(s[n])
  {
    if s != [] && IsDigit(s[0]) then 1 + DigitRun(s[1..]) else 0
  }

  /** The mathematical value of a string of decimal digits, most significant first. */
  function DigitsValue(d: string): nat
    requires AllDigits(d)
  {
    if d == [] then 0 else 10 * DigitsValue(d[..|d| - 1]) + DigitValue(d[|d| - 1])
  }

  /** The text after the optional sign, once leading white space is gone. */
  function Unsigned(t: string): string {
    if t != [] && (t[0] == '-' || t[0] == '+') then t[1..] else t
  }

  /**
   * `parseInt(s, 10)`: NaN exactly when, past the leading white space, the
   * text neither starts with a digit nor with a sign followed by a digit; a
   * negative result only after a minus sign.
   */
  function ParseInt(s: string): (r: Number)
    ensures var t := TrimStart(s);
      r.NaN? <==> !((t != [] && IsDigit(t[0])) || (|t| >= 2 && (t[0] == '-' || t[0] == '+') && IsDigit(t[1])))
    ensures r.Int? && r.value < 0 ==> TrimStart(s)[0] == '-'
  {
    ParseTrimmed(TrimStart(s))
  }

  /** `parseInt` once the leading white space is gone: sign, then digits. */
  function ParseTrimmed(t: string): Number {
    var u := Unsigned(t);
    var n := DigitRun(u);
    assert AllDigits(u[..n]);
    if n == 0 then NaN
    else if t[0] == '-' then Int(-(DigitsValue(u[..n]) as int))
    else Int(DigitsValue(u[..n]))
  }

  /** The digit run of digits followed by something that is not a digit is exactly those digits. */
  lemma {:induction false} DigitRunOf(d: string, rest: string)
    requires AllDigits(d)
    requires rest == [] || !IsDigit(rest[0])
    ensures DigitRun(d + rest) == |d|
  {
    if d == [] {
      assert d + rest == rest;
    } else {
      assert (d + rest)[0] == d[0] && (d + rest)[1..] == d[1..] + rest;
      DigitRunOf(d[1..], rest);
    }
  }

  /** The optional sign `parseInt` accepts after the white space. */
  datatype Sign = NoSign | Plus | Minus

  function SignText(sign: Sign): string {
    match sign
    case NoSign => ""
    case Plus => "+"
    case Minus => "-"
  }

  /** The value of the digits `d` under `sign`. */
  function Signed(sign: Sign, d: string): int
    requires AllDigits(d)
  {
    if sign == Minus then -(DigitsValue(d) as int) else DigitsValue(d)
  }

  lemma Regroup(a: string, b: string, c: string)
    ensures a + b + c == a + (b + c)
  {
  }

  lemma Regroup4(a: string, b: string, c: string, d: string)
    ensures a + b + c + d == a + (b + c + d)
  {
  }

  /** White space in front of the text does not change what `parseInt` reads. */
  lemma ParseIntSkipsWhitespace(w: string, t: string)
    requires AllWhitespace(w)
    ensures ParseInt(w + t) == ParseInt(t)
  {
    TrimStartSkipsWhitespace(w, t);
  }

  /** Signed digits followed by a non-digit, with no white space in front. */
  lemma SignedDigitsAccepted(sign: Sign, d: string, rest: string)
    requires d != [] && AllDigits(d)
    requires rest == [] || !IsDigit(rest[0])
    ensures ParseInt(SignText(sign) + d + rest) == Int(Signed(sign, d))
  {
    var u := d + rest;
    var t := SignText(sign) + u;
    Regroup(SignText(sign), d, rest);
    match sign
    case NoSign =>
      assert t == u && t[0] == d[0];
      NoLeadingWhitespace(t);
      DigitsAfterSign(t, d, rest);
    case Plus =>
      assert t[0] == '+' && t[1..] == u;
      NoLeadingWhitespace(t);
      DigitsAfterSign(t, d, rest);
    case Minus =>
      assert t[0] == '-' && t[1..] == u;
      NoLeadingWhitespace(t);
      DigitsAfterSign(t, d, rest);
  }

  /** Once the sign is taken, `parseInt` reads exactly the digits `d`. */
  lemma DigitsAfterSign(t: string, d: string, rest: string)
    requires d != [] && AllDigits(d)
    requires rest == [] || !IsDigit(rest[0])
    requires Unsigned(t) == d + rest
    ensures t != [] && ParseTrimmed(t) == Int(if t[0] == '-' then -(DigitsValue(d) as int) else DigitsValue(d))
  {
    DigitRunOf(d, rest);
    assert (d + rest)[..|d|] == d;
  }

  lemma NoLeadingWhitespace(t: string)
    requires t == [] || !IsWhitespace(t[0])
    ensures TrimStart(t) == t
  {
  }

  /**
   * Every string of the form white space, optional sign, one or more digits,
   * then anything not starting with a digit, parses to the signed value of
   * those digits: the trailing text (".5", "abc") is ignored.
   */
  lemma ParseIntAccepts(w: string, sign: Sign, d: string, rest: string)
    requires AllWhitespace(w)
    requires d != [] && AllDigits(d)
    requires rest == [] || !IsDigit(rest[0])
    ensures ParseInt(w + SignText(sign) + d + rest) == Int(Signed(sign, d))
  {
    var t := SignText(sign) + d + rest;
    Regroup4(w, SignText(sign), d, rest);
    ParseIntSkipsWhitespace(w, t);
    SignedDigitsAccepted(sign, d, rest);
  }

  /**
   * A string whose optional sign (after white space) is followed by no digit
   * parses to NaN: "abc", "", "-", "+x".
   */
  lemma ParseIntRejects(w: string, sign: Sign, rest: string)
    requires AllWhitespace(w)
    requires rest == [] || !IsDigit(rest[0])
    requires sign == NoSign && rest != [] ==> !IsWhitespace(rest[0]) && rest[0] != '+' && rest[0] != '-'
    ensures ParseInt(w + SignText(sign) + rest) == NaN
  {
    var t := SignText(sign) + rest;
    Regroup(w, SignText(sign), rest);
    ParseIntSkipsWhitespace(w, t);
    SignedNoDigitsRejected(sign, rest);
  }

  /** A sign followed by no digit, with no white space in front. */
  lemma SignedNoDigitsRejected(sign: Sign, rest: string)
    requires rest == [] || !IsDigit(rest[0])
    requires sign == NoSign && rest != [] ==> !IsWhitespace(rest[0]) && rest[0] != '+' && rest[0] != '-'
    ensures ParseInt(SignText(sign) + rest) == NaN
  {
    var t := SignText(sign) + rest;
    match sign
    case NoSign =>
      assert t == rest;
      NoLeadingWhitespace(t);
      NoDigitsAfterSign(t, rest);
    case Plus =>
      assert t[0] == '+' && t[1..] == rest;
      NoLeadingWhitespace(t);
      NoDigitsAfterSign(t, rest);
    case Minus =>
      assert t[0] == '-' && t[1..] == rest;
      NoLeadingWhitespace(t);
      NoDigitsAfterSign(t, rest);
  }

  /** Once the sign is taken, no digit means NaN. */
  lemma NoDigitsAfterSign(t: string, rest: string)
    requires rest == [] || !IsDigit(rest[0])
    requires Unsigned(t) == rest
    ensures ParseTrimmed(t) == NaN
  {
  }

  /** Reading back the digits `String(n)` writes gives `n` again. */
  lemma {:induction false} DigitsValueOfNatToString(n: nat)
    ensures AllDigits(NatToString(n)) && DigitsValue(NatToString(n)) == n
  {
    if n >= 10 {
      DigitsValueOfNatToString(n / 10);
      var d := NatToString(n);
      assert d[..|d| - 1] == NatToString(n / 10);
    }
  }

  /** `parseInt(String(n), 10) === n`: the decimal rendering of an integer round-trips. */
  lemma ParseIntOfIntToString(n: int)
    ensures ParseInt(IntToString(n)) == Int(n)
  {
    var m := if n < 0 then -n else n;
    DigitsValueOfNatToString(m);
    var d := NatToString(m);
    var sign := if n < 0 then Minus else NoSign;
    SignedDigitsAccepted(sign, d, []);
    assert SignText(sign) + d + [] == IntToString(n) by {
      assert d + [] == d;
      if n < 0 {
        assert IntToString(n) == SignText(sign) + d;
      } else {
        assert SignText(sign) + d == d;
      }
    }
  }
}
