/** The two ECMAScript number parsers the core calls, `parseInt(string)`
    (no radix argument) and `parseFloat(string)`, over a number type that
    keeps NaN and the infinities apart from the finite values. Finite
    values are exact reals: the rounding of an IEEE double is not modelled. */
module JsNumbers {
  import opened Wrappers
  import opened JsText

  datatype Number = NaN | Finite(value: real) | PosInfinity | NegInfinity

  /** `n < c` for a constant `c`: false whenever `n` is NaN. */
  predicate LessThan(n: Number, c: real) {
    match n
    case Finite(x) => x < c
    case NegInfinity => true
    case _ => false
  }

  /** `n > c` for a constant `c`: false whenever `n` is NaN. */
  predicate GreaterThan(n: Number, c: real) {
    match n
    case Finite(x) => x > c
    case PosInfinity => true
    case _ => false
  }

  /** A digit of radix 10 or 16 (either case for the letters). */
  predicate IsDigit(c: char, radix: nat) {
    if radix == 16 then
      ('0' <= c <= '9') || ('a' <= c <= 'f') || ('A' <= c <= 'F')
    else
      '0' <= c <= '9'
  }

  predicate AllDigits(s: string, radix: nat) {
    forall k :: 0 <= k < |s| ==> IsDigit(s[k], radix)
  }

  function DigitValue(c: char, radix: nat): (d: nat)
    requires IsDigit(c, radix)
    ensures d < (if radix == 16 then 16 else 10)
  {
    if '0' <= c <= '9' then (c - '0') as nat
    else if 'a' <= c <= 'f' then (c - 'a') as nat + 10
    else (c - 'A') as nat + 10
  }

  /** The length of the longest prefix of `s` made of digits of `radix`. */
  function DigitRun(s: string, radix: nat): (n: nat)
    ensures n <= |s|
    ensures AllDigits(s[..n], radix)
    ensures n < |s| ==> !IsDigit(s[n], radix)
  {
    if s != [] && IsDigit(s[0], radix) then
      var n := 1 + DigitRun(s[1..], radix);
      assert s[..n] == [s[0]] + s[1..][..n - 1];
      n
    else 0
  }

  /** The value of a digit string, most significant digit first. */
  function DigitsValue(s: string, radix: nat): nat
    requires AllDigits(s, radix)
  {
    if s == [] then 0
    else if radix == 16 then DigitsValue(s[..|s| - 1], radix) * 16 + DigitValue(s[|s| - 1], radix)
    else DigitsValue(s[..|s| - 1], radix) * 10 + DigitValue(s[|s| - 1], radix)
  }

  /** The sign and the body that follows it, as both parsers read them. */
  function SignOf(t: string): int {
    if t != [] && t[0] == '-' then -1 else 1
  }

  function Unsigned(t: string): string {
    if t != [] && (t[0] == '+' || t[0] == '-') then t[1..] else t
  }

  /** parseInt(s) with the radix left undefined: leading white space is
      skipped, one sign is read, a "0x"/"0X" prefix selects radix 16, and
      the longest run of digits that follows is the value; no digit at all
      gives NaN (None). */
  function ParseInt(s: string): Option<int> {
    ParseIntTrimmed(TrimStart(s))
  }

  /** parseInt once the leading white space is gone. */
  function ParseIntTrimmed(t: string): Option<int> {
    match ParseMagnitude(Unsigned(t))
    case None => None
    case Some(v) => Some(SignOf(t) * v)
  }

  /** The unsigned part of parseInt: the "0x"/"0X" prefix and the digit run. */
  function ParseMagnitude(u: string): Option<nat> {
    var hex := |u| >= 2 && u[0] == '0' && (u[1] == 'x' || u[1] == 'X');
    var radix := if hex then 16 else 10;
    var body := if hex then u[2..] else u;
    var n := DigitRun(body, radix);
    if n == 0 then None else Some(DigitsValue(body[..n], radix))
  }

  function Pow10(k: nat): (p: nat)
    ensures p >= 1
  {
    if k == 0 then 1 else 10 * Pow10(k - 1)
  }

  /** 10 raised to an integer power, as an exact real. */
  function Scale(e: int): real {
    if e >= 0 then Pow10(e) as real else 1.0 / Pow10(-e) as real
  }

  /** The exponent part at the head of `s` (e or E, an optional sign and at
      least one digit) and its length; (0, 0) when `s` does not start with
      a complete exponent part, which parseFloat then leaves unread. */
  function ExponentPart(s: string): (r: (int, nat))
    ensures r.1 <= |s|
  {
    if s == [] || (s[0] != 'e' && s[0] != 'E') then (0, 0)
    else
      var t := s[1..];
      var sign := if t != [] && t[0] == '-' then -1 else 1;
      var signLen := if t != [] && (t[0] == '+' || t[0] == '-') then 1 else 0;
      var n := DigitRun(t[signLen..], 10);
      if n == 0 then (0, 0)
      else (sign * DigitsValue(t[signLen..][..n], 10), 1 + signLen + n)
  }

  /** parseFloat(s): leading white space is skipped and the longest prefix
      that is a StrDecimalLiteral is read: an optional sign, then either
      "Infinity" or digits with an optional fraction and an optional
      exponent, at least one digit before or after the point. No such
      prefix gives NaN. */
  function ParseFloat(s: string): Number {
    ParseFloatTrimmed(TrimStart(s))
  }

  /** parseFloat once the leading white space is gone. */
  function ParseFloatTrimmed(t: string): Number {
    var u := Unsigned(t);
    if |u| >= 8 && u[..8] == "Infinity" then
      (if SignOf(t) < 0 then NegInfinity else PosInfinity)
    else
      match ParseUnsignedDecimal(u)
      case None => NaN
      case Some(v) => Finite(SignOf(t) as real * v)
  }

  /** The unsigned finite part of parseFloat: integer digits, an optional
      point and fraction digits, and an optional exponent part. */
  function ParseUnsignedDecimal(u: string): Option<real> {
    var i := DigitRun(u, 10);
    if i < |u| && u[i] == '.' then
      var f := DigitRun(u[i + 1..], 10);
      if i == 0 && f == 0 then None
      else Some(DecimalValue(u[..i] + u[i + 1..][..f], f, u[i + 1 + f..]))
    else if i == 0 then None
    else Some(DecimalValue(u[..i], 0, u[i..]))
  }

  /** The value of the digits read, `f` of them after the point, scaled by
      the exponent part at the head of `rest` (if there is one). */
  function DecimalValue(digits: string, f: nat, rest: string): real
    requires AllDigits(digits, 10)
  {
    DigitsValue(digits, 10) as real * Scale(ExponentPart(rest).0 - f)
  }

  // ----- Decimal rendering, the inverse the parsers are checked against -----

  function DigitChar(d: nat): (c: char)
    requires d < 10
    ensures IsDigit(c, 10) && DigitValue(c, 10) == d
  {
    ('0' as int + d) as char
  }

  /** The decimal numeral of a natural number, without leading zeros. */
  function NatString(n: nat): (s: string)
    ensures s != [] && AllDigits(s, 10)
    ensures n > 0 ==> s[0] != '0'
  {
    if n < 10 then [DigitChar(n)] else NatString(n / 10) + [DigitChar(n % 10)]
  }

  /** The decimal numeral of an integer, with a '-' for a negative one. */
  function DecimalString(n: int): string {
    if n < 0 then "-" + NatString(-n) else NatString(n)
  }

  lemma {:induction false} NatStringValue(n: nat)
    ensures DigitsValue(NatString(n), 10) == n
  {
    var s := NatString(n);
    if n >= 10 {
      assert s[..|s| - 1] == NatString(n / 10);
      NatStringValue(n / 10);
    }
  }

  /** The digit run of a digit string followed by a non-digit is that string. */
  lemma {:induction false} DigitRunOfDigits(x: string, t: string)
    requires AllDigits(x, 10)
    requires t == [] || !IsDigit(t[0], 10)
    ensures DigitRun(x + t, 10) == |x|
    ensures (x + t)[..|x|] == x
  {
    if x == [] {
      assert x + t == t;
    } else {
      assert (x + t)[0] == x[0];
      assert (x + t)[1..] == x[1..] + t;
      assert AllDigits(x[1..], 10) by {
        forall k | 0 <= k < |x| - 1 ensures IsDigit(x[1..][k], 10) {
          assert x[1..][k] == x[k + 1];
        }
      }
      DigitRunOfDigits(x[1..], t);
    }
  }

  /** A numeral starts with '-' or a digit, so no white space is skipped. */
  lemma NumeralNotTrimmed(n: int, t: string)
    ensures TrimStart(DecimalString(n) + t) == DecimalString(n) + t
  {
  }

  /** The sign of a numeral and the digits after it. */
  lemma NumeralSign(n: int, t: string)
    ensures SignOf(DecimalString(n) + t) * (if n < 0 then -n else n) == n
    ensures Unsigned(DecimalString(n) + t) == NatString(if n < 0 then -n else n) + t
  {
  }

  lemma ParseMagnitudeNumeral(m: nat, t: string)
    requires t == [] || (!IsDigit(t[0], 10) && (m != 0 || (t[0] != 'x' && t[0] != 'X')))
    ensures ParseMagnitude(NatString(m) + t) == Some(m)
  {
    var a := NatString(m);
    var u := a + t;
    assert !(|u| >= 2 && u[0] == '0' && (u[1] == 'x' || u[1] == 'X')) by {
      assert u[0] == a[0];
      if |a| < 2 && m == 0 && |u| >= 2 {
        assert u[1] == t[0];
      } else if |a| >= 2 {
        assert u[1] == a[1];
      }
    }
    DigitRunOfDigits(NatString(m), t);
    NatStringValue(m);
  }

  /** parseInt reads back the decimal numeral of any integer, and stops at
      the first character that is not a digit: parseInt("12abc") == 12 and
      parseInt("1e3") == 1. The one exception is a lone "0" followed by x or
      X, which parseInt reads as a hexadecimal prefix. */
  lemma ParseIntDecimal(n: int, t: string)
    requires t == [] || (!IsDigit(t[0], 10) && (n != 0 || (t[0] != 'x' && t[0] != 'X')))
    ensures ParseInt(DecimalString(n) + t) == Some(n)
  {
    NumeralNotTrimmed(n, t);
    NumeralSign(n, t);
    ParseMagnitudeNumeral(if n < 0 then -n else n, t);
  }

  lemma ParseUnsignedDecimalNumeral(m: nat)
    ensures ParseUnsignedDecimal(NatString(m)) == Some(m as real)
  {
    var a := NatString(m);
    DigitRunOfDigits(NatString(m), []);
    assert a + [] == a;
    NatStringValue(m);
    assert a[|a|..] == [];
    assert a[..|a|] == a;
  }

  /** parseFloat reads back the decimal numeral of any integer. */
  lemma ParseFloatDecimal(n: int)
    ensures ParseFloat(DecimalString(n)) == Finite(n as real)
  {
    var m := if n < 0 then -n else n;
    var s := DecimalString(n);
    assert s + [] == s;
    NumeralNotTrimmed(n, []);
    NumeralSign(n, []);
    var u := Unsigned(s);
    assert u == NatString(m);
    assert !(|u| >= 8 && u[..8] == "Infinity") by {
      assert IsDigit(u[0], 10);
    }
    ParseUnsignedDecimalNumeral(m);
  }

  /** Leading white space never changes what either parser reads. */
  lemma ParsersSkipWhiteSpace(w: string, s: string)
    requires AllWhiteSpace(w)
    ensures ParseInt(w + s) == ParseInt(s)
    ensures ParseFloat(w + s) == ParseFloat(s)
  {
    TrimStartSkips(w, s);
  }

  lemma {:induction false} TrimStartSkips(w: string, s: string)
    requires AllWhiteSpace(w)
    ensures TrimStart(w + s) == TrimStart(s)
  {
    if w == [] {
      assert w + s == s;
    } else {
      assert (w + s)[0] == w[0] && IsWhiteSpace(w[0]);
      assert (w + s)[1..] == w[1..] + s;
      assert AllWhiteSpace(w[1..]) by {
        forall k | 0 <= k < |w| - 1 ensures IsWhiteSpace(w[1..][k]) {
          assert w[1..][k] == w[k + 1];
        }
      }
      TrimStartSkips(w[1..], s);
    }
  }
}
