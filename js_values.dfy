/**
 * The JavaScript values the NEM12 reader handles: optional values (`undefined`
 * and `null`), numbers produced by `Number(...)` and the decimal text of small
 * integers.
 */
module JsValues {

  /** `None` stands for JavaScript's `undefined` or `null`. */
  datatype Option<+T> = None | Some(value: T)

  datatype Result<+T, +E> = Ok(value: T) | Err(error: E)

  /**
   * A JavaScript number as the model needs it: NaN, negative zero, or a
   * finite value (`Num(0.0)` is positive zero). The sign of zero matters
   * where a number divides another.
   */
  datatype JsNumber = NaN | NegZero | Num(value: real)

  /** JavaScript truthiness of a number: `0`, `-0` and `NaN` are falsy. */
  predicate Truthy(n: JsNumber) {
    n.Num? && n.value != 0.0
  }

  /** The value of a number that is not NaN, as comparisons and sums see it: `-0` is 0. */
  function RealOf(n: JsNumber): real
    requires !n.NaN?
  {
    if n.NegZero? then 0.0 else n.value
  }

  predicate IsDigit(c: char) {
    '0' <= c <= '9'
  }

  predicate AllDigits(s: string) {
    forall i :: 0 <= i < |s| ==> IsDigit(s[i])
  }

  function DigitValue(c: char): (d: nat)
    requires IsDigit(c)
    ensures d < 10
  {
    (c as int) - ('0' as int)
  }

  function DigitChar(d: nat): (c: char)
    requires d < 10
    ensures IsDigit(c) && DigitValue(c) == d
  {
    (('0' as int) + d) as char
  }

  /** The value of a string of decimal digits, most significant first. */
  function DigitsValue(s: string): nat
    requires AllDigits(s)
  {
    if s == [] then 0 else DigitsValue(s[..|s| - 1]) * 10 + DigitValue(s[|s| - 1])
  }

  function Pow10(k: nat): (p: nat)
    ensures p >= 1
  {
    if k == 0 then 1 else 10 * Pow10(k - 1)
  }

  /**
   * `n.toString()` for a non-negative integer: its shortest decimal text.
   */
  function NatString(n: nat): (s: string)
    ensures |s| >= 1 && AllDigits(s)
    ensures |s| > 1 ==> s[0] != '0'
  {
    if n < 10 then [DigitChar(n)] else NatString(n / 10) + [DigitChar(n % 10)]
  }

  lemma {:induction false} NatStringValue(n: nat)
    ensures DigitsValue(NatString(n)) == n
  {
    if n >= 10 {
      var s := NatString(n);
      assert s[..|s| - 1] == NatString(n / 10);
      NatStringValue(n / 10);
    }
  }

  /** Leading zeros do not change the value of a digit string. */
  lemma {:induction false} LeadingZerosValue(z: nat, s: string)
    requires AllDigits(s)
    ensures AllDigits(seq(z, _ => '0') + s)
    ensures DigitsValue(seq(z, _ => '0') + s) == DigitsValue(s)
  {
    var t := seq(z, _ => '0') + s;
    assert forall i :: 0 <= i < |t| ==> IsDigit(t[i]) by {
      forall i | 0 <= i < |t| ensures IsDigit(t[i]) {
        if i >= z { assert t[i] == s[i - z]; }
      }
    }
    if s == [] {
      ZerosValue(z);
      assert t == seq(z, _ => '0');
    } else {
      var s' := s[..|s| - 1];
      assert t[..|t| - 1] == seq(z, _ => '0') + s';
      LeadingZerosValue(z, s');
    }
  }

  lemma {:induction false} ZerosValue(z: nat)
    ensures AllDigits(seq(z, _ => '0'))
    ensures DigitsValue(seq(z, _ => '0')) == 0
  {
    if z > 0 {
      assert seq(z, _ => '0')[..z - 1] == seq(z - 1, _ => '0');
      ZerosValue(z - 1);
    }
  }

  /** The position of the first `.` in `s`, or `|s|` when there is none. */
  function DotIndex(s: string): (k: nat)
    ensures k <= |s|
    ensures forall i :: 0 <= i < k ==> s[i] != '.'
    ensures k < |s| ==> s[k] == '.'
  {
    if s == [] then 0 else if s[0] == '.' then 0 else 1 + DotIndex(s[1..])
  }

  /**
   * An unsigned decimal numeral `ddd`, `ddd.ddd`, `ddd.` or `.ddd`, with at
   * least one digit; `None` for any other text.
   */
  function UnsignedDecimal(s: string): Option<real> {
    var k := DotIndex(s);
    var whole := s[..k];
    var frac := if k < |s| then s[k + 1..] else "";
    if AllDigits(whole) && AllDigits(frac) && |whole| + |frac| > 0 then
      Some(DigitsValue(whole) as real + FractionValue(frac))
    else
      None
  }

  /** The value of the digits after a decimal point. */
  function FractionValue(frac: string): (v: real)
    requires AllDigits(frac)
    ensures frac == "" ==> v == 0.0
  {
    if frac == "" then 0.0 else DigitsValue(frac) as real / Pow10(|frac|) as real
  }

  /**
   * JavaScript `Number(s)` for the decimal numerals NEM12 files carry: the
   * empty string is 0, an optional sign precedes an unsigned decimal numeral
   * (a zero numeral after `-` is `-0`), and any other text is NaN.
   */
  function ToNumber(s: string): JsNumber {
    if s == "" then Num(0.0)
    else
      var unsigned := if s[0] == '-' || s[0] == '+' then s[1..] else s;
      match UnsignedDecimal(unsigned)
      case None => NaN
      case Some(v) => if s[0] == '-' then (if v == 0.0 then NegZero else Num(-v)) else Num(v)
  }

  /** `Number(x)` of a field: an empty field is `undefined`, which is NaN. */
  function NumberOf(f: Option<string>): JsNumber {
    match f
    case None => NaN
    case Some(s) => ToNumber(s)
  }

  /** Decimal text of a natural number reads back as that number; `-0` is negative zero. */
  lemma NatStringToNumber(n: nat)
    ensures ToNumber(NatString(n)) == Num(n as real)
    ensures ToNumber("-" + NatString(n)) == if n == 0 then NegZero else Num(-(n as real))
  {
    var s := NatString(n);
    UnsignedDigits(s);
    NatStringValue(n);
    assert IsDigit(s[0]);
    assert ("-" + s)[1..] == s;
  }

  /** A digit string is an unsigned numeral with its own value. */
  lemma UnsignedDigits(s: string)
    requires AllDigits(s) && |s| > 0
    ensures UnsignedDecimal(s) == Some(DigitsValue(s) as real)
  {
    NoDotInDigits(s);
    var k := DotIndex(s);
    assert s[..k] == s;
  }

  lemma NoDotInDigits(s: string)
    requires AllDigits(s)
    ensures DotIndex(s) == |s|
  {
  }

  /** A reading with a fraction is read as a decimal. */
  lemma ToNumberDecimal()
    ensures ToNumber("12.5") == Num(12.5)
  {
    assert DotIndex("12.5") == 2;
    assert "12.5"[..2] == "12";
    assert "12.5"[3..] == "5";
    assert DigitsValue("12") == 12 by { assert "12"[..1] == "1"; }
  }

  /** A sign and a bare fraction are accepted. */
  lemma ToNumberSigned()
    ensures ToNumber("-.5") == Num(-0.5)
  {
    assert ("-.5")[1..] == ".5";
    assert DotIndex(".5") == 0;
    assert ".5"[1..] == "5";
  }

  /** Every spelling of zero after `-` is negative zero; after `+` it is zero. */
  lemma ToNumberSignedZero()
    ensures ToNumber("-0") == NegZero
    ensures ToNumber("-00") == NegZero
    ensures ToNumber("-0.0") == NegZero
    ensures ToNumber("+0") == Num(0.0)
  {
    assert ("-0")[1..] == "0";
    assert ("-00")[1..] == "00";
    assert DigitsValue("00") == 0 by { assert "00"[..1] == "0"; }
    assert ("-0.0")[1..] == "0.0";
    assert DotIndex("0.0") == 1;
    assert "0.0"[..1] == "0";
    assert "0.0"[2..] == "0";
    assert ("+0")[1..] == "0";
  }

  /** Text that is not a numeral is NaN, never a silent zero; empty text is zero. */
  lemma ToNumberNotNumeral()
    ensures ToNumber("") == Num(0.0)
    ensures ToNumber("A") == NaN
    ensures ToNumber("1.2.3") == NaN
    ensures NumberOf(None) == NaN
  {
    assert DotIndex("1.2.3") == 1;
    assert "1.2.3"[2..] == "2.3";
    assert !AllDigits("2.3") by { assert "2.3"[1] == '.'; }
  }
}
