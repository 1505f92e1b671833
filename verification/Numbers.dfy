/** parse_int32_option over strtol with base 0 (section 7.20.1.4 of ISO C99). */
module Numbers {
  import opened Samples

  const INT32_MIN: int := -0x8000_0000

  /** isspace in the "C" locale. */
  predicate IsSpace(ch: char) {
    ch == ' ' || '\t' <= ch <= '\r'
  }

  /** The value of a letter or digit; 99 for anything else. */
  function Digit(ch: char): nat {
    if '0' <= ch <= '9' then ch as int - '0' as int
    else if 'a' <= ch <= 'z' then ch as int - 'a' as int + 10
    else if 'A' <= ch <= 'Z' then ch as int - 'A' as int + 10
    else 99
  }

  datatype Radix = Octal | Decimal | Hexadecimal

  function Base(r: Radix): nat {
    match r
    case Octal => 8
    case Decimal => 10
    case Hexadecimal => 16
  }

  predicate IsDigit(ch: char, r: Radix) { Digit(ch) < Base(r) }

  /** A digit string read in the radix, each branch a product with a constant. */
  function ValueOf(digits: string, r: Radix): nat {
    if digits == "" then 0
    else
      var high, low := ValueOf(digits[..|digits| - 1], r), Digit(digits[|digits| - 1]);
      match r
      case Octal => 8 * high + low
      case Decimal => 10 * high + low
      case Hexadecimal => 16 * high + low
  }

  // ---- strtol ----------------------------------------------------------------------------

  function SpanSpaces(t: string): (n: nat)
    ensures n <= |t|
  {
    if t == "" || !IsSpace(t[0]) then 0 else 1 + SpanSpaces(t[1..])
  }

  function SpanDigits(t: string, r: Radix): (n: nat)
    ensures n <= |t|
  {
    if t == "" || !IsDigit(t[0], r) then 0 else 1 + SpanDigits(t[1..], r)
  }

  predicate HexPrefix(t: string) {
    |t| >= 3 && t[0] == '0' && (t[1] == 'x' || t[1] == 'X') && IsDigit(t[2], Hexadecimal)
  }

  /** The subject sequence without its sign: the value and the characters used, 0 when there is none. */
  function Unsigned(t: string): (r: (nat, nat))
    ensures r.1 <= |t|
  {
    if HexPrefix(t) then
      var n := SpanDigits(t[2..], Hexadecimal);
      (ValueOf(t[2..2 + n], Hexadecimal), 2 + n)
    else
      var r := if t != "" && t[0] == '0' then Octal else Decimal;
      var n := SpanDigits(t, r);
      (ValueOf(t[..n], r), n)
  }

  /** The mathematical value and the end offset; offset 0 when no conversion is possible. */
  function Convert(text: string): (r: (int, nat))
    ensures r.1 <= |text|
  {
    var k := SpanSpaces(text);
    var signed := k < |text| && (text[k] == '+' || text[k] == '-');
    var start := if signed then k + 1 else k;
    var (v, used) := Unsigned(text[start..]);
    if used == 0 then (0, 0)
    else (if signed && text[k] == '-' then 0 - v else v, start + used)
  }

  /** strtol's result where long reaches longMax: clamped value, end offset, and whether errno is ERANGE. */
  function Strtol(text: string, longMax: nat): (int, nat, bool) {
    var (v, end) := Convert(text);
    if v > longMax then (longMax, end, true)
    else if v < 0 - longMax - 1 then (0 - longMax - 1, end, true)
    else (v, end, false)
  }

  /** parse_int32_option: 0 and the value, or -1. */
  method ParseInt32Option(text: string, min: int, max: int, longMax: nat) returns (rc: int, result: int)
    requires INT32_MIN <= min && max <= INT32_MAX <= longMax
    ensures var r := Int32Of(text, min, max);
            if r.Some? then rc == 0 && result == r.value else rc == -1
  {
    var (value, end, erange) := Strtol(text, longMax);
    result := 0;
    if erange || end == 0 || end != |text| || value < min || value > max {
      return -1, 0;
    }
    return 0, value;
  }

  /** The accepted value; the width of long drops out. */
  function Int32Of(text: string, min: int, max: int): Option<int> {
    var (v, end) := Convert(text);
    if end == 0 || end != |text| || v < min || v > max then None else Some(v)
  }

  // ---- What is accepted ------------------------------------------------------------------

  ghost predicate AllDigits(t: string, r: Radix) {
    forall i :: 0 <= i < |t| ==> IsDigit(t[i], r)
  }

  /** The three notations: hexadecimal, octal, decimal. */
  ghost predicate Numeral(t: string, v: int) {
    || (|t| >= 3 && t[0] == '0' && (t[1] == 'x' || t[1] == 'X') && AllDigits(t[2..], Hexadecimal) && v == ValueOf(t[2..], Hexadecimal))
    || (|t| >= 1 && t[0] == '0' && AllDigits(t, Octal) && v == ValueOf(t, Octal))
    || (|t| >= 1 && t[0] != '0' && AllDigits(t, Decimal) && v == ValueOf(t, Decimal))
  }

  ghost predicate SignedNumeral(t: string, v: int) {
    || Numeral(t, v)
    || (|t| >= 1 && t[0] == '+' && Numeral(t[1..], v))
    || (|t| >= 1 && t[0] == '-' && Numeral(t[1..], -v))
  }

  ghost predicate SpacesThen(text: string, k: nat, v: int) {
    && k <= |text|
    && (forall i :: 0 <= i < k ==> IsSpace(text[i]))
    && SignedNumeral(text[k..], v)
  }

  /** The whole text is white space followed by an optionally signed numeral of value v. */
  ghost predicate Denotes(text: string, v: int) {
    exists k :: SpacesThen(text, k, v)
  }

  lemma {:induction false} SpanDigitsWhole(t: string, r: Radix)
    ensures SpanDigits(t, r) == |t| <==> AllDigits(t, r)
    ensures t != "" && IsDigit(t[0], r) ==> SpanDigits(t, r) > 0
  {
    if t != "" {
      SpanDigitsWhole(t[1..], r);
      if AllDigits(t[1..], r) && IsDigit(t[0], r) {
        forall i | 0 <= i < |t| ensures IsDigit(t[i], r) {
          if i > 0 {
            assert t[i] == t[1..][i - 1];
          }
        }
      }
      if AllDigits(t, r) {
        forall i | 0 <= i < |t[1..]| ensures IsDigit(t[1..][i], r) {
          assert t[1..][i] == t[i + 1];
        }
      }
    }
  }

  lemma {:induction false} SpanSpacesIs(t: string, k: nat)
    requires k <= |t| && forall i :: 0 <= i < k ==> IsSpace(t[i])
    requires k < |t| ==> !IsSpace(t[k])
    ensures SpanSpaces(t) == k
  {
    if k > 0 {
      assert forall i :: 0 <= i < k - 1 ==> t[1..][i] == t[i + 1];
      SpanSpacesIs(t[1..], k - 1);
    }
  }

  lemma {:induction false} SpanSpacesAre(t: string)
    ensures forall i :: 0 <= i < SpanSpaces(t) ==> IsSpace(t[i])
  {
    if t != "" && IsSpace(t[0]) {
      SpanSpacesAre(t[1..]);
      assert forall i :: 0 < i < SpanSpaces(t) ==> t[i] == t[1..][i - 1];
    }
  }

  /** strtol uses a whole non-empty text as a subject exactly when it is a numeral, and computes its value. */
  lemma UnsignedWhole(t: string, v: nat)
    ensures t != "" && Unsigned(t) == (v, |t|) <==> Numeral(t, v)
  {
    SpanDigitsWhole(t, Octal);
    SpanDigitsWhole(t, Decimal);
    if |t| >= 3 {
      SpanDigitsWhole(t[2..], Hexadecimal);
      assert t[2..][0] == t[2];
      if t[0] == '0' && (t[1] == 'x' || t[1] == 'X') {
        assert !IsDigit(t[1], Octal);
        assert !AllDigits(t, Octal);
        assert AllDigits(t[2..], Hexadecimal) ==> IsDigit(t[2..][0], Hexadecimal);
        assert t[2..2 + |t[2..]|] == t[2..];
      }
    }
    assert t[..|t|] == t;
  }

  lemma NumeralStart(t: string, v: int)
    requires Numeral(t, v)
    ensures v >= 0 && t != "" && '0' <= t[0] <= '9'
  {
    if t[0] != '0' {
      assert IsDigit(t[0], Decimal);
    }
  }

  lemma ConvertWhole(text: string, v: int)
    ensures text != "" && Convert(text) == (v, |text|) && Convert(text).1 != 0 <==> Denotes(text, v)
  {
    if Denotes(text, v) {
      var k :| SpacesThen(text, k, v);
      DenotedConverts(text, k, v);
    }
    if Convert(text) == (v, |text|) && |text| != 0 {
      ConvertedDenotes(text, v);
    }
  }

  lemma DenotedConverts(text: string, k: nat, v: int)
    requires SpacesThen(text, k, v)
    ensures text != "" && Convert(text) == (v, |text|)
  {
    if Numeral(text[k..], v) {
      UnsignedConverts(text, k, v);
    } else {
      SignedConverts(text, k, v);
    }
  }

  lemma UnsignedConverts(text: string, k: nat, v: int)
    requires SpacesThen(text, k, v) && Numeral(text[k..], v)
    ensures text != "" && Convert(text) == (v, |text|)
  {
    NumeralStart(text[k..], v);
    SpanSpacesIs(text, k);
    UnsignedWhole(text[k..], v);
  }

  lemma SignedConverts(text: string, k: nat, v: int)
    requires SpacesThen(text, k, v) && !Numeral(text[k..], v)
    ensures text != "" && Convert(text) == (v, |text|)
  {
    var t := text[k..];
    var rest := t[1..];
    assert text[k + 1..] == rest;
    var u := if t[0] == '-' then -v else v;
    NumeralStart(rest, u);
    SpanSpacesIs(text, k);
    UnsignedWhole(rest, u);
  }

  lemma ConvertedDenotes(text: string, v: int)
    requires text != "" && Convert(text) == (v, |text|)
    ensures Denotes(text, v)
  {
    SpanSpacesAre(text);
    var k := SpanSpaces(text);
    var signed := k < |text| && (text[k] == '+' || text[k] == '-');
    var start := if signed then k + 1 else k;
    var rest := text[start..];
    var u := Unsigned(rest).0;
    UnsignedWhole(rest, u);
    if signed {
      assert text[k..][1..] == rest;
    }
    assert SpacesThen(text, k, v);
  }

  /** A value is accepted exactly when the whole text denotes it and it lies in the option's range. */
  lemma AcceptedIff(text: string, min: int, max: int, v: int)
    ensures Int32Of(text, min, max) == Some(v) <==> Denotes(text, v) && min <= v <= max
  {
    ConvertWhole(text, v);
  }

  // ---- What is written is read back ------------------------------------------------------

  const LOWER: string := "0123456789abcdef"
  const UPPER: string := "0123456789ABCDEF"

  /** The character of a digit. */
  function Figure(d: nat, upper: bool): char
    requires d < 16
  {
    if upper then UPPER[d] else LOWER[d]
  }

  /** The digits of n in the radix, without a leading zero. */
  function Shown(n: nat, r: Radix, upper: bool): (t: string)
    ensures |t| >= 1
  {
    var b := Base(r);
    if n < b then [Figure(n, upper)] else Shown(n / b, r, upper) + [Figure(n % b, upper)]
  }

  /** n in one of the three notations. */
  function Written(n: nat, r: Radix, upper: bool): string {
    match r
    case Decimal => Shown(n, Decimal, upper)
    case Octal => "0" + Shown(n, Octal, upper)
    case Hexadecimal => (if upper then "0X" else "0x") + Shown(n, Hexadecimal, upper)
  }

  /** The digits of a radix are the figures below it, in either case, and nothing else. */
  lemma DigitsAreFigures(ch: char, r: Radix)
    ensures IsDigit(ch, r) <==> exists d: nat :: d < Base(r) && (ch == Figure(d, false) || ch == Figure(d, true))
    ensures forall d: nat, upper: bool :: d < 16 ==> Digit(Figure(d, upper)) == d
  {
    if IsDigit(ch, r) {
      assert ch == Figure(Digit(ch), false) || ch == Figure(Digit(ch), true);
    }
  }

  /** White space is the six characters of the "C" locale. */
  lemma SpacesAre(ch: char)
    ensures IsSpace(ch) <==> ch in {' ', '\t', '\n', '\U{0B}', '\U{0C}', '\r'}
  {
    if IsSpace(ch) && ch != ' ' {
      assert 9 <= ch as int <= 13;
    }
  }

  lemma {:induction false} ShownIsRead(n: nat, r: Radix, upper: bool)
    ensures AllDigits(Shown(n, r, upper), r) && ValueOf(Shown(n, r, upper), r) == n
    ensures n > 0 ==> Shown(n, r, upper)[0] != '0'
  {
    var b, t := Base(r), Shown(n, r, upper);
    DigitsAreFigures(t[|t| - 1], r);
    if n < b {
      assert t == [Figure(n, upper)] && t[..0] == "";
    } else {
      ShownIsRead(n / b, r, upper);
      assert t[..|t| - 1] == Shown(n / b, r, upper);
    }
  }

  lemma WrittenIsNumeral(n: nat, r: Radix, upper: bool)
    ensures Numeral(Written(n, r, upper), n)
  {
    var t, w := Shown(n, r, upper), Written(n, r, upper);
    ShownIsRead(n, r, upper);
    match r
    case Decimal =>
      if n == 0 {
        assert t == "0" && t[..0] == "";
      }
    case Octal => LeadingZero(t);
    case Hexadecimal => assert w[2..] == t;
  }

  lemma {:induction false} LeadingZero(t: string)
    requires AllDigits(t, Octal)
    ensures AllDigits("0" + t, Octal) && ValueOf("0" + t, Octal) == ValueOf(t, Octal)
  {
    var z := "0" + t;
    if t == "" {
      assert z[..0] == "" && ValueOf(z, Octal) == 8 * ValueOf(z[..0], Octal) + Digit('0');
    } else {
      LeadingZero(t[..|t| - 1]);
      assert z[..|z| - 1] == "0" + t[..|t| - 1] && z[|z| - 1] == t[|t| - 1];
    }
  }

  /**
   * A number written in decimal, octal or hexadecimal, in either case, with its sign (a plus is optional)
   * and behind any white space, denotes itself, and is read back whatever range holds it.
   */
  lemma WrittenIsRead(spaces: string, v: int, plus: bool, r: Radix, upper: bool, lo: int, hi: int)
    requires forall i :: 0 <= i < |spaces| ==> IsSpace(spaces[i])
    ensures var sign := if v < 0 then "-" else if plus then "+" else "";
            var text := spaces + (sign + Written(if v < 0 then -v else v, r, upper));
            Denotes(text, v) && Int32Of(text, lo, hi) == if lo <= v <= hi then Some(v) else None
  {
    var sign := if v < 0 then "-" else if plus then "+" else "";
    var w := Written(if v < 0 then -v else v, r, upper);
    var text := spaces + (sign + w);
    WrittenIsNumeral(if v < 0 then -v else v, r, upper);
    assert text[|spaces|..] == sign + w;
    if sign != "" {
      assert (sign + w)[1..] == w;
    } else {
      assert sign + w == w;
    }
    assert SpacesThen(text, |spaces|, v);
    AcceptedIff(text, lo, hi, v);
    ConvertWhole(text, v);
  }
}
