/**
 * JavaScript numbers and the conversions between numbers and text that the
 * screens rely on: `String(n)`, `Number(s)`, `parseInt(s)`, `parseFloat(s)` and
 * `n.toFixed(2)`.  A finite number is an exact real: the rounding of binary
 * doubles is not modelled.
 */
module JsNumbers {
  import opened Common

  datatype Number = NaN | Finite(x: real) | Infinite(negative: bool)

  // ---------------------------------------------------------------------------
  // Digits

  predicate IsDigit(c: char) { '0' <= c <= '9' }

  /** The value of `c` as a digit in bases up to 36 (`0-9`, then `a-z` or `A-Z`). */
  function CharDigit(c: char): (d: Option<nat>)
    ensures d.Some? ==> d.value < 36
    ensures IsDigit(c) <==> d.Some? && d.value < 10
  {
    if '0' <= c <= '9' then Some(c as int - '0' as int)
    else if 'a' <= c <= 'z' then Some(c as int - 'a' as int + 10)
    else if 'A' <= c <= 'Z' then Some(c as int - 'A' as int + 10)
    else None
  }

  predicate IsRadixDigit(c: char, radix: nat)
  {
    CharDigit(c).Some? && CharDigit(c).value < radix
  }

  predicate AllRadixDigits(s: string, radix: nat)
  {
    forall i | 0 <= i < |s| :: IsRadixDigit(s[i], radix)
  }

  function DigitChar(d: nat): (c: char)
    requires d < 10
    ensures IsDigit(c) && CharDigit(c) == Some(d)
  {
    ('0' as int + d) as char
  }

  /** The value of a string of base-`radix` digits, most significant first. */
  function RadixValue(s: string, radix: nat): nat
    requires AllRadixDigits(s, radix)
  {
    if s == [] then 0
    else RadixValue(s[..|s| - 1], radix) * radix + CharDigit(s[|s| - 1]).value
  }

  /** The longest prefix of `s` made of base-`radix` digits. */
  function DigitRun(s: string, radix: nat): (r: string)
    ensures StartsWith(s, r) && AllRadixDigits(r, radix)
    ensures |r| < |s| ==> !IsRadixDigit(s[|r|], radix)
  {
    if s != [] && IsRadixDigit(s[0], radix) then [s[0]] + DigitRun(s[1..], radix) else []
  }

  /** The decimal digits of `n`, without leading zeros. */
  function NatText(n: nat): (s: string)
    ensures |s| > 0 && AllRadixDigits(s, 10)
    ensures s[0] == '0' ==> n == 0 && |s| == 1
  {
    if n < 10 then [DigitChar(n)] else NatText(n / 10) + [DigitChar(n % 10)]
  }

  /** `String(i)` for an integer. */
  function IntText(i: int): string
  {
    if i < 0 then "-" + NatText(-i) else NatText(i)
  }

  /** Reading back the digits that NatText wrote gives the number. */
  lemma {:induction false} NatTextValue(n: nat)
    ensures RadixValue(NatText(n), 10) == n
  {
    var s := NatText(n);
    if n >= 10 {
      assert s[..|s| - 1] == NatText(n / 10);
      NatTextValue(n / 10);
    }
  }

  /** A string of digits is its own longest digit prefix. */
  lemma {:induction false} DigitRunOfDigits(s: string, rest: string, radix: nat)
    requires AllRadixDigits(s, radix)
    requires rest == [] || !IsRadixDigit(rest[0], radix)
    ensures DigitRun(s + rest, radix) == s
  {
    if s != [] {
      assert (s + rest)[1..] == s[1..] + rest;
      DigitRunOfDigits(s[1..], rest, radix);
    }
  }

  // ---------------------------------------------------------------------------
  // White space, as `trim`, `parseInt`, `parseFloat` and `Number` understand it

  /** WhiteSpace and LineTerminator code points of ECMAScript (StrWhiteSpaceChar). */
  predicate IsJsSpace(c: char)
  {
    c == '\t' || c == '\n' || c == '\U{B}' || c == '\U{C}' || c == '\r' || c == ' '
    || c == '\U{A0}' || c == '\U{1680}' || ('\U{2000}' <= c <= '\U{200A}')
    || c == '\U{2028}' || c == '\U{2029}' || c == '\U{202F}' || c == '\U{205F}'
    || c == '\U{3000}' || c == '\U{FEFF}'
  }

  function TrimStart(s: string): (r: string)
    ensures |r| <= |s| && forall i | 0 <= i < |s| - |r| :: IsJsSpace(s[i])
    ensures r == [] || !IsJsSpace(r[0])
  {
    if s != [] && IsJsSpace(s[0]) then TrimStart(s[1..]) else s
  }

  function TrimEnd(s: string): (r: string)
    ensures StartsWith(s, r)
    ensures r == [] || !IsJsSpace(r[|r| - 1])
  {
    if s != [] && IsJsSpace(s[|s| - 1]) then TrimEnd(s[..|s| - 1]) else s
  }

  /** A leading `+` or `-`: whether the number is negated, and what follows the sign. */
  function SplitSign(s: string): (r: (bool, string))
    ensures r.1 == s || (|s| > 0 && r.1 == s[1..] && (s[0] == '+' || s[0] == '-'))
    ensures r.0 ==> |s| > 0 && s[0] == '-'
  {
    if |s| > 0 && (s[0] == '+' || s[0] == '-') then (s[0] == '-', s[1..]) else (false, s)
  }

  // ---------------------------------------------------------------------------
  // Decimal literals (StrUnsignedDecimalLiteral without `Infinity`)

  function Pow10(n: nat): (r: real)
    ensures r >= 1.0
  {
    if n == 0 then 1.0 else 10.0 * Pow10(n - 1)
  }

  function Scale10(e: int): real
  {
    if e >= 0 then Pow10(e) else 1.0 / Pow10(-e)
  }

  /** The exponent part `e[+-]digits` at the start of `s`: its length and value; (0, 0) when absent. */
  function ExponentPart(s: string): (r: (nat, int))
    ensures r.0 <= |s|
    ensures r.0 > 0 ==> s[0] == 'e' || s[0] == 'E'
  {
    if |s| > 0 && (s[0] == 'e' || s[0] == 'E') then
      var signLen := if |s| > 1 && (s[1] == '+' || s[1] == '-') then 1 else 0;
      var ds := DigitRun(s[1 + signLen..], 10);
      if ds == [] then (0, 0)
      else
        var magnitude := RadixValue(ds, 10) as int;
        (1 + signLen + |ds|, if signLen == 1 && s[1] == '-' then -magnitude else magnitude)
    else (0, 0)
  }

  /** Whether `s` starts like a decimal literal: a digit, or a point followed by a digit. */
  predicate StartsDecimal(s: string)
  {
    |s| > 0 && (IsDigit(s[0]) || (s[0] == '.' && |s| > 1 && IsDigit(s[1])))
  }

  /** The value of `ip.fp` times ten to the power `e`. */
  function DecimalValue(ip: string, fp: string, e: int): (r: real)
    requires AllRadixDigits(ip, 10) && AllRadixDigits(fp, 10)
    ensures r >= 0.0
  {
    var mantissa := RadixValue(ip, 10) as real + RadixValue(fp, 10) as real / Pow10(|fp|);
    assert mantissa >= 0.0;
    var scale := Scale10(e);
    assert scale > 0.0;
    mantissa * scale
  }

  /** The digits before the point of a decimal literal at the start of `s`, and whether a point follows them. */
  function IntegerPart(s: string): (r: (string, bool))
    ensures StartsWith(s, r.0) && AllRadixDigits(r.0, 10)
    ensures r.0 == [] <==> (s == [] || !IsDigit(s[0]))
    ensures r.1 <==> |r.0| < |s| && s[|r.0|] == '.'
  {
    var ip := DigitRun(s, 10);
    (ip, |ip| < |s| && s[|ip|] == '.')
  }

  /**
   * The longest decimal literal (`12`, `12.`, `12.5`, `.5`, `1e3`, `1.5E-2`) at the
   * start of `s`: its length and its value.
   */
  function UnsignedDecimal(s: string): (r: Option<(nat, real)>)
    ensures r.Some? <==> StartsDecimal(s)
    ensures r.Some? ==> 0 < r.value.0 <= |s| && r.value.1 >= 0.0
  {
    var (ip, hasDot) := IntegerPart(s);
    var fp := if hasDot then DigitRun(s[|ip| + 1..], 10) else [];
    assert hasDot ==> (fp == [] <==> (|ip| + 1 == |s| || !IsDigit(s[|ip| + 1])));
    if ip == [] && fp == [] then None
    else
      var mantissaLen := |ip| + (if hasDot then 1 + |fp| else 0);
      var exp := ExponentPart(s[mantissaLen..]);
      Some((mantissaLen + exp.0, DecimalValue(ip, fp, exp.1)))
  }

  // ---------------------------------------------------------------------------
  // Text to number

  /** `parseFloat(s)`: the longest numeric prefix after leading white space; NaN when there is none. */
  function ParseFloat(s: string): (r: Number)
    ensures r.NaN? <==>
      var u := SplitSign(TrimStart(s)).1;
      !StartsWith(u, "Infinity") && !StartsDecimal(u)
    ensures r.Infinite? <==> StartsWith(SplitSign(TrimStart(s)).1, "Infinity")
  {
    var (negative, u) := SplitSign(TrimStart(s));
    if StartsWith(u, "Infinity") then Infinite(negative)
    else match UnsignedDecimal(u)
      case None => NaN
      case Some((_, v)) => Finite(if negative then -v else v)
  }

  /** The radix `parseInt` reads `u` in (16 after `0x` or `0X`, else 10) and the digits it reads. */
  function IntegerDigits(u: string): (r: (nat, string))
    ensures r.0 == 10 || r.0 == 16
    ensures AllRadixDigits(r.1, r.0)
  {
    if |u| >= 2 && u[0] == '0' && (u[1] == 'x' || u[1] == 'X') then (16, DigitRun(u[2..], 16))
    else (10, DigitRun(u, 10))
  }

  /** `parseInt(s)` with no radix: an optional sign, then `0x` and hex digits, or decimal digits. */
  function ParseInt(s: string): (r: Number)
    ensures r.NaN? || r.Finite?
    ensures r.Finite? ==> r.x == r.x.Floor as real
  {
    var (negative, u) := SplitSign(TrimStart(s));
    var (radix, ds) := IntegerDigits(u);
    if ds == [] then NaN
    else
      var v := RadixValue(ds, radix) as int;
      Finite((if negative then -v else v) as real)
  }

  /** parseInt reads the digits NatText writes as one decimal run. */
  lemma IntegerDigitsOfNatText(n: nat)
    ensures IntegerDigits(NatText(n)) == (10, NatText(n))
  {
    var digits := NatText(n);
    assert !(|digits| >= 2 && digits[0] == '0');
    DigitRunOfDigits(digits, [], 10);
    assert digits + [] == digits;
  }

  /** Text that starts with a sign or a digit has no leading white space to trim. */
  lemma TrimStartOfText(s: string)
    requires s != [] && (s[0] == '-' || IsDigit(s[0]))
    ensures TrimStart(s) == s
  {
  }

  /** `parseInt(String(i))` gives `i` back. */
  lemma ParseIntOfIntText(i: int)
    ensures ParseInt(IntText(i)) == Finite(i as real)
  {
    var n: nat := if i < 0 then -i else i;
    var digits := NatText(n);
    var text := IntText(i);
    assert text[0] == '-' || IsDigit(text[0]) by {
      if i >= 0 { assert text == digits; assert IsRadixDigit(digits[0], 10); }
    }
    TrimStartOfText(text);
    var sign := SplitSign(text);
    assert sign == (i < 0, digits) by {
      if i < 0 { assert text[1..] == digits; }
      else { assert IsRadixDigit(digits[0], 10); }
    }
    IntegerDigitsOfNatText(n);
    NatTextValue(n);
    ParseIntOfSplit(text, i < 0, digits);
  }

  /** `parseInt` of unpadded text whose sign is followed by decimal digits only. */
  lemma ParseIntOfSplit(s: string, negative: bool, digits: string)
    requires TrimStart(s) == s && SplitSign(s) == (negative, digits)
    requires digits != [] && AllRadixDigits(digits, 10) && IntegerDigits(digits) == (10, digits)
    ensures var v := RadixValue(digits, 10) as int; ParseInt(s) == Finite((if negative then -v else v) as real)
  {
    var (negative', u) := SplitSign(TrimStart(s));
    assert negative' == negative && u == digits;
    var (radix, ds) := IntegerDigits(u);
    assert radix == 10 && ds == digits;
  }

  /** The radix of a non-decimal integer literal (`0x`, `0o`, `0b`), or 0. */
  function NonDecimalRadix(t: string): nat
  {
    if |t| >= 2 && t[0] == '0' then
      if t[1] == 'x' || t[1] == 'X' then 16
      else if t[1] == 'o' || t[1] == 'O' then 8
      else if t[1] == 'b' || t[1] == 'B' then 2
      else 0
    else 0
  }

  /**
   * `Number(s)`: the whole string, white space trimmed, must be a numeric
   * literal; the empty string is 0.
   */
  function StringToNumber(s: string): (r: Number)
    ensures TrimEnd(TrimStart(s)) == [] ==> r == Finite(0.0)
  {
    var t := TrimEnd(TrimStart(s));
    if t == [] then Finite(0.0)
    else if NonDecimalRadix(t) != 0 then
      var radix := NonDecimalRadix(t);
      if |t| > 2 && AllRadixDigits(t[2..], radix) then Finite(RadixValue(t[2..], radix) as real) else NaN
    else
      var (negative, u) := SplitSign(t);
      if u == "Infinity" then Infinite(negative)
      else match UnsignedDecimal(u)
        case Some((len, v)) =>
          if len == |u| then Finite(if negative then -v else v) else NaN
        case None => NaN
  }

  /** A text that starts with none of the characters a numeric literal can start with converts to NaN. */
  lemma NonNumericText(t: string)
    requires t != [] && !IsJsSpace(t[0]) && !IsJsSpace(t[|t| - 1])
    requires !IsDigit(t[0]) && t[0] !in "+-.I"
    ensures StringToNumber(t).NaN?
  {
    assert TrimStart(t) == t;
    assert TrimEnd(t) == t;
    assert NonDecimalRadix(t) == 0;
    assert SplitSign(t) == (false, t);
    assert t != "Infinity" by { assert "Infinity"[0] == 'I'; }
    assert !StartsDecimal(t);
  }

  // ---------------------------------------------------------------------------
  // Number to text

  /** Up to `fuel` decimal digits of a fraction, stopping when nothing is left. */
  function FractionDigits(f: real, fuel: nat): (s: string)
    requires 0.0 <= f < 1.0
    ensures AllRadixDigits(s, 10)
    decreases fuel
  {
    if fuel == 0 || f == 0.0 then []
    else
      var d := (f * 10.0).Floor;
      [DigitChar(d)] + FractionDigits(f * 10.0 - d as real, fuel - 1)
  }

  /**
   * `String(n)` for a number.  Integers print their digits; other numbers print
   * their exact decimal expansion, cut after 20 fraction digits.
   */
  function NumberToString(n: Number): string
  {
    match n
    case NaN => "NaN"
    case Infinite(negative) => if negative then "-Infinity" else "Infinity"
    case Finite(x) =>
      if x == x.Floor as real then IntText(x.Floor)
      else
        var a := if x < 0.0 then -x else x;
        (if x < 0.0 then "-" else "") + NatText(a.Floor) + "." + FractionDigits(a - a.Floor as real, 20)
  }

  /** A text that starts with `digits` or with "-" and `digits` starts with a digit after its sign. */
  predicate DigitAfterSign(t: string)
  {
    |t| >= 1 && (IsRadixDigit(t[0], 10) || (|t| >= 2 && t[0] == '-' && IsRadixDigit(t[1], 10)))
  }

  lemma SignedDigits(negative: bool, digits: string, rest: string)
    requires |digits| > 0 && AllRadixDigits(digits, 10)
    ensures DigitAfterSign((if negative then "-" else "") + digits + rest)
  {
    var t := (if negative then "-" else "") + digits + rest;
    if negative {
      assert t[1] == digits[0];
    } else {
      assert t[0] == digits[0];
    }
  }

  /** The text of a finite number starts with a digit, or with a minus sign and a digit. */
  lemma NumberTextStart(n: Number)
    requires n.Finite?
    ensures DigitAfterSign(NumberToString(n))
  {
    var x := n.x;
    if x == x.Floor as real {
      var i := x.Floor;
      if i < 0 {
        SignedDigits(true, NatText(-i), "");
        assert NumberToString(n) == "-" + NatText(-i) + "";
      } else {
        SignedDigits(false, NatText(i), "");
        assert NumberToString(n) == "" + NatText(i) + "";
      }
    } else {
      var a := if x < 0.0 then -x else x;
      SignedDigits(x < 0.0, NatText(a.Floor), "." + FractionDigits(a - a.Floor as real, 20));
    }
  }

  /** Two digits, with a leading zero, of a number below 100. */
  function TwoDigits(n: nat): (s: string)
    requires n < 100
    ensures |s| == 2 && AllRadixDigits(s, 10)
  {
    [DigitChar(n / 10), DigitChar(n % 10)]
  }

  /**
   * `n.toFixed(2)`.  A finite number below 10^21 in magnitude is rounded to the
   * nearest hundredth, halves away from zero; larger ones print as String(n).
   */
  function ToFixed2(n: Number): (s: string)
    ensures n.Finite? && -1_000_000_000_000_000_000_000.0 < n.x < 1_000_000_000_000_000_000_000.0 ==>
      |s| >= 4 &&
      var body := if s[0] == '-' then s[1..] else s;
      |body| >= 4 && body[|body| - 3] == '.'
      && AllRadixDigits(body[..|body| - 3], 10) && AllRadixDigits(body[|body| - 2..], 10)
  {
    match n
    case Finite(x) =>
      if x <= -1_000_000_000_000_000_000_000.0 || 1_000_000_000_000_000_000_000.0 <= x then NumberToString(n)
      else
        var a := if x < 0.0 then -x else x;
        var hundredths := (a * 100.0 + 0.5).Floor;
        assert hundredths >= 0;
        var s := NatText(hundredths / 100) + "." + TwoDigits(hundredths % 100);
        if x < 0.0 then "-" + s else s
    case _ => NumberToString(n)
  }

  // ---------------------------------------------------------------------------
  // Relational operators against a numeric constant

  /** `n > k`; every comparison with NaN is false. */
  predicate GreaterThan(n: Number, k: real)
  {
    match n
    case NaN => false
    case Finite(x) => x > k
    case Infinite(negative) => !negative
  }

  /** `n <= k`; every comparison with NaN is false. */
  predicate AtMost(n: Number, k: real)
  {
    match n
    case NaN => false
    case Finite(x) => x <= k
    case Infinite(negative) => negative
  }

  /** `a === b` on numbers. */
  predicate NumberEquals(a: Number, b: Number)
  {
    !a.NaN? && a == b
  }
}
