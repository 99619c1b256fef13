/** JavaScript numbers as the application uses them: `parseFloat`, `isNaN`, `String(x)` and
    `toLocaleString('id-ID', ...)` (grouping with '.', decimal mark ',', rounding half away from zero). */
module Numbers {
  import opened Strings

  /** A JavaScript number. Amounts are exact reals here; infinities are not modelled. */
  datatype Num = Finite(value: real) | NaN

  /** `isNaN(x) ? 0 : x`. */
  function NaNToZero(n: Num): (r: real)
    ensures n.Finite? ==> r == n.value
    ensures n.NaN? ==> r == 0.0
  {
    match n
    case NaN => 0.0
    case Finite(v) => v
  }

  /** `x || 0` applied to a number: NaN (and zero) become zero. */
  function OrZero(n: Num): real {
    NaNToZero(n)
  }

  /** The longest prefix of `s` made of decimal digits. */
  function DigitPrefix(s: string): (r: string)
    ensures |r| <= |s| && r == s[..|r|] && AllChars(r, IsDigit)
    ensures |r| < |s| ==> !IsDigit(s[|r|])
  {
    if s != [] && IsDigit(s[0]) then [s[0]] + DigitPrefix(s[1..]) else []
  }

  /** An exponent part (`e`, an optional sign, digits) at the start of `s`, if there is one. */
  function ExponentPrefix(s: string): Option<int> {
    if s == [] || (s[0] != 'e' && s[0] != 'E') then None
    else
      var rest := s[1..];
      var negative := rest != [] && rest[0] == '-';
      var body := if rest != [] && (rest[0] == '+' || rest[0] == '-') then rest[1..] else rest;
      var digits := DigitPrefix(body);
      if digits == [] then None
      else Some(if negative then -(DigitsValue(digits) as int) else DigitsValue(digits))
  }

  /** Ten to the power `e`. */
  function Scale(e: int): (r: real)
    ensures r > 0.0
  {
    if e >= 0 then Pow10(e) as real else 1.0 / Pow10(-e) as real
  }

  /** `parseFloat(s)`: skips leading white space, then reads an optional sign and the longest
      decimal literal at the start; NaN when there is none. */
  function ParseFloat(s: string): Num {
    var t := TrimStart(s);
    var negative := t != [] && t[0] == '-';
    var u := if t != [] && (t[0] == '+' || t[0] == '-') then t[1..] else t;
    match DecimalLiteral(u)
    case None => NaN
    case Some(m) => Finite(if negative then -m else m)
  }

  /** The value of the longest unsigned decimal literal at the start of `u` (digits, an optional
      point and fraction, an optional exponent), if it holds at least one digit before or after
      the point. */
  function DecimalLiteral(u: string): Option<real> {
    var intDigits := DigitPrefix(u);
    var afterInt := u[|intDigits|..];
    var hasPoint := afterInt != [] && afterInt[0] == '.';
    var fracDigits := if hasPoint then DigitPrefix(afterInt[1..]) else [];
    if intDigits == [] && fracDigits == [] then None
    else
      var afterFrac := if hasPoint then afterInt[1 + |fracDigits|..] else afterInt;
      var mantissa := DigitsValue(intDigits) as real
                      + DigitsValue(fracDigits) as real / Pow10(|fracDigits|) as real;
      Some(match ExponentPrefix(afterFrac)
           case None => mantissa
           case Some(e) => mantissa * Scale(e))
  }

  lemma {:induction false} DigitPrefixOfDigits(s: string)
    requires AllChars(s, IsDigit)
    ensures DigitPrefix(s) == s
  {
    if s != [] {
      DigitPrefixOfDigits(s[1..]);
    }
  }

  /** A string of digits is one whole literal. */
  lemma LiteralOfDigits(d: string)
    requires d != [] && AllChars(d, IsDigit)
    ensures DecimalLiteral(d) == Some(DigitsValue(d) as real)
  {
    DigitPrefixOfDigits(d);
    assert d[|d|..] == [];
  }

  /** Text that starts with a digit is read by `parseFloat` as its leading literal, unsigned. */
  lemma ParseFloatOfLeadingDigit(u: string)
    requires u != [] && IsDigit(u[0])
    ensures DecimalLiteral(u).Some? && ParseFloat(u) == Finite(DecimalLiteral(u).value)
  {
    assert !IsSpace(u[0]);
    assert TrimStart(u) == u;
    assert DigitPrefix(u) != [];
  }

  /** `parseFloat` reads a non-empty string of digits as the number it denotes. */
  lemma ParseFloatOfDigits(d: string)
    requires d != [] && AllChars(d, IsDigit)
    ensures ParseFloat(d) == Finite(DigitsValue(d) as real)
  {
    ParseFloatOfLeadingDigit(d);
    LiteralOfDigits(d);
  }

  /** `parseFloat` reads back the digits `String(n)` writes. */
  lemma ParseFloatOfNatString(n: nat)
    ensures ParseFloat(NatToString(n)) == Finite(n as real)
  {
    NatToStringRoundTrip(n);
    ParseFloatOfDigits(NatToString(n));
  }

  /** Text without digits holds no literal. */
  lemma LiteralWithoutDigits(u: string)
    requires forall i :: 0 <= i < |u| ==> !IsDigit(u[i])
    ensures DecimalLiteral(u) == None
  {
    assert DigitPrefix(u) == [];
    assert u[0..] == u;
    if u != [] && u[0] == '.' {
      assert DigitPrefix(u[1..]) == [] by {
        assert u[1..] != [] ==> !IsDigit(u[1..][0]);
      }
    }
  }

  /** A string without any digit is not a number to `parseFloat`. */
  lemma ParseFloatWithoutDigits(s: string)
    requires forall i :: 0 <= i < |s| ==> !IsDigit(s[i])
    ensures ParseFloat(s) == NaN
  {
    var t := TrimStart(s);
    var u := if t != [] && (t[0] == '+' || t[0] == '-') then t[1..] else t;
    assert forall i :: 0 <= i < |u| ==> !IsDigit(u[i]);
    LiteralWithoutDigits(u);
  }

  /** The three-digit group `String(n).padStart(3, '0')`. */
  function Pad3(n: nat): (r: string)
    requires n < 1000
    ensures |r| == 3 && AllChars(r, IsDigit) && DigitsValue(r) == n
  {
    NatToStringRoundTrip(n);
    PadStartZerosValue(NatToString(n), 3);
    assert |NatToString(n)| <= 3 by {
      if n >= 10 { assert NatToString(n) == NatToString(n / 10) + [DigitChar(n % 10)]; }
    }
    PadStart(NatToString(n), 3, '0')
  }

  /** The integer digits of `n` with `sep` between groups of three, from the right. */
  function Grouped(n: nat, sep: string): string {
    if n < 1000 then NatToString(n) else Grouped(n / 1000, sep) + sep + Pad3(n % 1000)
  }

  predicate IsDigitOrDot(c: char) { IsDigit(c) || c == '.' }
  predicate IsNotDot(c: char) { c != '.' }

  /** id-ID grouping uses only digits and '.', so it holds no decimal comma. */
  lemma {:induction false} GroupedDigitsAndDots(n: nat)
    ensures AllChars(Grouped(n, "."), IsDigitOrDot)
  {
    if n >= 1000 {
      GroupedDigitsAndDots(n / 1000);
    }
  }

  /** Deleting the '.' separators from the id-ID grouping of `n` leaves digits that read back as `n`. */
  lemma {:induction false} GroupedRoundTrip(n: nat)
    ensures AllChars(Filter(Grouped(n, "."), IsNotDot), IsDigit)
    ensures DigitsValue(Filter(Grouped(n, "."), IsNotDot)) == n
  {
    if n < 1000 {
      NatToStringRoundTrip(n);
      FilterKeepsAll(NatToString(n), IsNotDot);
    } else {
      var hi := Grouped(n / 1000, ".");
      var lo := Pad3(n % 1000);
      GroupedRoundTrip(n / 1000);
      DropGroupDot(hi, lo);
      var hd := Filter(hi, IsNotDot);
      DigitsValueAppend(hd, lo);
      assert Pow10(3) == 1000;
    }
  }

  /** Deleting the dots from "hi.lo" where `lo` is digits keeps the digits of `hi` and then `lo`. */
  lemma DropGroupDot(hi: string, lo: string)
    requires AllChars(lo, IsDigit)
    ensures Filter(hi + "." + lo, IsNotDot) == Filter(hi, IsNotDot) + lo
  {
    assert AllChars(lo, IsNotDot);
    DropSeparator(hi, '.', lo, IsNotDot);
  }

  /** Filtering out a separator between two parts, the second kept whole. */
  lemma DropSeparator(a: string, sep: char, b: string, p: char -> bool)
    requires !p(sep) && AllChars(b, p)
    ensures Filter(a + [sep] + b, p) == Filter(a, p) + b
  {
    var x := a + [sep];
    FilterAppend(x, b, p);
    FilterAppend(a, [sep], p);
    FilterKeepsAll(b, p);
    assert [sep][1..] == [];
    assert Filter([sep], p) == [];
    assert Filter(a, p) + [] == Filter(a, p);
  }

  /** `s` without its trailing '0' characters. */
  function StripTrailingZeros(s: string): (r: string)
    ensures |r| <= |s| && r == s[..|r|]
    ensures r == [] || r[|r| - 1] != '0'
  {
    if s != [] && s[|s| - 1] == '0' then StripTrailingZeros(s[..|s| - 1]) else s
  }

  /** Rounds a non-negative real to the nearest integer, halves upwards. */
  function RoundHalfUp(x: real): (r: nat)
    requires x >= 0.0
    ensures r as real - 0.5 <= x < r as real + 0.5
  {
    (x + 0.5).Floor
  }

  /** A non-negative number with at most `k` fraction digits (trailing zeros dropped), integer
      groups separated by `sep`, fraction introduced by `mark`. */
  function FormatUnsigned(x: real, k: nat, sep: string, mark: string): string
    requires x >= 0.0
  {
    var scaled := Units(x, k);
    var p := Pow10(k);
    DivModNat(scaled, p);
    var whole := scaled / p;
    var frac := scaled % p;
    Grouped(whole, sep)
    + (if frac == 0 then "" else mark + StripTrailingZeros(PadStart(NatToString(frac), k, '0')))
  }

  /** `x` counted in units of `10^-k`, rounded half up. */
  function Units(x: real, k: nat): nat
    requires x >= 0.0
  {
    var p := Pow10(k) as real;
    assert x * p >= 0.0 by { MulNonnegative(x, p); }
    RoundHalfUp(x * p)
  }

  lemma MulNonnegative(x: real, y: real)
    requires x >= 0.0 && y >= 0.0
    ensures x * y >= 0.0
  {
  }

  function FormatSigned(x: real, k: nat, sep: string, mark: string): string {
    if x < 0.0 then "-" + FormatUnsigned(-x, k, sep, mark) else FormatUnsigned(x, k, sep, mark)
  }

  /** `x.toLocaleString('id-ID', {maximumFractionDigits: k})`; the default for `k` is 3. */
  function IdLocale(x: real, k: nat): string {
    FormatSigned(x, k, ".", ",")
  }

  /** Fraction digits `String(x)` writes at most in this model (the source prints doubles). */
  const JsFractionDigits: nat := 15

  /** `String(x)` for a number: no grouping, '.' as decimal mark. */
  function JsString(x: real): string {
    FormatSigned(x, JsFractionDigits, "", ".")
  }

  lemma RoundWhole(m: nat)
    ensures RoundHalfUp(m as real) == m
  {
  }

  /** A whole amount is written with no fraction part at any precision. */
  lemma WholeFormatsGrouped(n: nat, k: nat, sep: string, mark: string)
    ensures FormatUnsigned(n as real, k, sep, mark) == Grouped(n, sep)
  {
    var p := Pow10(k);
    assert Units(n as real, k) == n * p by {
      assert (n as real) * (p as real) == (n * p) as real;
      RoundWhole(n * p);
    }
    DivMulExact(n, p);
  }

  lemma DivMulExact(n: nat, p: nat)
    requires p >= 1
    ensures (n * p) / p == n && (n * p) % p == 0
  {
    var q := (n * p) / p;
    var r := (n * p) % p;
    assert n * p == q * p + r && 0 <= r < p;
    assert (n - q) * p == n * p - q * p;
    MulSign(n - q, p);
  }

  lemma DivModNat(a: nat, p: nat)
    requires p >= 1
    ensures a / p >= 0 && 0 <= a % p < p
  {
  }

  lemma {:induction false} MulSign(a: int, p: int)
    requires p >= 1
    ensures a >= 1 ==> a * p >= p
    ensures a <= -1 ==> a * p <= -p
    decreases if a < 0 then -a else a
  {
    if a > 1 {
      MulSign(a - 1, p);
      assert a * p == (a - 1) * p + p;
    } else if a < -1 {
      MulSign(a + 1, p);
      assert a * p == (a + 1) * p - p;
    }
  }

  /** The id-ID text of a whole, non-negative amount holds no ','. */
  lemma WholeIdLocaleHasNoComma(n: nat, k: nat)
    ensures ',' !in IdLocale(n as real, k)
    ensures IdLocale(n as real, k) == Grouped(n, ".")
  {
    WholeFormatsGrouped(n, k, ".", ",");
    GroupedDigitsAndDots(n);
    var s := Grouped(n, ".");
    assert forall i :: 0 <= i < |s| ==> s[i] != ',' by {
      forall i | 0 <= i < |s| ensures s[i] != ',' {
        assert IsDigitOrDot(s[i]);
      }
    }
  }
}
