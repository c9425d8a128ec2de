/** JavaScript numbers over exact reals: `parseFloat`, `Number(string)`, `toFixed(2)` and the
    decimal rendering of a number. Binary floating point is not modelled: a finite number is
    an exact real. */
module Numbers {
  import opened Wrappers
  import opened Text

  /** A JavaScript number; negative zero is not distinguished from zero. */
  datatype Num = Fin(r: real) | PosInf | NegInf | NaN

  function Pow10(e: nat): (r: real)
    ensures r >= 1.0
  {
    if e == 0 then 1.0 else 10.0 * Pow10(e - 1)
  }

  /** Ten to an integer power. */
  function Pow10Int(e: int): (r: real)
    ensures r > 0.0
  {
    if e >= 0 then Pow10(e) else 1.0 / Pow10(-e)
  }

  // ---------------------------------------------------------------------------
  // Digit strings
  // ---------------------------------------------------------------------------

  predicate AllDigits(s: string) {
    forall i :: 0 <= i < |s| ==> IsDigit(s[i])
  }

  /** The number of decimal digits at the start of `s`. */
  function LeadingDigits(s: string): (n: nat)
    ensures n <= |s|
    ensures AllDigits(s[..n])
    ensures n < |s| ==> !IsDigit(s[n])
  {
    if s != [] && IsDigit(s[0]) then
      var k := LeadingDigits(s[1..]);
      assert s[..k + 1] == [s[0]] + s[1..][..k];
      k + 1
    else 0
  }

  function DigitValue(c: char): (d: nat)
    requires IsDigit(c)
    ensures d < 10
  {
    c as int - '0' as int
  }

  /** The value of a string of decimal digits, most significant first. */
  function DigitsValue(s: string): nat
    requires AllDigits(s)
  {
    if s == [] then 0 else 10 * DigitsValue(s[..|s| - 1]) + DigitValue(s[|s| - 1])
  }

  lemma DigitCharValue(d: nat)
    requires d < 10
    ensures DigitValue(DigitChar(d)) == d
  {
  }

  /** Reading back the decimal rendering of a natural number gives the number. */
  lemma {:induction false} NatToStringValue(n: nat)
    ensures AllDigits(NatToString(n))
    ensures DigitsValue(NatToString(n)) == n
    decreases n
  {
    if n >= 10 {
      NatToStringValue(n / 10);
      var s := NatToString(n);
      assert s[..|s| - 1] == NatToString(n / 10);
      DigitCharValue(n % 10);
    } else {
      DigitCharValue(n);
    }
  }

  /** A digit string followed by a non-digit is counted exactly. */
  lemma LeadingDigitsOf(d: string, t: string)
    requires AllDigits(d)
    requires t == [] || !IsDigit(t[0])
    ensures LeadingDigits(d + t) == |d|
    decreases |d|
  {
    if d != [] {
      assert (d + t)[1..] == d[1..] + t;
      LeadingDigitsOf(d[1..], t);
    }
  }

  // ---------------------------------------------------------------------------
  // Scanning a decimal literal
  // ---------------------------------------------------------------------------

  /** A scanned literal: its value and the number of characters it spans. */
  datatype Scan = Scan(value: real, length: nat)

  /** An exponent part `e`/`E`, optional sign, at least one digit: its value and length. */
  function ScanExponent(s: string): (r: Option<(int, nat)>)
    ensures r.Some? ==> 2 <= r.value.1 <= |s|
  {
    if |s| < 2 || (s[0] != 'e' && s[0] != 'E') then None
    else
      var signed := s[1] == '+' || s[1] == '-';
      var start := if signed then 2 else 1;
      var n := LeadingDigits(s[start..]);
      if n == 0 then None
      else
        var e: int := DigitsValue(s[start..][..n]);
        Some((if s[1] == '-' then -e else e, start + n))
  }

  /** The value of the digits after a decimal point. */
  function FractionValue(d: string): (r: real)
    requires AllDigits(d)
    ensures r >= 0.0
  {
    DigitsValue(d) as real / Pow10(|d|)
  }

  /** The mantissa of a decimal literal: digits [`.` digits], with at least one digit. */
  function ScanMantissa(s: string): (r: Option<Scan>)
    ensures r.Some? ==> 1 <= r.value.length <= |s|
    ensures r.Some? ==> r.value.value >= 0.0
  {
    var i := LeadingDigits(s);
    if i < |s| && s[i] == '.' then
      var j := LeadingDigits(s[i + 1..]);
      if i == 0 && j == 0 then None
      else Some(Scan(DigitsValue(s[..i]) as real + FractionValue(s[i + 1..][..j]), i + 1 + j))
    else if i == 0 then None
    else Some(Scan(DigitsValue(s[..i]) as real, i))
  }

  /** The longest prefix of `s` of the form digits [`.` digits] [exponent], with at least one
      digit before the exponent (the unsigned StrDecimalLiteral of the language). */
  function ScanUnsigned(s: string): (r: Option<Scan>)
    ensures r.Some? ==> 1 <= r.value.length <= |s|
    ensures r.Some? ==> r.value.value >= 0.0
  {
    match ScanMantissa(s)
    case None => None
    case Some(m) =>
      match ScanExponent(s[m.length..])
      case None => Some(m)
      case Some((e, k)) => Some(Scan(m.value * Pow10Int(e), m.length + k))
  }

  function Negate(n: Num): Num {
    match n
    case Fin(r) => Fin(-r)
    case PosInf => NegInf
    case NegInf => PosInf
    case NaN => NaN
  }

  predicate StartsWith(s: string, prefix: string) {
    |prefix| <= |s| && s[..|prefix|] == prefix
  }

  /** `parseFloat(s)` on a string: the longest numeric prefix after leading white space. */
  function ParseFloat(s: string): (n: Num)
    ensures n != NaN ==> exists i :: 0 <= i < |s| && !IsWhite(s[i])
  {
    var t := TrimStart(s);
    TrimStartIsSuffix(s);
    var negative := t != [] && t[0] == '-';
    var body := if t != [] && (t[0] == '-' || t[0] == '+') then t[1..] else t;
    var n :=
      if StartsWith(body, "Infinity") then PosInf
      else match ScanUnsigned(body)
        case None => NaN
        case Some(sc) => Fin(sc.value);
    var r := if negative then Negate(n) else n;
    assert r != NaN ==> t != [] && t == s[|s| - |t|..] && s[|s| - |t|] == t[0];
    r
  }

  /** `Number(s)` on a string: the whole trimmed text must be a decimal literal, and the empty
      text is zero. Hexadecimal, octal and binary literals are not modelled. */
  function StringToNumber(s: string): Num {
    var t := Trim(s);
    if t == [] then Fin(0.0)
    else
      var negative := t[0] == '-';
      var body := if t[0] == '-' || t[0] == '+' then t[1..] else t;
      var n :=
        if body == "Infinity" then PosInf
        else match ScanUnsigned(body)
          case None => NaN
          case Some(sc) => if sc.length == |body| then Fin(sc.value) else NaN;
      if negative then Negate(n) else n
  }

  // ---------------------------------------------------------------------------
  // Rendering
  // ---------------------------------------------------------------------------

  predicate IsInteger(r: real) {
    r == r.Floor as real
  }

  /** `count` fraction digits of `f`, truncated, for `0 <= f < 1`. */
  function FractionDigits(f: real, count: nat): (r: string)
    requires 0.0 <= f < 1.0
    ensures |r| == count
    decreases count
  {
    if count == 0 then []
    else
      var d := (10.0 * f).Floor;
      assert 0 <= d < 10;
      [DigitChar(d)] + FractionDigits(10.0 * f - d as real, count - 1)
  }

  function DropTrailingZeros(s: string): (r: string)
    ensures |r| <= |s|
  {
    if s != [] && s[|s| - 1] == '0' then DropTrailingZeros(s[..|s| - 1]) else s
  }

  /** `String(n)`: integers exactly; other finite values as a decimal fraction of at most
      twenty digits. Exponential notation is not modelled. */
  function NumToString(n: Num): (r: string)
    ensures r != []
  {
    match n
    case NaN => "NaN"
    case PosInf => "Infinity"
    case NegInf => "-Infinity"
    case Fin(x) => FinText(x)
  }

  /** The text of a finite number: an integer in decimal; otherwise the sign, the integer
      part, a point and the fraction digits without trailing zeros. */
  function FinText(x: real): (r: string)
    ensures r != []
  {
    if IsInteger(x) then IntToString(x.Floor)
    else
      var a := if x < 0.0 then -x else x;
      var whole := a.Floor;
      var sign := if x < 0.0 then "-" else "";
      sign + NatToString(whole) + "." + DropTrailingZeros(FractionDigits(a - whole as real, 20))
  }

  /** Two decimal digits of `n < 100`, zero-padded. */
  function TwoDigits(n: nat): (r: string)
    requires n < 100
    ensures |r| == 2 && AllDigits(r)
  {
    [DigitChar(n / 10), DigitChar(n % 10)]
  }

  lemma TwoDigitsValue(n: nat)
    requires n < 100
    ensures DigitsValue(TwoDigits(n)) == n
  {
    var t := TwoDigits(n);
    DigitCharValue(n / 10);
    DigitCharValue(n % 10);
    assert t[..1] == [DigitChar(n / 10)];
    assert t[..1][..0] == [];
    assert DigitsValue(t[..1]) == n / 10;
    assert DigitsValue(t) == 10 * (n / 10) + n % 10;
  }

  /** The number of hundredths nearest to `a >= 0`, a tie going to the larger. */
  function Hundredths(a: real): (n: nat)
    requires a >= 0.0
    ensures n as real <= 100.0 * a + 0.5 < n as real + 1.0
  {
    (100.0 * a + 0.5).Floor
  }

  const ExponentialLimit: real := 1000000000000000000000.0

  /** `n.toFixed(2)`. Below 10^21 in magnitude: the sign of a negative value, the whole
      hundredths, a point and two digits; otherwise the plain rendering. */
  function ToFixed2(n: Num): string {
    match n
    case Fin(x) =>
      if x >= ExponentialLimit || x <= -ExponentialLimit then NumToString(n)
      else
        var a := if x < 0.0 then -x else x;
        var h := Hundredths(a);
        var sign := if x < 0.0 then "-" else "";
        sign + NatToString(h / 100) + "." + TwoDigits(h % 100)
    case _ => NumToString(n)
  }

  /** The value that `toFixed(2)` stands for: the rounded hundredths, with the sign. */
  function Rounded2(x: real): real {
    var a := if x < 0.0 then -x else x;
    var v := Hundredths(a) as real / 100.0;
    if x < 0.0 then -v else v
  }

  lemma Rounded2Close(x: real)
    ensures -0.005 <= Rounded2(x) - x <= 0.005
  {
    var a := if x < 0.0 then -x else x;
    var h := Hundredths(a) as real;
    assert h / 100.0 - a <= 0.005;
    assert h / 100.0 - a > -0.005;
  }

  /** Reading a rendered unsigned fixed-point text back. */
  lemma {:induction false} ScanFixed(q: nat, d: nat)
    requires d < 100
    ensures ScanUnsigned(NatToString(q) + "." + TwoDigits(d))
            == Some(Scan(q as real + d as real / 100.0, |NatToString(q)| + 3))
  {
    var w := NatToString(q);
    var s := w + "." + TwoDigits(d);
    NatToStringValue(q);
    LeadingDigitsOf(w, "." + TwoDigits(d));
    assert s == w + ("." + TwoDigits(d));
    var i := |w|;
    assert s[..i] == w;
    assert s[i] == '.';
    assert s[i + 1..] == TwoDigits(d);
    LeadingDigitsOf(TwoDigits(d), []);
    assert TwoDigits(d) + [] == TwoDigits(d);
    assert s[i + 1..][..2] == TwoDigits(d);
    TwoDigitsValue(d);
    assert s[i + 3..] == [];
    assert Pow10(2) == 100.0;
  }

  /** The unsigned text that `toFixed(2)` writes for `a >= 0`. */
  function FixedBody(a: real): string
    requires a >= 0.0
  {
    var h := Hundredths(a);
    NatToString(h / 100) + "." + TwoDigits(h % 100)
  }

  lemma FixedBodyValue(a: real)
    requires a >= 0.0
    ensures FixedBody(a) != [] && IsDigit(FixedBody(a)[0])
    ensures !IsWhite(FixedBody(a)[|FixedBody(a)| - 1])
    ensures ScanUnsigned(FixedBody(a)) == Some(Scan(Hundredths(a) as real / 100.0, |FixedBody(a)|))
  {
    var h := Hundredths(a);
    ScanFixed(h / 100, h % 100);
    assert (h / 100) as real + (h % 100) as real / 100.0 == h as real / 100.0;
  }

  lemma FixedIsSignedBody(x: real)
    requires -ExponentialLimit < x < ExponentialLimit
    ensures x < 0.0 ==> ToFixed2(Fin(x)) == "-" + FixedBody(-x)
    ensures x >= 0.0 ==> ToFixed2(Fin(x)) == FixedBody(x)
  {
  }

  /** Below 10^21 in magnitude, `toFixed(2)` ends in a point and two digits. */
  lemma FixedShape(x: real)
    requires -ExponentialLimit < x < ExponentialLimit
    ensures var r := ToFixed2(Fin(x)); |r| >= 4 && r[|r| - 3] == '.' && AllDigits(r[|r| - 2..])
  {
    var a := if x < 0.0 then -x else x;
    var h := Hundredths(a);
    var r := ToFixed2(Fin(x));
    assert r[|r| - 2..] == TwoDigits(h % 100);
  }

  /** A complete unsigned literal, bare or after a minus sign, reads as its value. */
  lemma StringToNumberLiteral(body: string, v: real)
    requires body != [] && IsDigit(body[0]) && !IsWhite(body[|body| - 1])
    requires ScanUnsigned(body) == Some(Scan(v, |body|))
    ensures StringToNumber(body) == Fin(v)
    ensures StringToNumber("-" + body) == Fin(-v)
  {
    LiteralBare(body, v);
    LiteralNegated("-" + body, body, v);
  }

  lemma NotInfinity(body: string)
    requires body != [] && IsDigit(body[0])
    ensures body != "Infinity"
  {
    assert "Infinity"[0] == 'I';
  }

  lemma LiteralBare(body: string, v: real)
    requires body != [] && IsDigit(body[0]) && !IsWhite(body[|body| - 1])
    requires ScanUnsigned(body) == Some(Scan(v, |body|))
    ensures StringToNumber(body) == Fin(v)
  {
    NotInfinity(body);
    TrimOfUntrimmed(body);
  }

  lemma LiteralNegated(m: string, body: string, v: real)
    requires body != [] && IsDigit(body[0]) && !IsWhite(body[|body| - 1])
    requires ScanUnsigned(body) == Some(Scan(v, |body|))
    requires m == "-" + body
    ensures StringToNumber(m) == Fin(-v)
  {
    NotInfinity(body);
    assert m[0] == '-' && m[1..] == body;
    TrimOfUntrimmed(m);
  }

  /** `Number(x.toFixed(2))` is `x` rounded to hundredths, for every finite `x` below 10^21. */
  lemma FixedRoundTrip(x: real)
    requires -ExponentialLimit < x < ExponentialLimit
    ensures StringToNumber(ToFixed2(Fin(x))) == Fin(Rounded2(x))
  {
    if x < 0.0 {
      FixedOfNegative(x);
    } else {
      FixedOfNonNegative(x);
    }
  }

  lemma FixedOfNegative(x: real)
    requires -ExponentialLimit < x < 0.0
    ensures StringToNumber(ToFixed2(Fin(x))) == Fin(Rounded2(x))
  {
    var a := -x;
    var v := Hundredths(a) as real / 100.0;
    Rounded2Negative(x);
    FixedBodyValue(a);
    FixedIsSignedBody(x);
    LiteralNegated(ToFixed2(Fin(x)), FixedBody(a), v);
  }

  lemma Rounded2Negative(x: real)
    requires x < 0.0
    ensures Rounded2(x) == -(Hundredths(-x) as real / 100.0)
  {
  }

  lemma FixedOfNonNegative(x: real)
    requires 0.0 <= x < ExponentialLimit
    ensures StringToNumber(ToFixed2(Fin(x))) == Fin(Rounded2(x))
  {
    var v := Hundredths(x) as real / 100.0;
    assert Rounded2(x) == v;
    FixedIsSignedBody(x);
    FixedBodyValue(x);
    LiteralBare(FixedBody(x), v);
  }

  /** The decimal digits of a natural number scan as that number. */
  lemma NatScans(m: nat)
    ensures var w := NatToString(m);
            IsDigit(w[0]) && !IsWhite(w[|w| - 1]) && ScanUnsigned(w) == Some(Scan(m as real, |w|))
  {
    var w := NatToString(m);
    NatToStringValue(m);
    LeadingDigitsOf(w, []);
    assert w + [] == w;
    assert w[..|w|] == w;
  }

  /** A bare integer rendering reads back as the integer. */
  lemma IntRoundTrip(n: int)
    ensures StringToNumber(NumToString(Fin(n as real))) == Fin(n as real)
  {
    var m: nat := if n < 0 then -n else n;
    NatScans(m);
    assert IsInteger(n as real);
    assert NumToString(Fin(n as real)) == IntToString(n);
    if n < 0 {
      LiteralNegated(NumToString(Fin(n as real)), NatToString(m), m as real);
    } else {
      LiteralBare(NatToString(m), m as real);
    }
  }
}
