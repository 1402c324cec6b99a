/**
 * The three ways the course form turns text into a number:
 *   - ToNumber, the coercion behind `formData.duracion <= 0` in validation;
 *   - ParseInt, `parseInt(formData.duracion)` in the payload;
 *   - ParseFloat, `parseFloat(formData.precio)` in the payload;
 * and the decimal rendering of an integer id inside a template literal.
 * Numbers are exact reals; the grammar is the decimal one of ECMAScript
 * (digits, an optional fraction, an optional exponent).
 */
module JsNumbers {
  import opened Wrappers
  import opened JsStrings
  import opened JsValues

  /** A JavaScript number: finite, or NaN. */
  datatype Numeric = Finite(r: real) | NotANumber

  /** The number as a JavaScript value. */
  function AsValue(n: Numeric): JsValue {
    match n
    case Finite(r) => Num(r)
    case NotANumber => NaN
  }

  /** `n <= 0` with `n` a number: false for NaN. */
  predicate AtMostZero(n: Numeric) {
    n.Finite? && n.r <= 0.0
  }

  predicate IsDigit(c: char) {
    '0' <= c <= '9'
  }

  predicate AllDigits(s: string) {
    forall i :: 0 <= i < |s| ==> IsDigit(s[i])
  }

  function DigitValue(c: char): (d: nat)
    requires IsDigit(c)
    ensures d < 10
  {
    c as int - '0' as int
  }

  /** How many decimal digits `s` starts with. */
  function DigitRun(s: string): (n: nat)
    ensures n <= |s|
    ensures AllDigits(s[..n])
    ensures n < |s| ==> !IsDigit(s[n])
  {
    if s != [] && IsDigit(s[0]) then
      var n := 1 + DigitRun(s[1..]);
      assert s[..n] == [s[0]] + s[1..][..n - 1];
      n
    else
      0
  }

  /** The value of a string of decimal digits, most significant first. */
  function DigitsValue(ds: string): nat
    requires AllDigits(ds)
  {
    if ds == [] then 0 else DigitsValue(ds[..|ds| - 1]) * 10 + DigitValue(ds[|ds| - 1])
  }

  /** `m` times ten to the power `e`, one factor of ten at a time. */
  function Scale(m: real, e: int): (r: real)
    ensures m > 0.0 ==> r > 0.0
    ensures m >= 0.0 ==> r >= 0.0
    decreases if e >= 0 then e else -e
  {
    if e == 0 then m
    else if e > 0 then Scale(m, e - 1) * 10.0
    else Scale(m, e + 1) / 10.0
  }

  /** The value of digits read after a decimal point. */
  function FractionValue(f: string): (r: real)
    requires AllDigits(f)
    ensures r >= 0.0
  {
    if f == [] then 0.0 else (DigitValue(f[0]) as real + FractionValue(f[1..])) / 10.0
  }

  /** The value of `whole.fraction` written in decimal digits. */
  function DecimalValue(whole: string, fraction: string): (r: real)
    requires AllDigits(whole) && AllDigits(fraction)
    ensures r >= 0.0
  {
    DigitsValue(whole) as real + FractionValue(fraction)
  }

  /** A numeric literal found at the start of a text: its value and how many characters it spans. */
  datatype Scan = Scan(value: real, length: nat)

  /** An exponent part `e`/`E`, an optional sign, then digits, at the start of `s`. */
  function ScanExponent(s: string): (r: Option<(int, nat)>)
    ensures r.Some? ==> 2 <= r.value.1 <= |s|
  {
    if s != [] && (s[0] == 'e' || s[0] == 'E') then
      var signed := |s| >= 2 && (s[1] == '+' || s[1] == '-');
      var prefix := if signed then 2 else 1;
      var digits := s[prefix..];
      var d := DigitRun(digits);
      if d == 0 then None
      else
        var magnitude: int := DigitsValue(digits[..d]);
        var exponent := if signed && s[1] == '-' then -magnitude else magnitude;
        Some((exponent, prefix + d))
    else
      None
  }

  /**
   * The mantissa of a decimal literal at the start of `s`: digits with an
   * optional `.` and fraction digits, at least one digit in all.
   */
  function ScanMantissa(s: string): (r: Option<Scan>)
    ensures r.Some? ==> 0 < r.value.length <= |s| && r.value.value >= 0.0
  {
    var a := DigitRun(s);
    if a < |s| && s[a] == '.' then
      var f := DigitRun(s[a + 1..]);
      if a == 0 && f == 0 then None
      else Some(Scan(DecimalValue(s[..a], s[a + 1..][..f]), a + 1 + f))
    else if a == 0 then None
    else Some(Scan(DigitsValue(s[..a]) as real, a))
  }

  /** The longest unsigned decimal literal at the start of `s`: a mantissa, then an optional exponent. */
  function ScanUnsigned(s: string): (r: Option<Scan>)
    ensures r.Some? ==> 0 < r.value.length <= |s| && r.value.value >= 0.0
  {
    match ScanMantissa(s)
    case None => None
    case Some(m) =>
      match ScanExponent(s[m.length..])
      case Some((e, n)) => Some(Scan(Scale(m.value, e), m.length + n))
      case None => Some(m)
  }

  /** A leading `-` or `+`, and the text after it. */
  function SplitSign(t: string): (bool, string) {
    if t != [] && t[0] == '-' then (true, t[1..])
    else if t != [] && t[0] == '+' then (false, t[1..])
    else (false, t)
  }

  function Negate(negative: bool, x: real): real {
    if negative then -x else x
  }

  /** ToNumber applied to a string: blank text is 0, otherwise the trimmed text must be one literal. */
  function StringToNumber(s: string): Numeric {
    LiteralNumber(Trim(s))
  }

  /** The number a whole trimmed text denotes: an optional sign and one unsigned literal, else NaN. */
  function LiteralNumber(t: string): Numeric {
    if t == [] then Finite(0.0)
    else
      var (negative, body) := SplitSign(t);
      match ScanUnsigned(body)
      case Some(sc) => if sc.length == |body| then Finite(Negate(negative, sc.value)) else NotANumber
      case None => NotANumber
  }

  /**
   * ToNumber, the coercion JavaScript applies to the left operand of `<= 0`:
   * a number is itself, blank text is 0, and `undefined` is NaN.
   */
  function ToNumber(v: JsValue): (n: Numeric)
    ensures v.Num? ==> n == Finite(v.x)
    ensures v.Str? && AllWhitespace(v.s) ==> n == Finite(0.0)
    ensures v == Undefined || v == NaN ==> n == NotANumber
  {
    if v.Str? then StringToNumber(v.s) else NonTextToNumber(v)
  }

  /** ToNumber of a value that is not a string: null is 0, booleans 1 and 0, and the rest NaN. */
  function NonTextToNumber(v: JsValue): Numeric {
    match v
    case Null => Finite(0.0)
    case Bool(b) => Finite(if b then 1.0 else 0.0)
    case Num(x) => Finite(x)
    case _ => NotANumber
  }

  /** `parseFloat` of a text: the longest literal after leading whitespace and a sign. */
  function ParseFloatText(s: string): (n: Numeric)
    ensures AllWhitespace(s) ==> n == NotANumber
  {
    var (negative, body) := SplitSign(TrimStart(s));
    match ScanUnsigned(body)
    case Some(sc) => Finite(Negate(negative, sc.value))
    case None => NotANumber
  }

  /** `parseInt` of a text (no radix): the leading digits after leading whitespace and a sign. */
  function ParseIntText(s: string): (n: Numeric)
    ensures n.Finite? ==> n.r == n.r.Floor as real
    ensures AllWhitespace(s) ==> n == NotANumber
  {
    var (negative, body) := SplitSign(TrimStart(s));
    var d := DigitRun(body);
    if d == 0 then NotANumber
    else
      var k := DigitsValue(body[..d]);
      WholeNegate(negative, k);
      Finite(Negate(negative, k as real))
  }

  /** A whole number stays whole under a sign. */
  lemma WholeNegate(negative: bool, k: nat)
    ensures var x := Negate(negative, k as real); x == x.Floor as real
  {
    var m: int := -(k as int);
    assert -(k as real) == m as real;
  }

  /** Truncation toward zero. */
  function Trunc(x: real): int {
    if x >= 0.0 then x.Floor else -((-x).Floor)
  }

  /**
   * `parseFloat(v)`: the argument is first converted to a string.  A number
   * converts back to itself; `undefined`, `null`, booleans, `NaN` and files
   * convert to words that start no literal.
   */
  function ParseFloat(v: JsValue): (n: Numeric)
    ensures v.Num? ==> n == Finite(v.x)
    ensures v.Str? && AllWhitespace(v.s) ==> n == NotANumber
    ensures !v.Str? && !v.Num? ==> n == NotANumber
  {
    match v
    case Str(s) => ParseFloatText(s)
    case Num(x) => Finite(x)
    case _ => NotANumber
  }

  /**
   * `parseInt(v)`: as ParseFloat, but a number keeps only its integer part.
   * The result is always NaN or a whole number, and blank text is NaN.
   */
  function ParseInt(v: JsValue): (n: Numeric)
    ensures n.Finite? ==> n.r == n.r.Floor as real
    ensures v.Num? && v.x >= 0.0 ==> n == Finite(v.x.Floor as real)
    ensures v.Str? && AllWhitespace(v.s) ==> n == NotANumber
    ensures !v.Str? && !v.Num? ==> n == NotANumber
  {
    match v
    case Str(s) => ParseIntText(s)
    case Num(x) => Finite(Trunc(x) as real)
    case _ => NotANumber
  }

  /** `${n}` for a non-negative integer `n`: its decimal digits without leading zeros. */
  function DecimalText(n: nat): (r: string)
    ensures |r| >= 1 && AllDigits(r) && DigitsValue(r) == n
    ensures |r| > 1 ==> r[0] != '0'
  {
    var last := ['0' + (n % 10) as char];
    if n < 10 then
      last
    else
      var r := DecimalText(n / 10) + last;
      assert r[..|r| - 1] == DecimalText(n / 10);
      r
  }

  lemma {:induction false} DigitRunOfDigits(s: string)
    requires AllDigits(s)
    ensures DigitRun(s) == |s|
  {
    if s != [] {
      DigitRunOfDigits(s[1..]);
    }
  }

  /**
   * A non-empty string of digits means the same number to all three
   * conversions, so for such text validation and payload agree.
   */
  lemma DigitTextParses(s: string)
    requires s != [] && AllDigits(s)
    ensures StringToNumber(s) == Finite(DigitsValue(s) as real)
    ensures ParseIntText(s) == Finite(DigitsValue(s) as real)
    ensures ParseFloatText(s) == Finite(DigitsValue(s) as real)
  {
    TrimOfUnpadded(s);
    DigitRunOfDigits(s);
    assert SplitSign(s) == (false, s);
    assert s[..|s|] == s;
    assert ScanExponent(s[|s|..]) == None;
  }

  /** The decimal rendering of an integer id parses back to the id. */
  lemma DecimalTextRoundTrip(n: nat)
    ensures ParseIntText(DecimalText(n)) == Finite(n as real)
    ensures StringToNumber(DecimalText(n)) == Finite(n as real)
  {
    DigitTextParses(DecimalText(n));
  }

  /** Different ids render differently. */
  lemma DecimalTextInjective(m: nat, n: nat)
    ensures DecimalText(m) == DecimalText(n) ==> m == n
  {
  }

  /**
   * For text with no surrounding whitespace (the only kind a number input
   * produces) that ToNumber reads as a finite number, parseFloat reads the
   * same number.
   */
  lemma ParseFloatAgreesWithToNumber(s: string)
    requires s == [] || (!IsJsWhitespace(s[0]) && !IsJsWhitespace(s[|s| - 1]))
    requires s != [] && StringToNumber(s).Finite?
    ensures ParseFloatText(s) == StringToNumber(s)
  {
    TrimOfUnpadded(s);
  }

  lemma {:induction false} DigitRunAppend(a: string, b: string)
    requires AllDigits(a)
    ensures DigitRun(a + b) == |a| + DigitRun(b)
  {
    if a == [] {
      assert a + b == b;
    } else {
      assert (a + b)[0] == a[0];
      assert (a + b)[1..] == a[1..] + b;
      DigitRunAppend(a[1..], b);
    }
  }

  /** Where the parts of `whole.fraction` sit, and how far the digit runs reach. */
  lemma FractionalTextLayout(whole: string, fraction: string)
    requires whole != [] && AllDigits(whole) && fraction != [] && AllDigits(fraction)
    ensures var s := whole + "." + fraction;
      && DigitRun(s) == |whole| && s[|whole|] == '.' && s[|whole| + 1..] == fraction
      && s[..|whole|] == whole && DigitRun(fraction) == |fraction| && fraction[..|fraction|] == fraction
  {
    var s := whole + "." + fraction;
    DigitRunAppend(whole, "." + fraction);
    assert s == whole + ("." + fraction);
    DigitRunOfDigits(fraction);
  }

  /** `whole.fraction` is one mantissa spanning the whole text. */
  lemma ScanFractionalText(whole: string, fraction: string)
    requires whole != [] && AllDigits(whole) && fraction != [] && AllDigits(fraction)
    ensures ScanMantissa(whole + "." + fraction)
         == Some(Scan(DecimalValue(whole, fraction), |whole| + 1 + |fraction|))
  {
    FractionalTextLayout(whole, fraction);
  }

  /** An unsigned literal that spans all of a text without surrounding whitespace is that text's number. */
  lemma WholeLiteral(s: string, v: real)
    requires s != [] && !IsJsWhitespace(s[0]) && !IsJsWhitespace(s[|s| - 1]) && s[0] != '-' && s[0] != '+'
    requires ScanMantissa(s) == Some(Scan(v, |s|))
    ensures ScanUnsigned(s) == Some(Scan(v, |s|))
    ensures StringToNumber(s) == Finite(v)
  {
    TrimOfUnpadded(s);
    assert SplitSign(s) == (false, s);
    assert s[|s|..] == [];
  }

  /** ToNumber of `whole.fraction` counts the fraction. */
  lemma FractionalTextToNumber(whole: string, fraction: string)
    requires whole != [] && AllDigits(whole) && fraction != [] && AllDigits(fraction)
    ensures StringToNumber(whole + "." + fraction) == Finite(DecimalValue(whole, fraction))
  {
    ScanFractionalText(whole, fraction);
    WholeLiteral(whole + "." + fraction, DecimalValue(whole, fraction));
  }

  /** parseInt of `whole.fraction` stops at the point and drops the fraction. */
  lemma FractionalTextParseInt(whole: string, fraction: string)
    requires whole != [] && AllDigits(whole) && fraction != [] && AllDigits(fraction)
    ensures ParseIntText(whole + "." + fraction) == Finite(DigitsValue(whole) as real)
  {
    var s := whole + "." + fraction;
    FractionalTextLayout(whole, fraction);
    TrimOfUnpadded(s);
    assert SplitSign(s) == (false, s);
  }

  /**
   * A character that no decimal literal, sign, point or padding begins
   * with (nor the `I` of `Infinity`).
   */
  predicate StartsNoNumber(c: char) {
    !IsDigit(c) && c != '.' && c != '+' && c != '-' && c != 'I' && !IsJsWhitespace(c)
  }

  /** Text that starts with such a character is NaN to ToNumber, to parseFloat and to parseInt. */
  lemma NonNumericText(t: string)
    requires t != [] && StartsNoNumber(t[0])
    ensures StringToNumber(t) == NotANumber
    ensures ParseFloatText(t) == NotANumber
    ensures ParseIntText(t) == NotANumber
  {
    assert LeadingWhitespace(t) == 0;
    assert TrimStart(t) == t;
    var r := Trim(t);
    assert r != [] && r[0] == t[0];
    assert SplitSign(r) == (false, r);
    assert DigitRun(r) == 0;
    assert SplitSign(t) == (false, t);
    assert DigitRun(t) == 0;
  }
}
