/** Exact decimal numbers as Python's `decimal` module represents finite
    values: a signed coefficient and a power-of-ten exponent, so that
    `Decimal('1.50')` is `Decimal(150, -2)`. The spinbox logic compares
    these exactly; no floating point is involved. */
module Decimals {
  import opened Common

  datatype Decimal = Decimal(coefficient: int, exponent: int)

  /** A spinbox bound: a finite decimal, or one of the infinite defaults
      `'-Infinity'` / `'Infinity'` the spinbox is created with. */
  datatype Limit = NegInfinity | PosInfinity | Finite(d: Decimal)

  function Pow10(n: nat): (r: nat)
    ensures r >= 1
  {
    if n == 0 then 1 else 10 * Pow10(n - 1)
  }

  /** 10^e as a real, for any integer e. */
  function Scale(e: int): (r: real)
    ensures r > 0.0
  {
    if e >= 0 then Pow10(e) as real else 1.0 / Pow10(-e) as real
  }

  /** The number a decimal denotes. */
  function Value(d: Decimal): real {
    d.coefficient as real * Scale(d.exponent)
  }

  predicate Less(a: Decimal, b: Decimal) {
    Value(a) < Value(b)
  }

  /** `d < limit`, as Python compares a Decimal with a float bound. */
  predicate BelowLimit(d: Decimal, limit: Limit) {
    match limit
    case NegInfinity => false
    case PosInfinity => true
    case Finite(m) => Value(d) < Value(m)
  }

  /** `d > limit`. */
  predicate AboveLimit(d: Decimal, limit: Limit) {
    match limit
    case NegInfinity => true
    case PosInfinity => false
    case Finite(m) => Value(d) > Value(m)
  }

  /** `limit >= 0`. */
  predicate LimitNonNegative(limit: Limit) {
    match limit
    case NegInfinity => false
    case PosInfinity => true
    case Finite(m) => Value(m) >= 0.0
  }

  // ---------------------------------------------------------------------
  // Parsing: the numeric-string grammar of Python's Decimal constructor,
  //   [sign] (digits '.' [digits] | ['.'] digits) [('e'|'E') [sign] digits]
  // ---------------------------------------------------------------------

  predicate IsDigit(c: char) {
    '0' <= c <= '9'
  }

  predicate AllDigits(s: string) {
    forall i :: 0 <= i < |s| ==> IsDigit(s[i])
  }

  function DigitsValue(s: string): nat
    requires AllDigits(s)
  {
    if s == [] then 0 else 10 * DigitsValue(s[..|s| - 1]) + (s[|s| - 1] as int - '0' as int)
  }

  /** Position of the first character of `s` that is one of `marks`. */
  function Find(s: string, marks: set<char>): (r: Option<nat>)
    ensures r.Some? ==> r.value < |s| && s[r.value] in marks
    ensures r.Some? ==> forall i :: 0 <= i < r.value ==> s[i] !in marks
    ensures r.None? ==> forall i :: 0 <= i < |s| ==> s[i] !in marks
  {
    if s == [] then None
    else if s[0] in marks then Some(0)
    else match Find(s[1..], marks)
      case None => None
      case Some(k) => Some(k + 1)
  }

  /** Splits an optional leading sign off: (negative?, rest). */
  function SplitSign(s: string): (bool, string) {
    if s != [] && (s[0] == '-' || s[0] == '+') then (s[0] == '-', s[1..]) else (false, s)
  }

  function Signed(negative: bool, n: nat): int {
    if negative then -(n as int) else n
  }

  /** The coefficient digits and the number of fraction digits of
      `digits '.' [digits] | ['.'] digits`. */
  function ParseMantissa(s: string): Option<(nat, nat)> {
    match Find(s, PointMark)
    case None =>
      if s != [] && AllDigits(s) then Some((DigitsValue(s), 0)) else None
    case Some(p) =>
      var whole, frac := s[..p], s[p + 1..];
      if AllDigits(whole) && AllDigits(frac) && |whole| + |frac| > 0
      then Some((DigitsValue(whole + frac), |frac|))
      else None
  }

  /** `[sign] digits`, the exponent after the indicator. */
  function ParseExponent(s: string): Option<int> {
    var (negative, digits) := SplitSign(s);
    if digits != [] && AllDigits(digits) then Some(Signed(negative, DigitsValue(digits))) else None
  }

  const PointMark: set<char> := {'.'}
  const ExponentMarks: set<char> := {'e', 'E'}

  /** Splits an unsigned numeric string at its exponent indicator. */
  function SplitExponent(body: string): (string, Option<string>) {
    match Find(body, ExponentMarks)
    case None => (body, None)
    case Some(k) => (body[..k], Some(body[k + 1..]))
  }

  /** Magnitude and exponent of an unsigned numeric string. */
  function ParseUnsigned(body: string): Option<(nat, int)> {
    var (mantissa, exponentText) := SplitExponent(body);
    match ParseMantissa(mantissa)
    case None => None
    case Some((digits, fracLen)) =>
      match exponentText
      case None => Some((digits, -(fracLen as int)))
      case Some(t) =>
        match ParseExponent(t)
        case None => None
        case Some(e) => Some((digits, e - fracLen))
  }

  /** `Decimal(s)`: None where Python raises `InvalidOperation`. */
  function Parse(s: string): Option<Decimal> {
    var (negative, body) := SplitSign(s);
    match ParseUnsigned(body)
    case None => None
    case Some((magnitude, e)) => Some(Decimal(Signed(negative, magnitude), e))
  }

  /** `Decimal.normalize()`: trailing zeros of the coefficient are folded
      into the exponent; zero becomes `Decimal(0, 0)`. */
  function Normalize(d: Decimal): (r: Decimal)
    ensures r.coefficient == 0 ==> r == Decimal(0, 0)
    ensures r.coefficient % 10 != 0 || r.coefficient == 0
    decreases if d.coefficient < 0 then -d.coefficient else d.coefficient
  {
    if d.coefficient == 0 then Decimal(0, 0)
    else if d.coefficient % 10 == 0 then Normalize(Decimal(d.coefficient / 10, d.exponent + 1))
    else d
  }

  // ---------------------------------------------------------------------
  // Text forms
  // ---------------------------------------------------------------------

  /** A canonical text `<coefficient>E<exponent>` that `Parse` reads back. */
  function SciText(d: Decimal): string {
    var magnitude: nat := if d.coefficient < 0 then -d.coefficient else d.coefficient;
    (if d.coefficient < 0 then "-" else "") + (NatText(magnitude) + "E" + IntText(d.exponent))
  }

  /** Leading zeros that pad `s` to at least `width` characters. */
  function ZeroPad(s: string, width: nat): (r: string)
    ensures |r| >= width && |r| >= |s|
    decreases width - |s|
  {
    if |s| >= width then s else ZeroPad("0" + s, width)
  }

  /** Positional text of a normalized decimal with at least one fraction
      digit, the way Python writes a float such as `0.5` or `52.0`. */
  function PointText(d: Decimal): (r: string)
    ensures r != []
  {
    var n := Normalize(d);
    var sign := if n.coefficient < 0 then "-" else "";
    var magnitude: nat := if n.coefficient < 0 then -n.coefficient else n.coefficient;
    if n.exponent >= 0 then sign + NatText(magnitude * Pow10(n.exponent)) + ".0"
    else
      var digits := ZeroPad(NatText(magnitude), -n.exponent + 1);
      sign + digits[..|digits| + n.exponent] + "." + digits[|digits| + n.exponent..]
  }

  /** The text Python gives a float bound in a message (`-inf`, `inf`, `4.0`). */
  function LimitText(limit: Limit): string {
    match limit
    case NegInfinity => "-inf"
    case PosInfinity => "inf"
    case Finite(m) => PointText(m)
  }

  // ---------------------------------------------------------------------
  // Lemmas
  // ---------------------------------------------------------------------

  lemma {:induction false} DigitsValueOfNatText(n: nat)
    ensures AllDigits(NatText(n)) && DigitsValue(NatText(n)) == n
  {
    if n >= 10 {
      DigitsValueOfNatText(n / 10);
      var t := NatText(n);
      assert t[..|t| - 1] == NatText(n / 10);
    }
  }

  /** An integer's text is read back as that integer with an optional sign. */
  lemma IntTextSplits(i: int)
    ensures var (negative, digits) := SplitSign(IntText(i));
            AllDigits(digits) && digits != [] && Signed(negative, DigitsValue(digits)) == i
  {
    var t := IntText(i);
    if i < 0 {
      var n: nat := -i;
      DigitsValueOfNatText(n);
      assert t == "-" + NatText(n);
      assert t[0] == '-' && t[1..] == NatText(n);
      assert SplitSign(t) == (true, NatText(n));
    } else {
      DigitsValueOfNatText(i);
      assert t == NatText(i);
      assert IsDigit(t[0]);
      assert SplitSign(t) == (false, t);
    }
  }

  lemma FindNone(s: string, marks: set<char>)
    requires forall i :: 0 <= i < |s| ==> s[i] !in marks
    ensures Find(s, marks) == None
  {
  }

  lemma FindAt(s: string, marks: set<char>, k: nat)
    requires k < |s| && s[k] in marks
    requires forall i :: 0 <= i < k ==> s[i] !in marks
    ensures Find(s, marks) == Some(k)
  {
  }

  lemma ParseUnsignedSci(digits: string, e: int)
    requires AllDigits(digits) && digits != []
    ensures ParseUnsigned(digits + "E" + IntText(e)) == Some((DigitsValue(digits), e))
  {
    var body := digits + "E" + IntText(e);
    var k := |digits|;
    assert body[k] == 'E';
    assert forall i :: 0 <= i < k ==> body[i] == digits[i];
    FindAt(body, ExponentMarks, k);
    assert body[..k] == digits;
    assert body[k + 1..] == IntText(e);
    assert SplitExponent(body) == (digits, Some(IntText(e)));
    FindNone(digits, PointMark);
    IntTextSplits(e);
  }

  /** A sign written before an unsigned numeric string applies to its value. */
  lemma ParseSigned(negative: bool, body: string, magnitude: nat, e: int)
    requires ParseUnsigned(body) == Some((magnitude, e))
    requires body != [] && body[0] != '-' && body[0] != '+'
    ensures Parse((if negative then "-" else "") + body) == Some(Decimal(Signed(negative, magnitude), e))
  {
    var s := (if negative then "-" else "") + body;
    if negative {
      assert s[1..] == body;
    } else {
      assert s == body;
    }
    assert SplitSign(s) == (negative, body);
  }

  /** Round trip: every decimal, written in `SciText` form, parses back to
      exactly that coefficient and exponent. */
  lemma ParseSciText(d: Decimal)
    ensures Parse(SciText(d)) == Some(d)
  {
    var c, e := d.coefficient, d.exponent;
    var magnitude: nat := if c < 0 then -c else c;
    var digits := NatText(magnitude);
    var body := digits + "E" + IntText(e);
    DigitsValueOfNatText(magnitude);
    ParseUnsignedSci(digits, e);
    assert body[0] == digits[0];
    ParseSigned(c < 0, body, magnitude, e);
  }

  lemma AllDigitsAppend(a: string, b: string)
    requires AllDigits(a) && AllDigits(b)
    ensures AllDigits(a + b)
  {
    forall i | 0 <= i < |a + b| ensures IsDigit((a + b)[i]) {
      if i < |a| { assert (a + b)[i] == a[i]; } else { assert (a + b)[i] == b[i - |a|]; }
    }
  }

  /** The last digit of a digit string and the value of the digits before it. */
  lemma DigitsValueLast(s: string)
    requires AllDigits(s) && s != []
    ensures AllDigits(s[..|s| - 1])
    ensures DigitsValue(s) == 10 * DigitsValue(s[..|s| - 1]) + (s[|s| - 1] as int - '0' as int)
  {
  }

  lemma ShiftDigit(x: int, p: int, y: int, last: int)
    ensures 10 * (x * p + y) + last == x * (10 * p) + (10 * y + last)
  {
  }

  lemma {:induction false} DigitsValueAppend(a: string, b: string)
    requires AllDigits(a) && AllDigits(b)
    ensures AllDigits(a + b)
    ensures DigitsValue(a + b) == DigitsValue(a) * Pow10(|b|) + DigitsValue(b)
  {
    AllDigitsAppend(a, b);
    if b == [] {
      assert a + b == a;
    } else {
      var ab := a + b;
      var b' := b[..|b| - 1];
      assert AllDigits(b');
      assert ab[..|ab| - 1] == a + b';
      assert ab[|ab| - 1] == b[|b| - 1];
      DigitsValueAppend(a, b');
      DigitsValueLast(ab);
      DigitsValueLast(b);
      assert Pow10(|b|) == 10 * Pow10(|b'|);
      ShiftDigit(DigitsValue(a), Pow10(|b'|), DigitsValue(b'), b[|b| - 1] as int - '0' as int);
    }
  }

  /** Digits, a point and digits: only the point is a mark of either kind. */
  lemma PointedMarks(whole: string, frac: string)
    requires AllDigits(whole) && AllDigits(frac)
    ensures var body := whole + "." + frac;
            (forall i :: 0 <= i < |body| ==> body[i] !in ExponentMarks) &&
            (forall i :: 0 <= i < |whole| ==> body[i] !in PointMark) &&
            body[|whole|] in PointMark
  {
    var body := whole + "." + frac;
    forall i | 0 <= i < |body| ensures body[i] !in ExponentMarks && (i < |whole| ==> body[i] !in PointMark) {
      if i < |whole| { assert body[i] == whole[i]; }
      else if i > |whole| { assert body[i] == frac[i - |whole| - 1]; }
    }
  }

  lemma ParseMantissaPointed(whole: string, frac: string)
    requires AllDigits(whole) && AllDigits(frac) && |whole| + |frac| > 0
    ensures AllDigits(whole + frac)
    ensures ParseMantissa(whole + "." + frac) == Some((DigitsValue(whole + frac), |frac|))
  {
    AllDigitsAppend(whole, frac);
    var body := whole + "." + frac;
    PointedMarks(whole, frac);
    FindAt(body, PointMark, |whole|);
    assert body[..|whole|] == whole && body[|whole| + 1..] == frac;
  }

  lemma ParseUnsignedPointed(whole: string, frac: string)
    requires AllDigits(whole) && AllDigits(frac) && |whole| + |frac| > 0
    ensures AllDigits(whole + frac)
    ensures ParseUnsigned(whole + "." + frac) == Some((DigitsValue(whole + frac), -|frac|))
  {
    var body := whole + "." + frac;
    PointedMarks(whole, frac);
    FindNone(body, ExponentMarks);
    assert SplitExponent(body) == (body, None);
    ParseMantissaPointed(whole, frac);
  }

  /** What the spinbox relies on: a plain `[-]whole.frac` string parses to a
      decimal whose exponent is minus the number of fraction digits. */
  lemma ParsePointed(negative: bool, whole: string, frac: string)
    requires AllDigits(whole) && AllDigits(frac) && |whole| + |frac| > 0
    ensures AllDigits(whole + frac)
    ensures Parse((if negative then "-" else "") + (whole + "." + frac))
            == Some(Decimal(Signed(negative, DigitsValue(whole + frac)), -|frac|))
  {
    ParseUnsignedPointed(whole, frac);
    var body := whole + "." + frac;
    if whole != [] { assert body[0] == whole[0]; } else { assert body[0] == '.'; }
    ParseSigned(negative, body, DigitsValue(whole + frac), -|frac|);
  }

  /** A string of digits alone parses with exponent 0. */
  lemma ParseDigits(negative: bool, digits: string)
    requires AllDigits(digits) && digits != []
    ensures Parse((if negative then "-" else "") + digits)
            == Some(Decimal(Signed(negative, DigitsValue(digits)), 0))
  {
    FindNone(digits, ExponentMarks);
    FindNone(digits, PointMark);
    assert SplitExponent(digits) == (digits, None);
    ParseSigned(negative, digits, DigitsValue(digits), 0);
  }

  lemma ScaleStep(e: int)
    ensures Scale(e + 1) == 10.0 * Scale(e)
  {
    if e >= 0 {
      assert Pow10(e + 1) == 10 * Pow10(e);
    } else if e < -1 {
      var p := Pow10(-e - 1);
      assert Pow10(-e) == 10 * p;
      var r := p as real;
      assert Scale(e) == 1.0 / (10.0 * r);
      assert Scale(e + 1) == 1.0 / r;
      assert 10.0 * (1.0 / (10.0 * r)) == 1.0 / r;
    }
  }

  /** Dropping a trailing zero of the coefficient into the exponent keeps the value. */
  lemma ShiftKeepsValue(q: int, e: int)
    ensures Value(Decimal(q, e + 1)) == Value(Decimal(10 * q, e))
  {
    ScaleStep(e);
    var s := Scale(e);
    assert Value(Decimal(q, e + 1)) == q as real * (10.0 * s);
    assert q as real * (10.0 * s) == (q as real * 10.0) * s;
    assert (10 * q) as real == q as real * 10.0;
  }

  /** Normalizing never changes the number a decimal denotes. */
  lemma {:induction false} NormalizeKeepsValue(d: Decimal)
    ensures Value(Normalize(d)) == Value(d)
    decreases if d.coefficient < 0 then -d.coefficient else d.coefficient
  {
    if d.coefficient != 0 && d.coefficient % 10 == 0 {
      var q := d.coefficient / 10;
      assert d.coefficient == 10 * q;
      NormalizeKeepsValue(Decimal(q, d.exponent + 1));
      ShiftKeepsValue(q, d.exponent);
    }
  }
}
