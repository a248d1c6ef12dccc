/**
 * Decimal text for integers, booleans and numbers: Go's `strconv.Atoi`, `strconv.ParseBool`,
 * `strconv.ParseFloat` (for plain decimal notation) and the `%d` verb of `fmt`.
 */
module Decimal {
  import opened Wrappers

  /** Bounds of Go's 64-bit `int`. */
  const MinInt64: int := -0x8000_0000_0000_0000
  const MaxInt64: int := 0x7fff_ffff_ffff_ffff

  predicate IsDigit(c: char) {
    '0' <= c <= '9'
  }

  predicate AllDigits(s: string) {
    forall i :: 0 <= i < |s| ==> IsDigit(s[i])
  }

  function DigitChar(d: nat): (c: char)
    requires d < 10
    ensures IsDigit(c)
  {
    (d + '0' as int) as char
  }

  /** The value of a run of decimal digits, most significant first. */
  function DigitsValue(s: string): nat
    requires AllDigits(s)
  {
    if s == [] then 0 else DigitsValue(s[..|s| - 1]) * 10 + (s[|s| - 1] as int - '0' as int)
  }

  /**
   * The decimal text of `n` (the `%d` verb). It is a non-empty run of digits with no
   * leading zero, and reading it back gives `n`.
   */
  function NatToString(n: nat): (s: string)
    ensures |s| >= 1 && AllDigits(s)
    ensures s[0] == '0' ==> n == 0 && s == "0"
    ensures DigitsValue(s) == n
  {
    if n < 10 then [DigitChar(n)]
    else
      var s := NatToString(n / 10) + [DigitChar(n % 10)];
      assert s[..|s| - 1] == NatToString(n / 10);
      s
  }

  /** The decimal text of a possibly negative `n`, with a leading `-` when negative. */
  function IntToString(n: int): string {
    if n < 0 then "-" + NatToString(-n) else NatToString(n)
  }

  /**
   * Go's `strconv.Atoi` on a 64-bit platform: an optional sign, then at least one
   * decimal digit and nothing else; a value outside the 64-bit range is an error.
   * Leading zeros are accepted; spaces and underscores are not.
   */
  function Atoi(s: string): (r: Option<int>)
    ensures r.Some? ==> MinInt64 <= r.value <= MaxInt64
    ensures r.Some? ==> s != [] && (IsDigit(s[0]) || s[0] == '+' || s[0] == '-')
    ensures r.Some? <==>
      && s != [] && Unsigned(s) != [] && AllDigits(Unsigned(s))
      && (if s[0] == '-' then DigitsValue(Unsigned(s)) <= -MinInt64 else DigitsValue(Unsigned(s)) <= MaxInt64)
    ensures r.Some? ==> r.value == (if s[0] == '-' then -(DigitsValue(Unsigned(s)) as int) else DigitsValue(Unsigned(s)))
  {
    if s == [] then None
    else
      var digits := Unsigned(s);
      if digits == [] || !AllDigits(digits) then None
      else
        var v: int := if s[0] == '-' then -(DigitsValue(digits) as int) else DigitsValue(digits);
        if MinInt64 <= v <= MaxInt64 then Some(v) else None
  }

  /** What follows an optional leading `+` or `-`. */
  function Unsigned(s: string): (u: string)
    requires s != []
    ensures |s| - 1 <= |u| <= |s| && u == s[|s| - |u|..]
  {
    if s[0] == '+' || s[0] == '-' then s[1..] else s
  }

  /** Any character other than a digit after the optional sign is refused. */
  lemma AtoiRejectsMalformed(s: string, i: nat)
    requires i < |s| && !IsDigit(s[i]) && !(i == 0 && (s[0] == '+' || s[0] == '-'))
    ensures Atoi(s) == None
  {
    var digits := Unsigned(s);
    var j := i - (|s| - |digits|);
    assert !AllDigits(digits) by {
      assert 0 <= j < |digits| && digits[j] == s[i];
    }
  }

  /**
   * The written form of a magnitude beyond `MaxInt64` is refused, and with a `-` in front
   * it is accepted exactly up to `-MinInt64`.
   */
  lemma AtoiRange(n: nat)
    ensures n > MaxInt64 ==> Atoi(NatToString(n)) == None
    ensures Atoi("-" + NatToString(n)) == (if n <= -MinInt64 then Some(-(n as int)) else None)
  {
    assert Unsigned("-" + NatToString(n)) == NatToString(n);
  }

  /** `Atoi` reads back every 64-bit integer that `IntToString` writes. */
  lemma AtoiIntToString(n: int)
    requires MinInt64 <= n <= MaxInt64
    ensures Atoi(IntToString(n)) == Some(n)
  {
    if n < 0 {
      assert IntToString(n)[1..] == NatToString(-n);
    }
  }

  /** Go's `strconv.ParseBool`: the twelve spellings it accepts, anything else is an error. */
  function ParseBool(s: string): (r: Option<bool>)
    ensures r == Some(true) <==> s in {"1", "t", "T", "TRUE", "true", "True"}
    ensures r == Some(false) <==> s in {"0", "f", "F", "FALSE", "false", "False"}
  {
    if s in {"1", "t", "T", "TRUE", "true", "True"} then Some(true)
    else if s in {"0", "f", "F", "FALSE", "false", "False"} then Some(false)
    else None
  }

  function Pow10(k: nat): (p: nat)
    ensures p >= 1
  {
    if k == 0 then 1 else 10 * Pow10(k - 1)
  }

  /** Plain decimal notation without the sign: digits with at most one point among them, and at least one digit. */
  predicate DecimalForm(b: string) {
    || (b != [] && AllDigits(b))
    || (exists k :: 0 <= k < |b| && b[k] == '.' && |b| > 1 && AllDigits(b[..k]) && AllDigits(b[k + 1..]))
  }

  /** The largest finite float64, (2 - 2^-52) * 2^1023. */
  const MaxFloat64: int := 179769313486231570814527423731704356798070567525844996598917476803157260780028538760589558632766878171540458953514382464234321326889464182768467546703537516986049910576551282076245490090389328944075868508455133942304583236903222948165808559332123348274797826204144723168738177180919299881250404026184124858368

  /**
   * The midpoint between `MaxFloat64` and 2^1024, that is 2^1024 - 2^970. `ParseFloat` rounds
   * to nearest with ties to even, and `MaxFloat64` has an odd mantissa, so a magnitude at or
   * above this point rounds to infinity and is refused with `ErrRange`; below it the text
   * rounds to a finite value.
   */
  const Float64Overflow: int := 179769313486231580793728971405303415079934132710037826936173778980444968292764750946649017977587207096330286416692887910946555547851940402630657488671505820681908902000708383676273854845817711531764475730270069855571366959622842914819860834936475292719074168444365510704342711559699508093042880177904174497792

  /**
   * Go's `strconv.ParseFloat` restricted to plain decimal notation: an optional sign,
   * digits, and optionally a point followed by digits, with at least one digit in all.
   * A magnitude that rounds to infinity is refused, as Go refuses it with `ErrRange`.
   * The value is exact.
   */
  function ParseDecimal(s: string): Option<real> {
    if s == [] then None
    else
      match ParseUnsigned(Unsigned(s))
      case None => None
      case Some(magnitude) =>
        if magnitude >= Float64Overflow as real then None
        else Some(if s[0] == '-' then -magnitude else magnitude)
  }

  /** The value of decimal notation without a sign: the whole part plus the fraction digits over their power of ten. */
  function ParseUnsigned(body: string): Option<real> {
    var point := PointIndex(body);
    var whole := body[..point];
    var frac := if point < |body| then body[point + 1..] else [];
    if |whole| + |frac| == 0 || !AllDigits(whole) || !AllDigits(frac) then None
    else Some(Magnitude(DigitsValue(whole), DigitsValue(frac), |frac|))
  }

  /** Unsigned text is accepted exactly in plain decimal notation; digits alone read as their integer value. */
  lemma ParseUnsignedAccepts(body: string)
    ensures ParseUnsigned(body).Some? <==> DecimalForm(body)
    ensures AllDigits(body) && body != [] ==> ParseUnsigned(body) == Some(DigitsValue(body) as real)
  {
    DecimalFormAtPoint(body);
    if AllDigits(body) {
      assert body[..|body|] == body;
    }
  }

  /**
   * `ParseDecimal` accepts exactly an optional sign followed by plain decimal notation whose
   * magnitude stays below the overflow point; an integer reads as its value, negated after
   * a `-`, or is refused when it is that large.
   */
  lemma ParseDecimalAccepts(s: string)
    ensures ParseDecimal(s).Some? ==> s != [] && DecimalForm(Unsigned(s))
    ensures s != [] && DecimalForm(Unsigned(s)) ==> ParseUnsigned(Unsigned(s)).Some?
    ensures s != [] && DecimalForm(Unsigned(s)) ==>
      (ParseDecimal(s).Some? <==> ParseUnsigned(Unsigned(s)).value < Float64Overflow as real)
    ensures s != [] && Unsigned(s) != [] && AllDigits(Unsigned(s)) ==>
      ParseDecimal(s) ==
        if DigitsValue(Unsigned(s)) >= Float64Overflow then None
        else Some(if s[0] == '-' then -(DigitsValue(Unsigned(s)) as real) else DigitsValue(Unsigned(s)) as real)
  {
    if s != [] {
      ParseUnsignedAccepts(Unsigned(s));
    }
  }

  /** A whole part plus `fraction` digits' value read as `digits` places after the point. */
  function Magnitude(whole: nat, fraction: nat, digits: nat): real {
    whole as real + fraction as real / Pow10(digits) as real
  }

  /** No point comes before a run of digits. */
  lemma {:induction false} PointAfterDigits(b: string, k: nat)
    requires k <= |b| && AllDigits(b[..k])
    ensures PointIndex(b) >= k
  {
    assert forall i :: 0 <= i < k ==> IsDigit(b[i]) by {
      forall i | 0 <= i < k
        ensures IsDigit(b[i])
      {
        assert b[..k][i] == b[i];
      }
    }
  }

  /** `DecimalForm` holds exactly when the text around the first point is digits, with a digit somewhere. */
  lemma DecimalFormAtPoint(b: string)
    ensures var point := PointIndex(b);
      var whole, frac := b[..point], if point < |b| then b[point + 1..] else [];
      && (DecimalForm(b) <==> |whole| + |frac| > 0 && AllDigits(whole) && AllDigits(frac))
      && (AllDigits(b) ==> point == |b|)
  {
    var point := PointIndex(b);
    if AllDigits(b) {
      assert b[..|b|] == b;
      PointAfterDigits(b, |b|);
    }
    if k :| 0 <= k < |b| && b[k] == '.' && |b| > 1 && AllDigits(b[..k]) && AllDigits(b[k + 1..]) {
      PointAfterDigits(b, k);
    }
    if point < |b| && AllDigits(b[..point]) && AllDigits(b[point + 1..]) && |b| > 1 {
      assert DecimalForm(b);
    }
  }

  /**
   * `ParseDecimal` reads back every integer that `IntToString` writes, unless its magnitude
   * reaches the overflow point (a `1` followed by 309 zeros, say), which it refuses.
   */
  lemma ParseDecimalIntToString(n: int)
    ensures ParseDecimal(IntToString(n)) ==
      if -Float64Overflow < n < Float64Overflow then Some(n as real) else None
  {
    var s := IntToString(n);
    ParseDecimalAccepts(s);
    if n < 0 {
      assert Unsigned(s) == NatToString(-n);
    }
  }

  /**
   * `ParseDecimal` reads a whole part, a point and a run of fraction digits as their exact
   * value, unless that value reaches the overflow point.
   */
  lemma ParseDecimalFraction(w: nat, d: string)
    requires AllDigits(d)
    ensures ParseDecimal(NatToString(w) + "." + d) ==
      if Magnitude(w, DigitsValue(d), |d|) < Float64Overflow as real then Some(Magnitude(w, DigitsValue(d), |d|))
      else None
  {
    var body := NatToString(w) + "." + d;
    FractionText(w, d);
    UnsignedMagnitude(body, Magnitude(w, DigitsValue(d), |d|));
  }

  /** `w.d` is unsigned text whose magnitude is w plus the fraction digits over ten to their count. */
  lemma FractionText(w: nat, d: string)
    requires AllDigits(d)
    ensures var body := NatToString(w) + "." + d;
      body[0] != '-' && Unsigned(body) == body && ParseUnsigned(body) == Some(Magnitude(w, DigitsValue(d), |d|))
  {
    var digits := NatToString(w);
    var body := digits + "." + d;
    FractionShape(digits, d);
    ParseUnsignedWithPoint(body, |digits|);
  }

  /** In `digits.d` the first point follows the digits, and the text starts with a digit. */
  lemma FractionShape(digits: string, d: string)
    requires digits != [] && AllDigits(digits) && AllDigits(d)
    ensures var body := digits + "." + d;
      && |body| > 1 && IsDigit(body[0]) && PointIndex(body) == |digits|
      && body[..|digits|] == digits && body[|digits| + 1..] == d
  {
    var body := digits + "." + d;
    assert body[..|digits|] == digits && body[|digits| + 1..] == d && body[|digits|] == '.';
    PointAfterDigits(body, |digits|);
    assert body[0] == digits[0];
  }

  /** An unsigned text whose magnitude is `m` parses to `m`, unless `m` reaches the overflow point. */
  lemma UnsignedMagnitude(body: string, m: real)
    requires body != [] && body[0] != '-' && Unsigned(body) == body && ParseUnsigned(body) == Some(m)
    ensures ParseDecimal(body) == if m < Float64Overflow as real then Some(m) else None
  {
  }

  /** A leading `-` in front of an unsigned number negates its value and accepts the same texts. */
  lemma ParseDecimalNegative(body: string)
    requires body != [] && body[0] != '+' && body[0] != '-'
    ensures ParseDecimal("-" + body) == (if ParseDecimal(body).Some? then Some(-ParseDecimal(body).value) else None)
  {
    assert Unsigned("-" + body) == body;
  }

  lemma ParseUnsignedWithPoint(body: string, point: nat)
    requires point < |body| && PointIndex(body) == point && |body| > 1
    requires AllDigits(body[..point]) && AllDigits(body[point + 1..])
    ensures ParseUnsigned(body) ==
      Some(Magnitude(DigitsValue(body[..point]), DigitsValue(body[point + 1..]), |body| - point - 1))
  {
    var frac := body[point + 1..];
    assert |frac| == |body| - point - 1;
    assert (if point < |body| then body[point + 1..] else []) == frac;
  }

  /** The index of the first `.` in `s`, or `|s|` when there is none. */
  function PointIndex(s: string): (k: nat)
    ensures k <= |s|
    ensures k < |s| ==> s[k] == '.'
    ensures forall i :: 0 <= i < k ==> s[i] != '.'
  {
    if s == [] then 0 else if s[0] == '.' then 0 else 1 + PointIndex(s[1..])
  }

  lemma ParseDecimalExamples()
    ensures ParseDecimal("0.5") == Some(0.5)
  {
    ParseDecimalFraction(0, "5");
    assert NatToString(0) + "." + "5" == "0.5";
    HalfMagnitude();
  }

  lemma HalfMagnitude()
    ensures Magnitude(0, DigitsValue("5"), |"5"|) == 0.5 < Float64Overflow as real
  {
    assert DigitsValue("5") == 5 by { assert "5"[..0] == ""; }
    assert Pow10(1) == 10;
  }

  /** Text that is neither digits nor a point is refused. */
  lemma ParseDecimalRejectsLetters(s: string)
    requires s != [] && s[0] != '+' && s[0] != '-' && !IsDigit(s[0]) && s[0] != '.'
    ensures ParseDecimal(s) == None
  {
    assert Unsigned(s) == s;
    var point := PointIndex(s);
    assert point >= 1 && s[..point][0] == s[0];
    assert ParseUnsigned(s) == None;
  }
}
