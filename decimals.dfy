/**
 * Finite `decimal.Decimal` values as the bill parser builds and prints them:
 * construction from a string (`Decimal("1234.56")`) and `str()` of the
 * result. Only the plain notation the parser's patterns can capture is
 * accepted: an optional sign, decimal digits and at most one point.
 */
module Decimals {
  import opened Wrappers
  import opened PyStr

  /** Sign, coefficient and exponent `-scale`, as Python keeps them: "45.0"
      and "45.00" are different values here because their `str()` differs. */
  datatype Decimal = Decimal(negative: bool, coefficient: nat, scale: nat)

  predicate AllDigits(s: string) {
    forall i :: 0 <= i < |s| ==> IsDigit(s[i])
  }

  function DigitValue(c: char): nat
    requires IsDigit(c)
  {
    c as int - '0' as int
  }

  function DigitChar(n: nat): (c: char)
    requires n < 10
    ensures IsDigit(c) && DigitValue(c) == n
  {
    ('0' as int + n) as char
  }

  /** The number a digit string denotes, most significant digit first. */
  function DigitsValue(s: string): nat
    requires AllDigits(s)
  {
    if s == [] then 0 else DigitsValue(s[..|s| - 1]) * 10 + DigitValue(s[|s| - 1])
  }

  /** The decimal digits of `n` without leading zeros ("0" for zero). */
  function NatDigits(n: nat): (r: string)
    ensures |r| > 0 && AllDigits(r) && DigitsValue(r) == n
    ensures |r| > 1 ==> r[0] != '0'
  {
    if n < 10 then [DigitChar(n)]
    else
      var r := NatDigits(n / 10) + [DigitChar(n % 10)];
      assert r[..|r| - 1] == NatDigits(n / 10);
      r
  }

  function Zeros(k: nat): (r: string)
    ensures |r| == k && AllDigits(r)
  {
    seq(k, _ => '0')
  }

  /** Leading zeros do not change the value of a digit string. */
  lemma {:induction false} LeadingZeros(k: nat, ds: string)
    requires AllDigits(ds)
    ensures AllDigits(Zeros(k) + ds) && DigitsValue(Zeros(k) + ds) == DigitsValue(ds)
  {
    var s := Zeros(k) + ds;
    if ds == [] {
      assert s == Zeros(k);
      if k > 0 {
        assert s[..|s| - 1] == Zeros(k - 1) + ds;
        LeadingZeros(k - 1, ds);
      }
    } else {
      assert s[..|s| - 1] == Zeros(k) + ds[..|ds| - 1];
      LeadingZeros(k, ds[..|ds| - 1]);
    }
  }

  /** Index of the first '.' in `s`, or `|s|` when there is none. */
  function FirstDot(s: string): (k: nat)
    ensures k <= |s| && '.' !in s[..k]
    ensures k < |s| ==> s[k] == '.'
  {
    if s == [] then 0
    else if s[0] == '.' then 0
    else
      var k := 1 + FirstDot(s[1..]);
      assert s[..k] == [s[0]] + s[1..][..k - 1];
      k
  }

  lemma FirstDotIs(s: string, k: nat)
    requires k <= |s| && forall i :: 0 <= i < k ==> s[i] != '.'
    requires k < |s| ==> s[k] == '.'
    ensures FirstDot(s) == k
  {
  }

  /** The string without its leading sign character. */
  function Unsigned(s: string): string {
    if |s| > 0 && (s[0] == '+' || s[0] == '-') then s[1..] else s
  }

  /** The accepted literals, stated on the characters: after an optional
      sign, only digits and points, at most one point, at least one digit. */
  ghost predicate IsDecimalLiteral(s: string) {
    var body := Unsigned(s);
    && (forall i :: 0 <= i < |body| ==> IsDigit(body[i]) || body[i] == '.')
    && (forall i, j :: 0 <= i < j < |body| && body[i] == '.' ==> body[j] != '.')
    && (exists i :: 0 <= i < |body| && IsDigit(body[i]))
  }

  /** `Decimal(s)` for the plain notation: `None` where Python raises
      `InvalidOperation`. The coefficient is the value of all digits, the
      scale the number of digits after the point. */
  function ParseDecimal(s: string): (r: Option<Decimal>)
    ensures r.Some? ==> r.value.negative == (|s| > 0 && s[0] == '-')
  {
    var body := Unsigned(s);
    var k := FirstDot(body);
    var whole := body[..k];
    var fraction := if k < |body| then body[k + 1..] else "";
    if AllDigits(whole) && AllDigits(fraction) && |whole| + |fraction| > 0 then
      Some(Decimal(|s| > 0 && s[0] == '-', DigitsValue(whole + fraction), |fraction|))
    else None
  }

  /** What `ParseDecimal` accepts is a literal of the grammar. */
  lemma {:induction false} AcceptedIsLiteral(s: string)
    requires ParseDecimal(s).Some?
    ensures IsDecimalLiteral(s)
  {
    var body := Unsigned(s);
    var k := FirstDot(body);
    var whole := body[..k];
    var fraction := if k < |body| then body[k + 1..] else "";
    forall i | 0 <= i < |body|
      ensures IsDigit(body[i]) || body[i] == '.'
    {
      if i < k {
        assert body[i] == whole[i];
      } else if i > k {
        assert body[i] == fraction[i - k - 1];
      }
    }
    forall i, j | 0 <= i < j < |body| && body[i] == '.'
      ensures body[j] != '.'
    {
      assert body[j] == fraction[j - k - 1];
    }
    if |whole| > 0 {
      assert body[0] == whole[0];
    } else {
      assert body[k + 1] == fraction[0];
    }
  }

  /** Every literal of the grammar is accepted by `ParseDecimal`. */
  lemma {:induction false} LiteralIsAccepted(s: string)
    requires IsDecimalLiteral(s)
    ensures ParseDecimal(s).Some?
  {
    var body := Unsigned(s);
    var k := FirstDot(body);
    var whole := body[..k];
    var fraction := if k < |body| then body[k + 1..] else "";
    assert forall i :: 0 <= i < |whole| ==> whole[i] == body[i] && body[i] != '.';
    assert AllDigits(whole);
    var d :| 0 <= d < |body| && IsDigit(body[d]);
    if k < |body| {
      assert forall i :: 0 <= i < |fraction| ==> fraction[i] == body[k + 1 + i];
      assert AllDigits(fraction);
      if d > k {
        assert fraction[d - k - 1] == body[d];
      }
    }
    assert |whole| + |fraction| > 0;
    ParseParts(s, whole, fraction);
  }

  /** `ParseDecimal` accepts exactly the literals of the grammar. */
  lemma ParseDecimalAccepts(s: string)
    ensures ParseDecimal(s).Some? <==> IsDecimalLiteral(s)
  {
    if ParseDecimal(s).Some? {
      AcceptedIsLiteral(s);
    }
    if IsDecimalLiteral(s) {
      LiteralIsAccepted(s);
    }
  }

  function Sign(d: Decimal): string {
    if d.negative then "-" else ""
  }

  /** Python's `str(Decimal)`: plain notation while the position of the
      point, counted from the left of the digits, is above -6; otherwise
      scientific notation with one digit before the point, as in "1E-7". */
  function DecimalToString(d: Decimal): (r: string)
    ensures 'E' in r <==> |NatDigits(d.coefficient)| - d.scale <= -6
  {
    var digits := NatDigits(d.coefficient);
    var left := |digits| - d.scale;
    if left > -6 then
      if left <= 0 then
        assert AllDigits(Zeros(-left) + digits);
        Sign(d) + "0" + "." + (Zeros(-left) + digits)
      else if d.scale == 0 then
        Sign(d) + digits
      else
        Sign(d) + digits[..left] + "." + digits[left..]
    else
      var r := Sign(d) + digits[..1] + (if |digits| > 1 then "." + digits[1..] else "") + "E-" + NatDigits(1 - left);
      assert r[|r| - |NatDigits(1 - left)| - 2] == 'E';
      r
  }

  /** A sign of "" or "-" in front of digits and points is read off by
      `Unsigned`, and only "-" makes the value negative. */
  lemma {:induction false} SignedBody(sign: string, body: string)
    requires sign == "" || sign == "-"
    requires |body| > 0 && (IsDigit(body[0]) || body[0] == '.')
    ensures Unsigned(sign + body) == body
    ensures (|sign + body| > 0 && (sign + body)[0] == '-') == (sign == "-")
  {
    if sign == "-" {
      assert (sign + body)[0] == '-' && (sign + body)[1..] == body;
    } else {
      assert sign + body == body;
    }
  }

  /** The first point of `whole + "." + fraction` splits it back. */
  lemma {:induction false} PointSplits(whole: string, fraction: string)
    requires AllDigits(whole)
    ensures var body := whole + "." + fraction;
      && FirstDot(body) == |whole|
      && body[..|whole|] == whole && body[|whole| + 1..] == fraction
  {
    var body := whole + "." + fraction;
    assert forall i :: 0 <= i < |whole| ==> body[i] == whole[i] && body[i] != '.';
    FirstDotIs(body, |whole|);
    assert body[..|whole|] == whole;
    assert body[|whole| + 1..] == fraction;
  }

  /** Reading a sign, a whole part, a point and a fraction. */
  lemma {:induction false} ParseWithPoint(s: string, sign: string, whole: string, fraction: string, v: nat)
    requires sign == "" || sign == "-"
    requires AllDigits(whole) && AllDigits(fraction) && |whole| + |fraction| > 0
    requires s == sign + whole + "." + fraction && v == DigitsValue(whole + fraction)
    ensures ParseDecimal(s) == Some(Decimal(sign == "-", v, |fraction|))
  {
    var body := whole + "." + fraction;
    assert s == sign + body;
    assert body[0] == if |whole| > 0 then whole[0] else '.';
    SignedBody(sign, body);
    PointSplits(whole, fraction);
  }

  /** Reading digits, a point and digits, without a sign. */
  lemma {:induction false} ParsePlainPoint(whole: string, fraction: string)
    requires AllDigits(whole) && AllDigits(fraction) && |whole| > 0
    ensures ParseDecimal(whole + "." + fraction) == Some(Decimal(false, DigitsValue(whole + fraction), |fraction|))
  {
    assert "" + whole + "." + fraction == whole + "." + fraction;
    ParseWithPoint(whole + "." + fraction, "", whole, fraction, DigitsValue(whole + fraction));
  }

  /** A digit string has no point. */
  lemma {:induction false} NoPointInDigits(digits: string)
    requires AllDigits(digits)
    ensures FirstDot(digits) == |digits| && digits[..|digits|] == digits
  {
    FirstDotIs(digits, |digits|);
  }

  /** Reading a sign and digits without a point. */
  lemma {:induction false} ParseWithoutPoint(sign: string, digits: string)
    requires sign == "" || sign == "-"
    requires AllDigits(digits) && |digits| > 0
    ensures ParseDecimal(sign + digits) == Some(Decimal(sign == "-", DigitsValue(digits), 0))
  {
    SignedBody(sign, digits);
    NoPointInDigits(digits);
    ParseParts(sign + digits, digits, "");
    assert digits + "" == digits;
  }

  /** `ParseDecimal` once the whole part and the fraction are known. */
  lemma {:induction false} ParseParts(s: string, whole: string, fraction: string)
    requires var body := Unsigned(s); var k := FirstDot(body);
      && body[..k] == whole && (if k < |body| then body[k + 1..] else "") == fraction
    ensures ParseDecimal(s) ==
      if AllDigits(whole) && AllDigits(fraction) && |whole| + |fraction| > 0 then
        Some(Decimal(|s| > 0 && s[0] == '-', DigitsValue(whole + fraction), |fraction|))
      else None
  {
  }

  /** Below one, `str` writes "0." and the digits after leading zeros. */
  lemma {:induction false} FractionText(d: Decimal)
    requires -6 < |NatDigits(d.coefficient)| - d.scale <= 0
    ensures DecimalToString(d) == Sign(d) + "0" + "." + (Zeros(d.scale - |NatDigits(d.coefficient)|) + NatDigits(d.coefficient))
  {
  }

  /** "0" and leading zeros in front of the digits keep their value. */
  lemma {:induction false} FractionValue(k: nat, digits: string)
    requires AllDigits(digits)
    ensures AllDigits(Zeros(k) + digits) && AllDigits("0" + (Zeros(k) + digits))
    ensures DigitsValue("0" + (Zeros(k) + digits)) == DigitsValue(digits)
  {
    LeadingZeros(k, digits);
    assert "0" + (Zeros(k) + digits) == Zeros(k + 1) + digits;
    LeadingZeros(k + 1, digits);
  }

  lemma {:induction false} RoundTripFraction(d: Decimal)
    requires -6 < |NatDigits(d.coefficient)| - d.scale <= 0
    ensures ParseDecimal(DecimalToString(d)) == Some(d)
  {
    var digits := NatDigits(d.coefficient);
    var k: nat := d.scale - |digits|;
    var fraction := Zeros(k) + digits;
    FractionText(d);
    FractionValue(k, digits);
    assert |fraction| == d.scale;
    assert Sign(d) == "-" <==> d.negative;
    ParseWithPoint(DecimalToString(d), Sign(d), "0", fraction, d.coefficient);
  }

  lemma RoundTripInteger(d: Decimal)
    requires d.scale == 0
    ensures ParseDecimal(DecimalToString(d)) == Some(d)
  {
    ParseWithoutPoint(Sign(d), NatDigits(d.coefficient));
  }

  lemma RoundTripPoint(d: Decimal)
    requires 0 < |NatDigits(d.coefficient)| - d.scale && d.scale > 0
    ensures ParseDecimal(DecimalToString(d)) == Some(d)
  {
    var digits := NatDigits(d.coefficient);
    var left := |digits| - d.scale;
    var w, f := digits[..left], digits[left..];
    assert w + f == digits;
    assert AllDigits(w) && AllDigits(f) by {
      assert forall i :: 0 <= i < |w| ==> w[i] == digits[i];
      assert forall i :: 0 <= i < |f| ==> f[i] == digits[left + i];
    }
    var s := Sign(d) + w + "." + f;
    assert DecimalToString(d) == s;
    ParseWithPoint(s, Sign(d), w, f, d.coefficient);
    assert Decimal(Sign(d) == "-", d.coefficient, |f|) == d;
  }

  /** Printing a decimal in plain notation and reading it back gives the
      same sign, coefficient and scale. */
  lemma PlainRoundTrip(d: Decimal)
    requires |NatDigits(d.coefficient)| - d.scale > -6
    ensures ParseDecimal(DecimalToString(d)) == Some(d)
  {
    var left := |NatDigits(d.coefficient)| - d.scale;
    if left <= 0 {
      RoundTripFraction(d);
    } else if d.scale == 0 {
      RoundTripInteger(d);
    } else {
      RoundTripPoint(d);
    }
  }

  /** Scientific notation is not read back by the plain grammar. */
  lemma ScientificNotRead(d: Decimal)
    requires |NatDigits(d.coefficient)| - d.scale <= -6
    ensures ParseDecimal(DecimalToString(d)) == None
  {
    var s := DecimalToString(d);
    ParseDecimalAccepts(s);
    var body := Unsigned(s);
    var e :| 0 <= e < |s| && s[e] == 'E';
    assert s[0] == '-' ==> body == s[1..];
    assert s[0] != '-' ==> s[0] != '+' && body == s;
    assert e >= |s| - |body|;
    assert body[e - (|s| - |body|)] == 'E';
  }
}
