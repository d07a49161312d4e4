/**
 Which real number a text of the RPC samples denotes: whole numbers by their digits, and then how a
 sign, a further digit of the fraction, and the exponent change it.
 */
module RpcValues {
  import opened Common
  import opened RpcArguments

  function DigitsOf(n: nat): (digits: string)
    ensures digits != "" && AllDigits(digits)
  {
    var last := [('0' as int + n % 10) as char];
    if n < 10 then last else DigitsOf(n / 10) + last
  }

  lemma {:induction false} MagnitudeOfDigits(n: nat)
    ensures Magnitude(DigitsOf(n)) == n
  {
    var digits := DigitsOf(n);
    if n < 10 {
      assert digits[..0] == "";
    } else {
      MagnitudeOfDigits(n / 10);
      assert digits[..|digits| - 1] == DigitsOf(n / 10);
    }
  }

  // Leading zeros do not count.
  lemma {:induction false} LeadingZero(digits: string)
    requires AllDigits(digits)
    ensures Magnitude("0" + digits) == Magnitude(digits)
  {
    if digits == "" {
      assert ("0" + digits)[..0] == "";
    } else {
      var n := |digits| - 1;
      assert ("0" + digits)[..n + 1] == "0" + digits[..n];
      LeadingZero(digits[..n]);
    }
  }

  function IntText(n: int): string {
    if n < 0 then "-" + DigitsOf(-n) else DigitsOf(n)
  }

  function IntDecimal(n: int): Decimal {
    Decimal(if n < 0 then "-" else "", DigitsOf(if n < 0 then -n else n), None, None)
  }

  // A whole number is denoted by its digits, after a minus sign when it is negative.
  lemma IntIsDenoted(n: int)
    ensures var d := IntDecimal(n);
      WellFormed(d) && Text(d) == IntText(n) && Value(d) == n as real
  {
    MagnitudeOfDigits(if n < 0 then -n else n);
  }

  lemma {:induction false} TensNegated(x: real, n: nat)
    ensures Tens(-x, n) == -Tens(x, n) && Tenths(-x, n) == -Tenths(x, n)
  {
    if n > 0 {
      TensNegated(x, n - 1);
    }
  }

  // A plus sign changes nothing, and a minus sign changes the sign.
  lemma SignDecides(d: Decimal)
    requires WellFormed(d) && d.sign == ""
    ensures Value(d.(sign := "+")) == Value(d) && Value(d.(sign := "-")) == -Value(d)
  {
    assert Mantissa(d.(sign := "-")) == -Mantissa(d) && Mantissa(d.(sign := "+")) == Mantissa(d);
    if d.exp.Some? {
      TensNegated(Mantissa(d), Magnitude(d.exp.value.digits));
    }
  }

  lemma {:induction false} TenthsOfSum(x: real, y: real, n: nat)
    ensures Tenths(x + y, n) == Tenths(x, n) + Tenths(y, n)
  {
    if n > 0 {
      TenthsOfSum(x, y, n - 1);
    }
  }

  lemma {:induction false} TenthsOfTens(x: real, n: nat)
    ensures Tenths(10.0 * x, n + 1) == Tenths(x, n)
  {
    if n > 0 {
      TenthsOfTens(x, n - 1);
    }
  }

  // An empty fraction is worth nothing, and a further digit after k others so many times the
  // (k+1)-th part of ten.
  lemma FractionDigit(d: Decimal, c: char)
    requires WellFormed(d) && d.sign == "" && d.frac.Some? && d.exp == None && IsDigit(c)
    ensures Value(d.(frac := Some(d.frac.value + [c])))
         == Value(d) + Tenths((c as int - '0' as int) as real, |d.frac.value| + 1)
  {
    var frac, digit := d.frac.value, c as int - '0' as int;
    assert (frac + [c])[..|frac|] == frac;
    var m := Magnitude(frac);
    assert (10 * m + digit) as real == 10.0 * m as real + digit as real;
    TenthsOfSum(10.0 * m as real, digit as real, |frac| + 1);
    TenthsOfTens(m as real, |frac|);
  }

  lemma EmptyFraction(d: Decimal)
    requires WellFormed(d) && d.frac == None && d.exp == None
    ensures Value(d.(frac := Some(""))) == Value(d)
  {
  }

  // The exponent 0 changes nothing, and one more, or one less, scales by ten.
  lemma ExponentScales(d: Decimal, mark: char, sign: string, n: nat)
    requires WellFormed(d) && d.exp == None && IsMark(mark) && IsSign(sign)
    ensures var v := (k: nat) => Value(d.(exp := Some(Exponent(mark, sign, DigitsOf(k)))));
      && v(0) == Value(d)
      && if sign == "-" then 10.0 * v(n + 1) == v(n) else v(n + 1) == 10.0 * v(n)
  {
    MagnitudeOfDigits(0);
    MagnitudeOfDigits(n);
    MagnitudeOfDigits(n + 1);
    forall k: nat ensures Mantissa(d.(exp := Some(Exponent(mark, sign, DigitsOf(k))))) == Mantissa(d) {
    }
  }

  // So an argument list may hold any whole number.
  lemma IntDenotes(fit: Rounding, n: int, x: real)
    requires fit(n as real) == Some(x)
    ensures Denotes(fit, IntText(n), x)
  {
    IntIsDenoted(n);
  }

  // ---- The forms of a number ----

  lemma ExponentText(d: Decimal, e: Exponent)
    requires d.frac == None && d.exp == None
    ensures Text(d.(exp := Some(e))) == Text(d) + ([e.mark] + e.sign + e.digits)
  {
    assert Text(d) == d.sign + d.whole;
    assert [e.mark] + (e.sign + e.digits) == [e.mark] + e.sign + e.digits;
  }

  predicate ProperExponent(e: Exponent, k: nat) {
    (e.mark == 'e' || e.mark == 'E') && (e.sign == "" || e.sign == "+" || e.sign == "-") && e.digits == DigitsOf(k)
  }

  lemma ExponentValue(n: int, e: Exponent, k: nat)
    requires ProperExponent(e, k)
    ensures var d := IntDecimal(n).(exp := Some(e));
      WellFormed(d) && Value(d) == if e.sign == "-" then Tenths(n as real, k) else Tens(n as real, k)
  {
    IntIsDenoted(n);
    MagnitudeOfDigits(k);
    assert Mantissa(IntDecimal(n).(exp := Some(e))) == Mantissa(IntDecimal(n));
  }

  lemma Denoted(fit: Rounding, d: Decimal, t: string, x: real)
    requires WellFormed(d) && Text(d) == t && fit(Value(d)) == Some(x)
    ensures Denotes(fit, t, x)
  {
  }

  // A whole number with an exponent.
  lemma ExponentDenotes(fit: Rounding, n: int, e: Exponent, k: nat, x: real)
    requires ProperExponent(e, k)
    requires fit(if e.sign == "-" then Tenths(n as real, k) else Tens(n as real, k)) == Some(x)
    ensures Denotes(fit, IntText(n) + ([e.mark] + e.sign + e.digits), x)
  {
    IntIsDenoted(n);
    ExponentText(IntDecimal(n), e);
    ExponentValue(n, e, k);
    Denoted(fit, IntDecimal(n).(exp := Some(e)), IntText(n) + ([e.mark] + e.sign + e.digits), x);
  }

  // A fraction without a whole part, and a whole part with an empty fraction.
  lemma PointDenotes(fit: Rounding, n: nat, x: real)
    ensures fit(Tenths(n as real, |DigitsOf(n)|)) == Some(x) ==> Denotes(fit, "." + DigitsOf(n), x)
    ensures fit(n as real) == Some(x) ==> Denotes(fit, DigitsOf(n) + ".", x)
  {
    MagnitudeOfDigits(n);
    var a, b := Decimal("", "", Some(DigitsOf(n)), None), Decimal("", DigitsOf(n), Some(""), None);
    assert Text(a) == "." + DigitsOf(n) && Value(a) == Tenths(n as real, |DigitsOf(n)|);
    assert Text(b) == DigitsOf(n) + "." && Value(b) == n as real;
  }

  // A text that is no number is read as none: the parts are as far as they go, and do not make one.
  lemma NotANumber(fit: Rounding, t: string, x: real)
    requires Scan(t).1 == "" && !WellFormed(Scan(t).0)
    ensures !Denotes(fit, t, x)
  {
    forall d | WellFormed(d) ensures Text(d) != t {
      NumberIsScanned(d, "");
      assert Text(d) + "" == Text(d);
    }
  }

  // A point or a sign alone, and an exponent without digits, or without a number before it.
  lemma NoNumbers(fit: Rounding, n: nat, mark: char, x: real)
    requires IsMark(mark)
    ensures !Denotes(fit, "", x) && !Denotes(fit, ".", x) && !Denotes(fit, "-", x) && !Denotes(fit, "+", x)
    ensures !Denotes(fit, DigitsOf(n) + [mark], x)
  {
    NotANumber(fit, "", x);
    assert Scan(".") == (Decimal("", "", Some(""), None), "");
    NotANumber(fit, ".", x);
    NotANumber(fit, "-", x);
    NotANumber(fit, "+", x);
    var t := DigitsOf(n) + [mark];
    assert t[0] == DigitsOf(n)[0] && IsDigit(t[0]);
    assert ScanSign(t) == ("", t);
    DigitsAreScanned(DigitsOf(n), [mark]);
    assert Scan(t) == (Decimal("", DigitsOf(n), None, Some(Exponent(mark, "", ""))), "");
    NotANumber(fit, t, x);
  }
}
