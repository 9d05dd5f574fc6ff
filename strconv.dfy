/**
 * The two conversions of Go's `strconv` package that people.go calls:
 * Itoa (an int as decimal text) and Atoi (decimal text as an int).
 * Integers are unbounded here, so Atoi never reports a range error.
 */
module Strconv {
  import opened Wrappers

  /** strconv.NumError with Err == ErrSyntax, carrying the rejected input. */
  datatype NumError = ErrSyntax(num: string)

  /** The two results of Atoi: the value and the (possibly nil) error. */
  datatype AtoiResult = AtoiResult(value: int, err: Option<NumError>)

  predicate IsDigit(c: char) {
    '0' <= c <= '9'
  }

  predicate AllDigits(s: string) {
    forall i :: 0 <= i < |s| ==> IsDigit(s[i])
  }

  /** The text Atoi accepts: digits, at least one, optionally after a single leading sign. */
  predicate IsDecimalInteger(s: string) {
    |s| > 0 &&
    forall i :: 0 <= i < |s| ==>
      IsDigit(s[i]) || (i == 0 && |s| > 1 && (s[i] == '+' || s[i] == '-'))
  }

  /** The text Itoa produces: "0", or digits without a leading zero, maybe after '-'. */
  predicate IsCanonicalDecimal(s: string) {
    var digits := if |s| > 0 && s[0] == '-' then s[1..] else s;
    |digits| > 0 && AllDigits(digits) &&
    (digits[0] == '0' ==> s == "0")
  }

  function DigitChar(d: nat): (c: char)
    requires d < 10
    ensures IsDigit(c) && c as int - '0' as int == d
  {
    ('0' as int + d) as char
  }

  /** The number a run of decimal digits denotes, most significant digit first. */
  function DigitsValue(s: string): nat
    requires AllDigits(s)
  {
    if s == [] then 0
    else DigitsValue(s[..|s| - 1]) * 10 + (s[|s| - 1] as int - '0' as int)
  }

  /** The decimal digits of a natural number. */
  function FormatNat(n: nat): (r: string)
    ensures |r| > 0 && AllDigits(r)
    ensures r[0] == '0' ==> n == 0 && r == "0"
    ensures DigitsValue(r) == n
  {
    if n < 10 then [DigitChar(n)]
    else
      var prefix := FormatNat(n / 10);
      assert (prefix + [DigitChar(n % 10)])[..|prefix|] == prefix;
      prefix + [DigitChar(n % 10)]
  }

  /** strconv.Itoa: the canonical decimal text of `n`. */
  function Itoa(n: int): (r: string)
    ensures IsCanonicalDecimal(r)
    ensures r[0] == '-' <==> n < 0
  {
    if n < 0 then "-" + FormatNat(-n) else FormatNat(n)
  }

  /**
   * strconv.Atoi: an optional '+' or '-' followed by one or more digits; leading
   * zeros are allowed.  Anything else is a syntax error carrying the whole input,
   * and the value is then 0.
   */
  function Atoi(s: string): (r: AtoiResult)
    ensures r.err.None? <==> IsDecimalInteger(s)
    ensures r.err.Some? ==> r == AtoiResult(0, Some(ErrSyntax(s)))
  {
    if |s| == 0 then AtoiResult(0, Some(ErrSyntax(s)))
    else
      var signed := s[0] == '-' || s[0] == '+';
      var digits := if signed then s[1..] else s;
      if |digits| == 0 || !AllDigits(digits) then
        assert !IsDecimalInteger(s) by {
          if |digits| > 0 {
            var k :| 0 <= k < |digits| && !IsDigit(digits[k]);
            var j := if signed then k + 1 else k;
            assert s[j] == digits[k];
          }
        }
        AtoiResult(0, Some(ErrSyntax(s)))
      else
        assert IsDecimalInteger(s) by {
          forall i | 0 <= i < |s|
            ensures IsDigit(s[i]) || (i == 0 && |s| > 1 && (s[i] == '+' || s[i] == '-'))
          {
            if signed && i > 0 { assert s[i] == digits[i - 1]; }
          }
        }
        var n: int := DigitsValue(digits);
        AtoiResult(if s[0] == '-' then -n else n, None)
  }

  /** Atoi inverts Itoa, on every integer. */
  lemma AtoiItoa(n: int)
    ensures Atoi(Itoa(n)) == AtoiResult(n, None)
  {
    var r := Itoa(n);
    if n < 0 {
      assert r[1..] == FormatNat(-n);
    }
  }

  /** Itoa is injective, so distinct UIDs get distinct path components. */
  lemma ItoaInjective(m: int, n: int)
    requires Itoa(m) == Itoa(n)
    ensures m == n
  {
    AtoiItoa(m);
    AtoiItoa(n);
  }

  /** Atoi of an optional sign and digits is the signed value of those digits. */
  lemma AtoiSignedDigits(sign: string, digits: string)
    requires sign == "" || sign == "+" || sign == "-"
    requires |digits| > 0 && AllDigits(digits)
    ensures Atoi(sign + digits) ==
            AtoiResult(if sign == "-" then -(DigitsValue(digits) as int) else DigitsValue(digits), None)
  {
    var s := sign + digits;
    if sign != "" {
      assert s[1..] == digits;
    } else {
      assert s == digits;
    }
  }

  /** Digits that do not start with '0' denote a positive number. */
  lemma {:induction false} LeadingDigitPositive(s: string)
    requires |s| > 0 && AllDigits(s) && s[0] != '0'
    ensures DigitsValue(s) > 0
  {
    if |s| > 1 {
      LeadingDigitPositive(s[..|s| - 1]);
    }
  }

  /** FormatNat inverts DigitsValue on digits without a leading zero. */
  lemma {:induction false} FormatNatDigitsValue(s: string)
    requires |s| > 0 && AllDigits(s) && (s[0] == '0' ==> s == "0")
    ensures FormatNat(DigitsValue(s)) == s
  {
    if |s| > 1 {
      var init := s[..|s| - 1];
      LeadingDigitPositive(init);
      FormatNatDigitsValue(init);
      assert s == init + [s[|s| - 1]];
    }
  }

  /** Itoa inverts Atoi exactly on the canonical decimal text. */
  lemma ItoaAtoi(s: string)
    requires IsCanonicalDecimal(s)
    ensures Atoi(s).err.None? && Itoa(Atoi(s).value) == s
  {
    if s[0] == '-' {
      var digits := s[1..];
      assert s == "-" + digits;
      AtoiSignedDigits("-", digits);
      LeadingDigitPositive(digits);
      FormatNatDigitsValue(digits);
    } else {
      AtoiSignedDigits("", s);
      FormatNatDigitsValue(s);
    }
  }

  /** A leading zero does not change a run of digits' value. */
  lemma {:induction false} LeadingZero(digits: string)
    requires AllDigits(digits)
    ensures AllDigits("0" + digits) && DigitsValue("0" + digits) == DigitsValue(digits)
  {
    var s := "0" + digits;
    assert AllDigits(s) by {
      forall i | 0 <= i < |s| ensures IsDigit(s[i]) {
        if i > 0 { assert s[i] == digits[i - 1]; }
      }
    }
    if digits != [] {
      var init := digits[..|digits| - 1];
      assert s[..|s| - 1] == "0" + init;
      LeadingZero(init);
    }
  }

  /** Atoi is not injective: a leading zero before the digits is ignored. */
  lemma AtoiIgnoresLeadingZero(digits: string)
    requires |digits| > 0 && AllDigits(digits)
    ensures Atoi("0" + digits) == Atoi(digits)
  {
    LeadingZero(digits);
    AtoiSignedDigits("", "0" + digits);
    AtoiSignedDigits("", digits);
  }
}
