/**
 * The two number/text conversions the client relies on: Python's `str()` of an
 * integer and Python's `float()` of a string, the latter restricted to plain
 * decimal notation (an optional sign, digits, an optional point and digits).
 */
module Numbers {
  import opened Wrappers

  predicate IsDigit(c: char) { '0' <= c <= '9' }

  predicate AllDigits(s: string) { forall i :: 0 <= i < |s| ==> IsDigit(s[i]) }

  function DigitValue(c: char): (d: nat)
    requires IsDigit(c)
    ensures d < 10
  {
    c as int - '0' as int
  }

  function DigitChar(d: nat): (c: char)
    requires d < 10
    ensures IsDigit(c) && DigitValue(c) == d
  {
    ('0' as int + d) as char
  }

  /** The number a run of decimal digits denotes, most significant digit first. */
  function DigitsValue(s: string): nat
    requires AllDigits(s)
    decreases |s|
  {
    if s == [] then 0 else 10 * DigitsValue(s[..|s| - 1]) + DigitValue(s[|s| - 1])
  }

  function Pow10(n: nat): (p: nat)
    ensures p > 0
  {
    if n == 0 then 1 else 10 * Pow10(n - 1)
  }

  /** Python's `str(n)` for a non-negative integer: digits without leading zeros. */
  function NatText(n: nat): (s: string)
    ensures |s| > 0 && AllDigits(s)
    ensures |s| > 1 ==> s[0] != '0'
  {
    if n < 10 then [DigitChar(n)] else NatText(n / 10) + [DigitChar(n % 10)]
  }

  /** Python's `str(i)` for an integer. */
  function IntText(i: int): (s: string)
    ensures |s| > 0
    ensures (s[0] == '-') == (i < 0)
  {
    if i < 0 then "-" + NatText(-i) else NatText(i)
  }

  /** Length of the run of digits that `s` starts with. */
  function LeadingDigits(s: string): (n: nat)
    ensures n <= |s| && AllDigits(s[..n])
    ensures n < |s| ==> !IsDigit(s[n])
  {
    if s == [] || !IsDigit(s[0]) then 0
    else
      var n := 1 + LeadingDigits(s[1..]);
      assert s[1..][..n - 1] == s[1..n];
      n
  }

  /** The value of a decimal with whole part `w` and `k` fraction digits spelling `f`. */
  function Decimal(w: nat, f: nat, k: nat): (x: real)
    ensures x >= w as real
  {
    w as real + f as real / Pow10(k) as real
  }

  /** `digits [ "." digits ]`, with at least one digit in all. */
  function ParseUnsigned(s: string): (r: Option<real>)
    ensures r.Some? ==> |s| > 0 && r.value >= 0.0
  {
    var n := LeadingDigits(s);
    if n == |s| then
      if n > 0 then Some(DigitsValue(s) as real) else None
    else if s[n] == '.' && AllDigits(s[n + 1..]) && (n > 0 || n + 1 < |s|) then
      var frac := s[n + 1..];
      Some(Decimal(DigitsValue(s[..n]), DigitsValue(frac), |frac|))
    else
      None
  }

  /**
   * Python's `float(s)` restricted to ASCII decimal notation. On such strings
   * `None` stands for the ValueError that `float()` raises; outside them the
   * model rejects strings Python accepts: exponents, `inf`/`nan`, surrounding
   * whitespace, digit-group underscores and non-ASCII Unicode decimal digits.
   * Binary rounding is not modelled. The sign of the result is the sign the
   * text is written with.
   */
  function Parse(s: string): (r: Option<real>)
    ensures r.Some? ==> |s| > 0
    ensures r.Some? && s[0] == '-' ==> r.value <= 0.0
    ensures r.Some? && s[0] != '-' ==> r.value >= 0.0
  {
    if |s| > 0 && (s[0] == '-' || s[0] == '+') then
      match ParseUnsigned(s[1..])
      case Some(x) => Some(if s[0] == '-' then -x else x)
      case None => None
    else
      ParseUnsigned(s)
  }

  /** Reading back the digits of `str(n)` gives `n`. */
  lemma {:induction false} NatTextValue(n: nat)
    ensures DigitsValue(NatText(n)) == n
  {
    var s := NatText(n);
    if n >= 10 {
      NatTextValue(n / 10);
      assert s[..|s| - 1] == NatText(n / 10);
    }
  }

  /** `float(str(i)) == i` for every integer `i`. */
  lemma ParseIntText(i: int)
    ensures Parse(IntText(i)) == Some(i as real)
  {
    var t := NatText(if i < 0 then -i else i);
    NatTextValue(if i < 0 then -i else i);
    assert LeadingDigits(t) == |t| by { LeadingDigitsOfDigits(t); }
    assert t[..|t|] == t;
    if i < 0 {
      assert IntText(i)[1..] == t;
    }
  }

  lemma {:induction false} LeadingDigitsOfDigits(s: string)
    requires AllDigits(s)
    ensures LeadingDigits(s) == |s|
  {
    if s != [] {
      LeadingDigitsOfDigits(s[1..]);
    }
  }

  /** A string `float()` accepts consists only of digits, one point and a leading sign. */
  lemma ParseAlphabet(s: string)
    requires Parse(s).Some?
    ensures forall i :: 0 <= i < |s| ==> IsDigit(s[i]) || s[i] == '.' || s[i] == '-' || s[i] == '+'
  {
    if |s| > 0 && (s[0] == '-' || s[0] == '+') {
      UnsignedAlphabet(s[1..]);
      forall i | 1 <= i < |s|
        ensures IsDigit(s[i]) || s[i] == '.'
      {
        assert s[i] == s[1..][i - 1];
      }
    } else {
      UnsignedAlphabet(s);
    }
  }

  lemma UnsignedAlphabet(s: string)
    requires ParseUnsigned(s).Some?
    ensures forall i :: 0 <= i < |s| ==> IsDigit(s[i]) || s[i] == '.'
  {
    var n := LeadingDigits(s);
    forall i | 0 <= i < |s|
      ensures IsDigit(s[i]) || s[i] == '.'
    {
      if i < n {
        assert s[i] == s[..n][i];
      } else if i > n {
        assert s[i] == s[n + 1..][i - n - 1];
      }
    }
  }

  /** No comma-to-point replacement: a decimal comma makes `float()` fail. */
  lemma ParseRejectsComma(s: string)
    requires ',' in s
    ensures Parse(s) == None
  {
    if Parse(s).Some? {
      ParseAlphabet(s);
    }
  }

  /** A digit run followed by a non-digit: the run is exactly the leading digits. */
  lemma {:induction false} LeadingDigitsBefore(a: string, rest: string)
    requires AllDigits(a) && rest != [] && !IsDigit(rest[0])
    ensures LeadingDigits(a + rest) == |a|
  {
    if a != [] {
      assert (a + rest)[1..] == a[1..] + rest;
      LeadingDigitsBefore(a[1..], rest);
    }
  }

  /**
   * `float(a + "." + d)` for digit runs `a` and `d`, at least one of them
   * non-empty: the whole part plus the fraction `d / 10^|d|`.
   */
  lemma ParseDecimal(a: string, d: string)
    requires AllDigits(a) && AllDigits(d) && |a| + |d| > 0
    ensures Parse(a + "." + d) == Some(Decimal(DigitsValue(a), DigitsValue(d), |d|))
  {
    var s := a + "." + d;
    assert s == a + ("." + d);
    LeadingDigitsBefore(a, "." + d);
    var n := LeadingDigits(s);
    assert s[..n] == a;
    assert s[n] == '.';
    assert s[n + 1..] == d;
    assert s[0] != '-' && s[0] != '+' by {
      if |a| > 0 { assert s[0] == a[0]; }
    }
  }

  lemma ParseCommaExample()
    ensures Parse("62,3") == None
  {
    assert "62,3"[2] == ',';
    ParseRejectsComma("62,3");
  }
}
