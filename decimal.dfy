/**
 * Decimal numbers as the parser reads them: the `[\d\.]+` volume capture
 * converted by Python's `float()` or by C's `atof`, and the `\d+` id capture
 * converted by C's `atoi`. Values are exact; IEEE rounding is not modelled.
 */
module Decimal {
  import opened Wrappers

  predicate IsDigit(c: char) { '0' <= c <= '9' }

  /** A character of the volume capture class `[\d\.]`. */
  predicate IsVolumeChar(c: char) { IsDigit(c) || c == '.' }

  predicate AllDigits(s: string) {
    forall i :: 0 <= i < |s| ==> IsDigit(s[i])
  }

  predicate AllVolumeChars(s: string) {
    forall i :: 0 <= i < |s| ==> IsVolumeChar(s[i])
  }

  function DigitValue(c: char): nat
    requires IsDigit(c)
  {
    c as int - '0' as int
  }

  function Pow10(n: nat): (r: nat)
    ensures r >= 1
  {
    if n == 0 then 1 else 10 * Pow10(n - 1)
  }

  /** The value of a string of decimal digits, most significant first. */
  function NatValue(s: string): (r: nat)
    requires AllDigits(s)
    ensures r < Pow10(|s|)
  {
    if s == [] then 0 else NatValue(s[..|s| - 1]) * 10 + DigitValue(s[|s| - 1])
  }

  /** The value of the digits after a decimal point. */
  function Fraction(s: string): (r: real)
    requires AllDigits(s)
    ensures 0.0 <= r < 1.0
  {
    RatioBelowOne(NatValue(s) as real, Pow10(|s|) as real);
    NatValue(s) as real / Pow10(|s|) as real
  }

  lemma {:induction false} RatioBelowOne(n: real, d: real)
    requires 0.0 <= n < d
    ensures 0.0 <= n / d < 1.0
  {
    assert n / d * d == n;
  }

  /** Index of the first '.', or |s| when there is none. */
  function FirstDot(s: string): (k: nat)
    ensures k <= |s|
    ensures forall i :: 0 <= i < k ==> s[i] != '.'
    ensures k < |s| ==> s[k] == '.'
    decreases |s|
  {
    if s == [] then 0 else if s[0] == '.' then 0 else 1 + FirstDot(s[1..])
  }

  /** Length of the leading run of digits. */
  function DigitRun(s: string): (k: nat)
    ensures k <= |s| && AllDigits(s[..k])
    ensures k < |s| ==> !IsDigit(s[k])
    decreases |s|
  {
    if s != [] && IsDigit(s[0]) then (assert s[..1 + DigitRun(s[1..])] == [s[0]] + s[1..][..DigitRun(s[1..])]; 1 + DigitRun(s[1..])) else 0
  }

  /**
   * Python's `float(s)` for a string of digits and dots: at most one dot and
   * at least one digit, otherwise `float` raises ValueError (None here).
   */
  function PyFloat(s: string): (r: Option<real>)
    ensures r.Some? ==> r.value >= 0.0
  {
    var k := FirstDot(s);
    var whole := s[..k];
    var frac := if k < |s| then s[k + 1..] else [];
    if AllDigits(whole) && AllDigits(frac) && |whole| + |frac| > 0
    then Some(NatValue(whole) as real + Fraction(frac))
    else None
  }

  /** A string of the form digits [ "." digits ] with at least one digit. */
  predicate WellFormed(s: string) {
    || (AllDigits(s) && |s| > 0)
    || exists k: nat :: k < |s| && s[k] == '.' && AllDigits(s[..k]) && AllDigits(s[k + 1..]) && |s| > 1
  }

  /** `float()` succeeds on a digit-and-dot string exactly when it is a well-formed decimal. */
  lemma {:induction false} PyFloatAcceptsWellFormed(s: string)
    requires AllVolumeChars(s)
    ensures PyFloat(s).Some? <==> WellFormed(s)
  {
    if PyFloat(s).Some? {
      AcceptedIsWellFormed(s);
    }
    if WellFormed(s) {
      WellFormedIsAccepted(s);
    }
  }

  lemma {:induction false} AcceptedIsWellFormed(s: string)
    requires AllVolumeChars(s) && PyFloat(s).Some?
    ensures WellFormed(s)
  {
    var k := FirstDot(s);
    if k == |s| {
      assert s[..k] == s;
    } else {
      assert k < |s| && s[k] == '.' && AllDigits(s[..k]) && AllDigits(s[k + 1..]) && |s| > 1;
    }
  }

  lemma {:induction false} WellFormedIsAccepted(s: string)
    requires AllVolumeChars(s) && WellFormed(s)
    ensures PyFloat(s).Some?
  {
    var k := FirstDot(s);
    if AllDigits(s) && |s| > 0 {
      assert k < |s| ==> !IsDigit(s[k]);
      assert s[..k] == s;
    } else {
      var j: nat :| j < |s| && s[j] == '.' && AllDigits(s[..j]) && AllDigits(s[j + 1..]) && |s| > 1;
      forall i | 0 <= i < j ensures s[i] != '.' {
        assert s[..j][i] == s[i];
      }
      assert k == j;
    }
  }

  /**
   * C's `atof` on a string of digits and dots, in a locale whose decimal point
   * is '.': it converts the longest prefix of the form digits [ "." digits ]
   * and yields 0 when that prefix has no digit.
   */
  function Atof(s: string): (r: real)
    ensures r >= 0.0
  {
    var k := DigitRun(s);
    var whole := s[..k];
    var frac := if k < |s| && s[k] == '.' then var t := s[k + 1..]; t[..DigitRun(t)] else [];
    if |whole| + |frac| == 0 then 0.0 else NatValue(whole) as real + Fraction(frac)
  }

  /** With '.' as the decimal point, `atof` gives the same value as `float()` on every string `float()` accepts. */
  lemma {:induction false} AtofAgreesWithPyFloat(s: string)
    requires AllVolumeChars(s)
    requires PyFloat(s).Some?
    ensures Atof(s) == PyFloat(s).value
  {
    var k := FirstDot(s);
    var d := DigitRun(s);
    assert AllDigits(s[..k]);
    assert d == k;
    if k < |s| {
      var t := s[k + 1..];
      assert AllDigits(t);
      assert DigitRun(t) == |t|;
      assert t[..DigitRun(t)] == t;
    }
  }

  /** C's `atoi` on a string of digits (overflow past INT_MAX not modelled). */
  function Atoi(s: string): (r: nat)
    requires AllDigits(s)
    ensures r < Pow10(|s|)
  {
    NatValue(s)
  }

  /** `float()` reads "1.5" and "0.40", and rejects a second dot and a lone dot. */
  lemma {:induction false} PyFloatExamples()
    ensures PyFloat("1.5") == Some(1.5)
    ensures PyFloat("0.40") == Some(0.4)
    ensures PyFloat("1..2") == None
    ensures PyFloat(".") == None
  {
    assert FirstDot("1.5") == 1;
    assert "1.5"[..1] == "1" && "1.5"[2..] == "5";
    assert NatValue("1") == 1 by { assert "1"[..0] == []; }
    assert NatValue("5") == 5 by { assert "5"[..0] == []; }
    assert FirstDot("0.40") == 1;
    assert "0.40"[..1] == "0" && "0.40"[2..] == "40";
    assert NatValue("0") == 0 by { assert "0"[..0] == []; }
    assert NatValue("40") == 40 by { assert "40"[..1] == "4"; assert "4"[..0] == []; }
    assert FirstDot("1..2") == 1;
    assert "1..2"[2..] == ".2";
    assert !AllDigits(".2") by { assert !IsDigit(".2"[0]); }
    assert FirstDot(".") == 0;
    assert "."[..0] == [] && "."[1..] == [];
  }

  /** `atof` stops at the second dot and reads a lone dot as zero. */
  lemma {:induction false} AtofExamples()
    ensures Atof("1..2") == 1.0
    ensures Atof(".") == 0.0
  {
    assert DigitRun("1..2") == 1;
    assert "1..2"[..1] == "1";
    assert NatValue("1") == 1 by { assert "1"[..0] == []; }
    var t := "1..2"[2..];
    assert t == ".2" && DigitRun(t) == 0 && t[..0] == [];
    assert DigitRun(".") == 0;
  }
}
