/**
 * The text tests the application applies to what the user types: Python's
 * `str.isdigit` (restricted to ASCII digits), the amount test
 * `s.replace('.', '', 1).isdigit()`, and the values `int(s)` and `float(s)`
 * give for strings that passed those tests (as exact numbers).
 */
module Numeric {

  predicate IsDigit(c: char) { '0' <= c <= '9' }

  predicate AllDigits(s: string) { forall i :: 0 <= i < |s| ==> IsDigit(s[i]) }

  /**
   * `s.isdigit()`: at least one character, and every character a digit.
   * Such a string has no '.', so `replace('.', '', 1)` leaves it as it is.
   */
  predicate IsDigitString(s: string)
    ensures IsDigitString(s) ==> RemoveFirstDot(s) == s
  {
    |s| > 0 && AllDigits(s)
  }

  /**
   * `s.replace('.', '', 1)`: the text before the first '.' followed by the
   * text after it; the string itself when it has no '.'.
   */
  function RemoveFirstDot(s: string): (r: string)
    ensures var k := DotIndex(s); r == s[..k] + (if k < |s| then s[k + 1..] else [])
  {
    if s == [] then []
    else if s[0] == '.' then s[1..]
    else
      var k := DotIndex(s[1..]);
      assert s[1..][..k] == s[1..k + 1];
      assert k < |s| - 1 ==> s[1..][k + 1..] == s[k + 2..];
      [s[0]] + RemoveFirstDot(s[1..])
  }

  function CountDots(s: string): nat
  {
    if s == [] then 0 else (if s[0] == '.' then 1 else 0) + CountDots(s[1..])
  }

  predicate DigitsAndDots(s: string) { forall i :: 0 <= i < |s| ==> IsDigit(s[i]) || s[i] == '.' }

  predicate HasDigit(s: string) { exists i :: 0 <= i < |s| && IsDigit(s[i]) }

  /** What the amount test accepts, described without `replace`. */
  predicate WellFormedDecimal(s: string)
  {
    HasDigit(s) && DigitsAndDots(s) && CountDots(s) <= 1
  }

  lemma {:induction false} NoDots(s: string)
    ensures CountDots(s) == 0 <==> forall i :: 0 <= i < |s| ==> s[i] != '.'
  {
    if s != [] {
      NoDots(s[1..]);
      assert forall i :: 1 <= i < |s| ==> s[i] == s[1..][i - 1];
    }
  }

  lemma {:induction false} AllDigitsAfterRemoval(s: string)
    ensures AllDigits(RemoveFirstDot(s)) <==> DigitsAndDots(s) && CountDots(s) <= 1
  {
    if s == [] {
    } else if s[0] == '.' {
      NoDots(s[1..]);
      assert forall i :: 1 <= i < |s| ==> s[i] == s[1..][i - 1];
    } else {
      AllDigitsAfterRemoval(s[1..]);
      var r := RemoveFirstDot(s[1..]);
      assert RemoveFirstDot(s) == [s[0]] + r;
      assert forall i :: 1 <= i < |s| ==> s[i] == s[1..][i - 1];
      assert forall i :: 0 <= i < |r| ==> ([s[0]] + r)[i + 1] == r[i];
      assert ([s[0]] + r)[0] == s[0];
      assert AllDigits([s[0]] + r) <==> IsDigit(s[0]) && AllDigits(r);
      assert DigitsAndDots(s) <==> IsDigit(s[0]) && DigitsAndDots(s[1..]);
    }
  }

  lemma NonEmptyAfterRemoval(s: string)
    ensures DigitsAndDots(s) && CountDots(s) <= 1 ==> (|RemoveFirstDot(s)| > 0 <==> HasDigit(s))
  {
    if !(DigitsAndDots(s) && CountDots(s) <= 1) {
    } else if s != [] && s[0] == '.' {
      NoDots(s[1..]);
      assert forall i :: 1 <= i < |s| ==> s[i] == s[1..][i - 1];
      if |s| > 1 {
        assert IsDigit(s[1]);
      }
    } else if s != [] {
      assert IsDigit(s[0]);
    }
  }

  /**
   * The format test on salary and expense amounts. It accepts exactly the
   * strings made of digits and at most one '.', holding at least one digit:
   * "" and "." are refused, "5." and ".5" are accepted.
   */
  predicate IsNumeric(s: string)
    ensures IsNumeric(s) <==> WellFormedDecimal(s)
  {
    AllDigitsAfterRemoval(s);
    NonEmptyAfterRemoval(s);
    IsDigitString(RemoveFirstDot(s))
  }

  /** The empty string, a lone '.', two dots and a sign are refused. */
  lemma NumericRejects()
    ensures !IsNumeric("") && !IsNumeric(".") && !IsNumeric("1.2.3") && !IsNumeric("-5")
  {
    assert RemoveFirstDot(".") == "";
    assert RemoveFirstDot("1.2.3") == "12.3";
    assert !IsDigit("12.3"[2]);
    assert RemoveFirstDot("-5") == "-5";
    assert !IsDigit("-5"[0]);
  }

  /** A '.' at either end, two decimals, or none at all are accepted. */
  lemma NumericAccepts()
    ensures IsNumeric("5.") && IsNumeric(".5") && IsNumeric("3000.00") && IsNumeric("0")
  {
    PointNotation("5", "");
    assert "5" + "." + "" == "5.";
    PointNotation("", "5");
    assert "" + "." + "5" == ".5";
    PointNotation("3000", "00");
    assert "3000" + "." + "00" == "3000.00";
    IntegerNotation("0");
  }

  function DigitValue(c: char): nat { if IsDigit(c) then (c as int - '0' as int) else 0 }

  /** The number a string of decimal digits denotes (`int(s)`); 0 for "". */
  function DigitsValue(s: string): (n: nat)
    ensures n < Pow10(|s|)
  {
    if s == [] then 0 else 10 * DigitsValue(s[..|s| - 1]) + DigitValue(s[|s| - 1])
  }

  function Pow10(k: nat): (p: nat)
    ensures p > 0
  {
    if k == 0 then 1 else 10 * Pow10(k - 1)
  }

  /** The index of the first '.', or |s| when there is none. */
  function DotIndex(s: string): (k: nat)
    ensures k <= |s|
    ensures k < |s| ==> s[k] == '.'
    ensures forall i :: 0 <= i < k ==> s[i] != '.'
  {
    if s == [] then 0 else if s[0] == '.' then 0 else 1 + DotIndex(s[1..])
  }

  /**
   * `float(s)` for a string that passed the amount test: the digits before
   * the '.' are the integer part, those after it the fraction, so the value
   * lies between the integer part and the next integer.
   */
  function ParseDecimal(s: string): (v: real)
    ensures var n := DigitsValue(s[..DotIndex(s)]) as real; n <= v < n + 1.0
  {
    var k := DotIndex(s);
    if k == |s| then
      assert s[..k] == s;
      DigitsValue(s) as real
    else
      var f := s[k + 1..];
      FractionBelowOne(DigitsValue(f), Pow10(|f|));
      DigitsValue(s[..k]) as real + DigitsValue(f) as real / Pow10(|s| - k - 1) as real
  }

  /** A fraction part of |f| digits is below one. */
  lemma FractionBelowOne(n: nat, p: nat)
    requires n < p
    ensures 0.0 <= n as real / p as real < 1.0
  {
    assert (n as real / p as real) * p as real == n as real;
  }

  predicate NonZeroDigit(c: char) { IsDigit(c) && c != '0' }

  lemma {:induction false} DigitsValuePositive(s: string)
    ensures DigitsValue(s) > 0 <==> exists i :: 0 <= i < |s| && NonZeroDigit(s[i])
  {
    if s != [] {
      var init := s[..|s| - 1];
      DigitsValuePositive(init);
      assert forall i :: 0 <= i < |init| ==> init[i] == s[i];
      if NonZeroDigit(s[|s| - 1]) {
        assert DigitValue(s[|s| - 1]) > 0;
      }
    }
  }

  /**
   * A string that passed the amount test denotes a positive amount exactly
   * when one of its digits is not '0'.
   */
  lemma ParseDecimalPositive(s: string)
    ensures ParseDecimal(s) > 0.0 <==> exists i :: 0 <= i < |s| && NonZeroDigit(s[i])
  {
    var k := DotIndex(s);
    if k == |s| {
      DigitsValuePositive(s);
    } else {
      var a, b := s[..k], s[k + 1..];
      DigitsValuePositive(a);
      DigitsValuePositive(b);
      assert forall i :: 0 <= i < |a| ==> a[i] == s[i];
      assert forall i :: 0 <= i < |b| ==> b[i] == s[k + 1 + i];
      var p := Pow10(|s| - k - 1) as real;
      assert DigitsValue(b) as real / p >= 0.0;
      assert DigitsValue(b) > 0 ==> DigitsValue(b) as real / p > 0.0;
      if exists i :: 0 <= i < |s| && NonZeroDigit(s[i]) {
        var i :| 0 <= i < |s| && NonZeroDigit(s[i]);
        if i < k {
          assert NonZeroDigit(a[i]);
        } else {
          assert i != k;
          assert NonZeroDigit(b[i - k - 1]);
        }
      }
    }
  }

  /** `replace('.', '', 1)` drops the '.' that follows a run of digits. */
  lemma RemoveDotAfterDigits(a: string, b: string)
    requires AllDigits(a)
    ensures RemoveFirstDot(a + "." + b) == a + b
  {
    var s := a + "." + b;
    assert s[..|a|] == a && s[|a|] == '.' && s[|a| + 1..] == b;
    assert DotIndex(s) == |a|;
  }

  /**
   * An integer part and a fraction part around one '.': the amount test
   * accepts it, and `float` gives the integer part plus the fraction part
   * over the matching power of ten.
   */
  lemma PointNotation(a: string, b: string)
    requires AllDigits(a) && AllDigits(b) && |a| + |b| > 0
    ensures WellFormedDecimal(a + "." + b)
    ensures ParseDecimal(a + "." + b) == DigitsValue(a) as real + DigitsValue(b) as real / Pow10(|b|) as real
  {
    var s := a + "." + b;
    assert s[..|a|] == a && s[|a|] == '.' && s[|a| + 1..] == b;
    assert DotIndex(s) == |a|;
    assert AllDigits(a + b) by {
      forall i | 0 <= i < |a + b| ensures IsDigit((a + b)[i]) {
        if i >= |a| {
          assert (a + b)[i] == b[i - |a|];
        }
      }
    }
    assert IsNumeric(s);
  }

  /** An amount typed without a '.' is accepted when it has a digit, and read as an integer. */
  lemma IntegerNotation(a: string)
    requires IsDigitString(a)
    ensures WellFormedDecimal(a) && ParseDecimal(a) == DigitsValue(a) as real
  {
    NoDots(a);
    assert IsDigit(a[0]);
  }

  /** A '.' at either end is read as an empty integer or fraction part. */
  lemma ParseDotAtEndsExample()
    ensures ParseDecimal(".5") == 0.5 && ParseDecimal("5.") == 5.0
  {
    assert DotIndex(".5") == 0;
    assert DotIndex("5.") == 1;
    assert ".5"[1..] == "5";
    assert "5."[..1] == "5";
    assert "5."[2..] == "";
  }

  lemma YearExample()
    ensures IsDigitString("2024") && DigitsValue("2024") == 2024
  {
    assert "2024"[..3] == "202" && "202"[..2] == "20" && "20"[..1] == "2";
  }
}
