/** ASCII decimal numerals: Python's `int()` on a run of `[0-9]` and `str()`
    (or `'{}'.format`) on a non-negative int. */
module Decimal {

  predicate IsDigit(c: char) {
    '0' <= c <= '9'
  }

  predicate AllDigits(s: string) {
    forall i :: 0 <= i < |s| ==> IsDigit(s[i])
  }

  function DigitValue(c: char): (d: nat)
    requires IsDigit(c)
    ensures d < 10
  {
    c as int - '0' as int
  }

  function DigitChar(d: nat): (c: char)
    requires d < 10
    ensures IsDigit(c) && DigitValue(c) == d
  {
    ('0' as int + d) as char
  }

  /** `int(s)` for a string of ASCII digits (leading zeros allowed, as in Python). */
  function DigitsValue(s: string): (v: nat)
    requires AllDigits(s)
    ensures v == 0 <==> forall i :: 0 <= i < |s| ==> s[i] == '0'
    decreases |s|
  {
    if |s| == 0 then 0
    else
      var p := s[..|s| - 1];
      assert forall i :: 0 <= i < |p| ==> p[i] == s[i];
      DigitsValue(p) * 10 + DigitValue(s[|s| - 1])
  }

  /** `str(n)` for a non-negative int: the canonical numeral, without leading zeros. */
  function NatToDecimal(n: nat): (s: string)
    ensures |s| > 0 && AllDigits(s)
    ensures s[0] == '0' ==> |s| == 1
    decreases n
  {
    if n < 10 then [DigitChar(n)] else NatToDecimal(n / 10) + [DigitChar(n % 10)]
  }

  /** Reading back a printed number gives the number. */
  lemma {:induction false} DecimalRoundTrip(n: nat)
    ensures DigitsValue(NatToDecimal(n)) == n
    decreases n
  {
    var s := NatToDecimal(n);
    if n >= 10 {
      DecimalRoundTrip(n / 10);
      assert s[..|s| - 1] == NatToDecimal(n / 10);
    } else {
      assert s[..|s| - 1] == [];
    }
  }

  lemma {:induction false} LeadingDigitPositive(s: string)
    requires |s| > 0 && AllDigits(s) && s[0] != '0'
    ensures DigitsValue(s) > 0
    decreases |s|
  {
    if |s| > 1 {
      LeadingDigitPositive(s[..|s| - 1]);
    }
  }

  /** Printing the value of a canonical numeral gives the numeral back. */
  lemma {:induction false} CanonicalRoundTrip(s: string)
    requires |s| > 0 && AllDigits(s)
    requires s[0] == '0' ==> |s| == 1
    ensures NatToDecimal(DigitsValue(s)) == s
    decreases |s|
  {
    var p := s[..|s| - 1];
    var d := DigitValue(s[|s| - 1]);
    if |p| == 0 {
      assert DigitsValue(s) == d;
      assert DigitChar(d) == s[0];
    } else {
      CanonicalRoundTrip(p);
      LeadingDigitPositive(p);
      var v := DigitsValue(p);
      assert DigitsValue(s) == v * 10 + d;
      assert (v * 10 + d) / 10 == v && (v * 10 + d) % 10 == d;
      assert DigitChar(d) == s[|s| - 1];
      assert s == p + [s[|s| - 1]];
    }
  }

  /** The values of a few numerals. */
  lemma NumeralValues()
    ensures DigitsValue("0") == 0 && DigitsValue("1") == 1 && DigitsValue("5") == 5
    ensures DigitsValue("15") == 15 && DigitsValue("250") == 250 && DigitsValue("2048") == 2048
  {
    assert "15"[..1] == "1" && "1"[..0] == "";
    assert "250"[..2] == "25" && "25"[..1] == "2" && "2"[..0] == "";
    assert "2048"[..3] == "204" && "204"[..2] == "20" && "20"[..1] == "2";
  }

  /** Two printed values: 250 minutes in seconds, and 2048 KiB in bytes. */
  lemma DecimalExamples()
    ensures NatToDecimal(15000) == "15000"
    ensures NatToDecimal(2097152) == "2097152"
  {
    assert NatToDecimal(1) == "1";
    assert NatToDecimal(15) == NatToDecimal(1) + [DigitChar(5)];
    assert NatToDecimal(150) == NatToDecimal(15) + [DigitChar(0)];
    assert NatToDecimal(1500) == NatToDecimal(150) + [DigitChar(0)];
    assert NatToDecimal(15000) == NatToDecimal(1500) + [DigitChar(0)];
    assert NatToDecimal(2) == "2";
    assert NatToDecimal(20) == NatToDecimal(2) + [DigitChar(0)];
    assert NatToDecimal(209) == NatToDecimal(20) + [DigitChar(9)];
    assert NatToDecimal(2097) == NatToDecimal(209) + [DigitChar(7)];
    assert NatToDecimal(20971) == NatToDecimal(2097) + [DigitChar(1)];
    assert NatToDecimal(209715) == NatToDecimal(20971) + [DigitChar(5)];
    assert NatToDecimal(2097152) == NatToDecimal(209715) + [DigitChar(2)];
  }
}
