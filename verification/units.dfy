/** `val2base`: normalises a metrics-server quantity string to base units by
    trying five anchored, case-insensitive patterns in order.

      1. `^([0-9]+)Ki$`            -> digits * 1024
      2. `^([0-9]+)Mi$`            -> digits * 1024^2
      3. `^([0-9]+)Gi$`            -> digits * 1024^3
      4. `^([0-9]+)m([0-9]+)s$`    -> `int(minutes) * 60 + seconds_str`, a TypeError
      5. `^([0-9]+)m$`             -> digits * 60 (so "250m" is 15000, not millicores)
      otherwise                    -> the string itself

    The matchers are written out by hand. Two details of Python's `re` are kept:
    `$` also matches just before one final newline, and IGNORECASE on a str
    pattern folds a few non-ASCII letters onto `i`, `k` and `s`. */
module Units {
  import opened Outcomes
  import opened Decimal
  import opened PyJson

  const KiB: nat := 1024
  const MiB: nat := 1048576     // 1024 * 1024
  const GiB: nat := 1073741824  // 1024 * 1024 * 1024
  const SecondsPerMinute: nat := 60

  /** What `val2base` returns: an int, the input string, or (for pattern 4) the
      TypeError of adding a str to an int. */
  datatype Base = Num(n: nat) | Str(s: string) | Fail

  /** `c` matches the lower-case pattern letter `letter` under re.IGNORECASE:
      the letter itself, its ASCII capital, and the characters Python folds onto
      it (U+0130 and U+0131 onto i, U+212A KELVIN SIGN onto k, U+017F LONG S onto s). */
  predicate FoldsTo(c: char, letter: char) {
    || c == letter
    || ('a' <= letter <= 'z' && c as int == letter as int - 32)
    || (letter == 'i' && (c == '\U{0130}' || c == '\U{0131}'))
    || (letter == 'k' && c == '\U{212A}')
    || (letter == 's' && c == '\U{017F}')
  }

  /** `x` matches the letters of `pat` one by one, ignoring case. */
  predicate FoldsEach(x: string, pat: string) {
    |x| == |pat| && forall i :: 0 <= i < |x| ==> FoldsTo(x[i], pat[i])
  }

  predicate IsPatternWord(pat: string) {
    |pat| > 0 && forall i :: 0 <= i < |pat| ==> 'a' <= pat[i] <= 'z'
  }

  lemma LetterIsNotDigit(c: char, letter: char)
    requires 'a' <= letter <= 'z' && FoldsTo(c, letter)
    ensures !IsDigit(c) && c != '\n'
  {
  }

  /** The part of `s` the anchors `^...$` must span: `$` also matches before a
      single final newline, which the patterns never contain themselves. */
  function Body(s: string): (b: string)
    ensures b == s || b + "\n" == s
  {
    if |s| > 0 && s[|s| - 1] == '\n' then s[..|s| - 1] else s
  }

  /** Length of the longest run of ASCII digits at the start of `b`. */
  function DigitRun(b: string): (k: nat)
    ensures k <= |b| && AllDigits(b[..k])
    ensures k < |b| ==> !IsDigit(b[k])
    decreases |b|
  {
    if |b| == 0 || !IsDigit(b[0]) then 0
    else
      var k' := DigitRun(b[1..]);
      assert b[..k' + 1] == [b[0]] + b[1..][..k'];
      k' + 1
  }

  /** `^([0-9]+)<pat>$` with re.IGNORECASE; yields the captured digits. */
  function MatchSuffix(s: string, pat: string): (d: Option<string>)
    ensures d.Some? ==> |d.value| > 0 && AllDigits(d.value)
  {
    var b := Body(s);
    if |b| > |pat| && AllDigits(b[..|b| - |pat|]) && FoldsEach(b[|b| - |pat|..], pat)
    then Some(b[..|b| - |pat|])
    else None
  }

  /** `^([0-9]+)m([0-9]+)s$` with re.IGNORECASE; yields both captured groups.
      The `m` cannot be a digit, so the first group is the whole leading run. */
  function MatchMinSec(s: string): (g: Option<(string, string)>)
    ensures g.Some? ==> |g.value.0| > 0 && AllDigits(g.value.0) && |g.value.1| > 0 && AllDigits(g.value.1)
  {
    var b := Body(s);
    var k := DigitRun(b);
    if 0 < k && k + 2 < |b| && FoldsTo(b[k], 'm') && AllDigits(b[k + 1..|b| - 1]) && FoldsTo(b[|b| - 1], 's')
    then Some((b[..k], b[k + 1..|b| - 1]))
    else None
  }

  /** `val2base(string)`: the five matchers tried in the source's order. Whatever
      the order, the outcome is the reference reading of the quantity. */
  function Val2Base(s: string): (r: Base)
    ensures r == Reading(s)
    ensures r.Str? ==> r.s == s
  {
    MatchSuffixReading(s, "ki");
    MatchSuffixReading(s, "mi");
    MatchSuffixReading(s, "gi");
    MatchSuffixReading(s, "m");
    MatchMinSecReading(s);
    var ki := MatchSuffix(s, "ki");
    if ki.Some? then Num(DigitsValue(ki.value) * KiB)
    else
      var mi := MatchSuffix(s, "mi");
      if mi.Some? then Num(DigitsValue(mi.value) * MiB)
      else
        var gi := MatchSuffix(s, "gi");
        if gi.Some? then Num(DigitsValue(gi.value) * GiB)
        else if MatchMinSec(s).Some? then Fail
        else
          var m := MatchSuffix(s, "m");
          if m.Some? then Num(DigitsValue(m.value) * SecondsPerMinute)
          else Str(s)
  }

  /** `val2base` applied to a JSON usage leaf: `re.search` on anything but a str
      raises TypeError. */
  function UsageValue(j: Json): (r: Base)
    ensures !r.Fail? ==> j.JStr? && r == Val2Base(j.s)
    ensures j.JStr? ==> r == Val2Base(j.s)
  {
    if j.JStr? then Val2Base(j.s) else Fail
  }

  /** `'{}'.format(value)` for what `val2base` returned. */
  function Show(b: Base): (t: string)
    requires !b.Fail?
    ensures b.Num? ==> AllDigits(t) && |t| > 0 && DigitsValue(t) == b.n
    ensures b.Num? ==> (t[0] == '0' ==> |t| == 1)
    ensures b.Str? ==> t == b.s
  {
    match b
    case Num(n) => DecimalRoundTrip(n); NatToDecimal(n)
    case Str(s) => s
  }

  // ---------------------------------------------------------------------------
  // A reference reading of a quantity, independent of the order of the matchers:
  // split the anchored part into its maximal leading digit run and what follows,
  // and classify what follows.

  /** `t` is `m<digits>s`, ignoring case. */
  predicate IsMinSecTail(t: string) {
    |t| >= 3 && FoldsTo(t[0], 'm') && AllDigits(t[1..|t| - 1]) && FoldsTo(t[|t| - 1], 's')
  }

  /** What a quantity means given the value `v` of its leading digits and the
      `unit` text after them; `s` is the whole input, returned when no unit applies. */
  function Classify(v: nat, unit: string, s: string): Base {
    if FoldsEach(unit, "ki") then Num(v * KiB)
    else if FoldsEach(unit, "mi") then Num(v * MiB)
    else if FoldsEach(unit, "gi") then Num(v * GiB)
    else if IsMinSecTail(unit) then Fail
    else if FoldsEach(unit, "m") then Num(v * SecondsPerMinute)
    else Str(s)
  }

  function Reading(s: string): Base {
    var b := Body(s);
    var k := DigitRun(b);
    if k == 0 then Str(s) else Classify(DigitsValue(b[..k]), b[k..], s)
  }

  /** A leading digit run followed by a non-digit (or nothing) is the run DigitRun finds. */
  lemma DigitRunUnique(b: string, j: nat)
    requires j <= |b| && AllDigits(b[..j]) && (j < |b| ==> !IsDigit(b[j]))
    ensures DigitRun(b) == j
  {
    var k := DigitRun(b);
    assert forall i :: 0 <= i < j ==> b[..j][i] == b[i];
    assert forall i :: 0 <= i < k ==> b[..k][i] == b[i];
  }

  lemma MatchSuffixSome(s: string, pat: string)
    requires IsPatternWord(pat) && MatchSuffix(s, pat).Some?
    ensures var b := Body(s); var k := DigitRun(b);
      k > 0 && FoldsEach(b[k..], pat) && MatchSuffix(s, pat).value == b[..k]
  {
    var b := Body(s);
    var j := |b| - |pat|;
    assert FoldsEach(b[j..], pat);
    assert b[j..][0] == b[j];
    LetterIsNotDigit(b[j], pat[0]);
    DigitRunUnique(b, j);
  }

  lemma MatchSuffixFromReading(s: string, pat: string)
    requires var b := Body(s); var k := DigitRun(b); k > 0 && FoldsEach(b[k..], pat)
    ensures MatchSuffix(s, pat) == Some(Body(s)[..DigitRun(Body(s))])
  {
  }

  /** The anchored suffix matcher succeeds exactly when the anchored part is a
      non-empty digit run followed by the pattern word, and captures that run. */
  lemma MatchSuffixReading(s: string, pat: string)
    requires IsPatternWord(pat)
    ensures var b := Body(s); var k := DigitRun(b);
      MatchSuffix(s, pat) == (if k > 0 && FoldsEach(b[k..], pat) then Some(b[..k]) else None)
  {
    var b := Body(s);
    var k := DigitRun(b);
    if MatchSuffix(s, pat).Some? {
      MatchSuffixSome(s, pat);
    }
    if k > 0 && FoldsEach(b[k..], pat) {
      MatchSuffixFromReading(s, pat);
    }
  }

  lemma MatchMinSecReading(s: string)
    ensures var b := Body(s); var k := DigitRun(b);
      MatchMinSec(s).Some? <==> k > 0 && IsMinSecTail(b[k..])
  {
    var b := Body(s);
    var k := DigitRun(b);
    if k > 0 && k + 2 < |b| {
      var t := b[k..];
      assert t[0] == b[k];
      assert t[|t| - 1] == b[|b| - 1];
      assert t[1..|t| - 1] == b[k + 1..|b| - 1];
    }
  }

  /** The five patterns are mutually exclusive: at most one matcher succeeds, so
      the order in which `val2base` tries them only matters through pattern 4
      being checked before pattern 5, which it cannot overlap either. */
  lemma PatternsExclusive(s: string)
    ensures MatchSuffix(s, "ki").Some? ==> MatchSuffix(s, "mi").None? && MatchSuffix(s, "gi").None? && MatchMinSec(s).None? && MatchSuffix(s, "m").None?
    ensures MatchSuffix(s, "mi").Some? ==> MatchSuffix(s, "gi").None? && MatchMinSec(s).None? && MatchSuffix(s, "m").None?
    ensures MatchSuffix(s, "gi").Some? ==> MatchMinSec(s).None? && MatchSuffix(s, "m").None?
    ensures MatchMinSec(s).Some? ==> MatchSuffix(s, "m").None?
  {
    MatchSuffixReading(s, "ki");
    MatchSuffixReading(s, "mi");
    MatchSuffixReading(s, "gi");
    MatchSuffixReading(s, "m");
    MatchMinSecReading(s);
    var b := Body(s);
    var t := b[DigitRun(b)..];
    if |t| > 0 {
      assert FoldsTo(t[0], 'k') ==> !FoldsTo(t[0], 'm') && !FoldsTo(t[0], 'g');
      assert FoldsTo(t[0], 'm') ==> !FoldsTo(t[0], 'g');
    }
  }

  // ---------------------------------------------------------------------------
  // The candidate shapes, built up from their parts.

  lemma BodyOf(t: string, nl: string)
    requires |t| > 0 && t[|t| - 1] != '\n'
    requires nl == "" || nl == "\n"
    ensures Body(t + nl) == t
  {
    if nl == "\n" {
      assert (t + nl)[..|t|] == t;
    } else {
      assert t + nl == t;
    }
  }

  /** A non-empty digit run followed by a unit that starts with a non-digit is
      read as that run's value classified by the unit. */
  lemma Val2BaseOfShape(digits: string, unit: string, nl: string)
    requires |digits| > 0 && AllDigits(digits)
    requires |unit| > 0 && !IsDigit(unit[0]) && unit[|unit| - 1] != '\n'
    requires nl == "" || nl == "\n"
    ensures Val2Base(digits + unit + nl) == Classify(DigitsValue(digits), unit, digits + unit + nl)
  {
    var t := digits + unit;
    BodyOf(t, nl);
    assert t[..|digits|] == digits;
    assert t[|digits|..] == unit;
    DigitRunUnique(t, |digits|);
  }

  /** `<digits>Ki`, `<digits>Mi`, `<digits>Gi` in any case, optionally followed by
      one newline, are byte counts. */
  lemma Val2BaseBytes(digits: string, unit: string, nl: string)
    requires |digits| > 0 && AllDigits(digits)
    requires nl == "" || nl == "\n"
    ensures FoldsEach(unit, "ki") ==> Val2Base(digits + unit + nl) == Num(DigitsValue(digits) * KiB)
    ensures FoldsEach(unit, "mi") ==> Val2Base(digits + unit + nl) == Num(DigitsValue(digits) * MiB)
    ensures FoldsEach(unit, "gi") ==> Val2Base(digits + unit + nl) == Num(DigitsValue(digits) * GiB)
  {
    if |unit| == 2 && FoldsTo(unit[1], 'i') && (FoldsTo(unit[0], 'k') || FoldsTo(unit[0], 'm') || FoldsTo(unit[0], 'g')) {
      Val2BaseOfShape(digits, unit, nl);
    }
  }

  /** `<digits>m` in any case is a number of minutes, converted to seconds. */
  lemma Val2BaseMinutes(digits: string, unit: string, nl: string)
    requires |digits| > 0 && AllDigits(digits)
    requires nl == "" || nl == "\n"
    requires FoldsEach(unit, "m")
    ensures Val2Base(digits + unit + nl) == Num(DigitsValue(digits) * SecondsPerMinute)
  {
    assert FoldsTo(unit[0], 'm');
    assert |unit| == 1 && !IsMinSecTail(unit);
    assert !FoldsEach(unit, "ki") && !FoldsEach(unit, "mi") && !FoldsEach(unit, "gi");
    Val2BaseOfShape(digits, unit, nl);
  }

  /** `<digits>m<digits>s` never yields a number: the source adds the seconds
      group, still a str, to an int. */
  lemma Val2BaseMinSecFails(minutes: string, m: char, seconds: string, sec: char, nl: string)
    requires |minutes| > 0 && AllDigits(minutes) && |seconds| > 0 && AllDigits(seconds)
    requires FoldsTo(m, 'm') && FoldsTo(sec, 's')
    requires nl == "" || nl == "\n"
    ensures Val2Base(minutes + [m] + seconds + [sec] + nl) == Fail
  {
    var unit := [m] + seconds + [sec];
    assert minutes + [m] + seconds + [sec] + nl == minutes + unit + nl;
    assert unit[1..|unit| - 1] == seconds;
    assert IsMinSecTail(unit) && |unit| >= 3;
    assert !FoldsEach(unit, "ki") && !FoldsEach(unit, "mi") && !FoldsEach(unit, "gi");
    Val2BaseOfShape(minutes, unit, nl);
  }

  /** `val2base` handling `1m0s`, which its docstring lists: pattern 4 adds the
      seconds as a number, `int(minutes) * 60 + int(seconds)`, and every other
      value is converted as before. Since no other pattern matches where pattern
      4 does (`PatternsExclusive`), this is the cascade with only pattern 4's
      result changed. It never fails, and it differs from the code as written
      exactly on the `<digits>m<digits>s` values, where the code raises. */
  function Val2BaseIntended(s: string): (r: Base)
    ensures !r.Fail?
    ensures MatchMinSec(s).None? ==> r == Val2Base(s)
    ensures MatchMinSec(s).Some? ==> Val2Base(s) == Fail && r != Val2Base(s)
  {
    PatternsExclusive(s);
    var ms := MatchMinSec(s);
    if ms.Some? then Num(DigitsValue(ms.value.0) * SecondsPerMinute + DigitsValue(ms.value.1))
    else Val2Base(s)
  }

  /** Pattern 4 captures the minutes and the seconds of `<digits>m<digits>s`. */
  lemma MatchMinSecGroups(minutes: string, m: char, seconds: string, sec: char, nl: string)
    requires |minutes| > 0 && AllDigits(minutes) && |seconds| > 0 && AllDigits(seconds)
    requires FoldsTo(m, 'm') && FoldsTo(sec, 's')
    requires nl == "" || nl == "\n"
    ensures MatchMinSec(minutes + [m] + seconds + [sec] + nl) == Some((minutes, seconds))
  {
    var t := minutes + [m] + seconds + [sec];
    assert minutes + [m] + seconds + [sec] + nl == t + nl;
    LetterIsNotDigit(sec, 's');
    BodyOf(t, nl);
    LetterIsNotDigit(m, 'm');
    assert t[..|minutes|] == minutes;
    DigitRunUnique(t, |minutes|);
    assert t[|minutes| + 1..|t| - 1] == seconds;
  }

  /** As intended, `<digits>m<digits>s` is the total number of seconds. */
  lemma Val2BaseIntendedMinSec(minutes: string, m: char, seconds: string, sec: char, nl: string)
    requires |minutes| > 0 && AllDigits(minutes) && |seconds| > 0 && AllDigits(seconds)
    requires FoldsTo(m, 'm') && FoldsTo(sec, 's')
    requires nl == "" || nl == "\n"
    ensures Val2BaseIntended(minutes + [m] + seconds + [sec] + nl)
      == Num(DigitsValue(minutes) * SecondsPerMinute + DigitsValue(seconds))
  {
    var x := minutes + [m] + seconds + [sec] + nl;
    MatchMinSecGroups(minutes, m, seconds, sec, nl);
    var g := MatchMinSec(x).value;
    assert g.0 == minutes && g.1 == seconds;
  }

  /** A value that does not start with a digit, or whose (anchored) end is not one
      of the unit letters i, m, s, passes through unchanged. */
  lemma Val2BasePassThrough(s: string)
    ensures DigitRun(Body(s)) == 0 ==> Val2Base(s) == Str(s)
    ensures (var b := Body(s); |b| == 0 || !(FoldsTo(b[|b| - 1], 'i') || FoldsTo(b[|b| - 1], 'm') || FoldsTo(b[|b| - 1], 's')))
      ==> Val2Base(s) == Str(s)
  {
    var b := Body(s);
    var k := DigitRun(b);
    var t := b[k..];
    if |t| > 0 {
      assert t[|t| - 1] == b[|b| - 1];
    }
  }

  /** The example values, spelled as the parts the shape lemmas take. */
  lemma Spellings()
    ensures "15" + "Ki" + "" == "15Ki"
    ensures "2048" + "ki" + "" == "2048ki"
    ensures "1" + "Mi" + "" == "1Mi"
    ensures "1" + "Gi" + "" == "1Gi"
    ensures "250" + "m" + "" == "250m"
    ensures "1" + ['m'] + "0" + ['s'] + "" == "1m0s"
    ensures "5" + ['m'] + "0" + ['s'] + "" == "5m0s"
  {
  }

  /** `15Ki` is the byte value the docstring of `val2base` lists first. */
  lemma KibibyteExample()
    ensures Val2Base("15Ki") == Num(15360)
  {
    Spellings();
    NumeralValues();
    assert FoldsEach("Ki", "ki");
    Val2BaseBytes("15", "Ki", "");
  }

  lemma LowerCaseKibibyteExample()
    ensures Val2Base("2048ki") == Num(2097152)
  {
    Spellings();
    NumeralValues();
    assert FoldsEach("ki", "ki");
    Val2BaseBytes("2048", "ki", "");
  }

  lemma MebibyteExample()
    ensures Val2Base("1Mi") == Num(1048576)
  {
    Spellings();
    NumeralValues();
    assert FoldsEach("Mi", "mi");
    Val2BaseBytes("1", "Mi", "");
  }

  lemma GibibyteExample()
    ensures Val2Base("1Gi") == Num(1073741824)
  {
    Spellings();
    NumeralValues();
    assert FoldsEach("Gi", "gi");
    Val2BaseBytes("1", "Gi", "");
  }

  /** Duration values: "250m" is read as 250 minutes, and "1m0s" raises. */
  lemma MinutesExample()
    ensures Val2Base("250m") == Num(15000)
  {
    Spellings();
    NumeralValues();
    Val2BaseMinutes("250", "m", "");
  }

  lemma MinSecExample()
    ensures Val2Base("1m0s") == Fail
  {
    Spellings();
    Val2BaseMinSecFails("1", 'm', "0", 's', "");
  }

  /** `1m0s`, listed in the docstring of `val2base`, is 60 seconds once pattern 4
      is corrected. */
  lemma IntendedMinSecExample()
    ensures Val2BaseIntended("1m0s") == Num(60)
  {
    Spellings();
    NumeralValues();
    Val2BaseIntendedMinSec("1", 'm', "0", 's', "");
  }

  lemma IntendedFiveMinutesExample()
    ensures Val2BaseIntended("5m0s") == Num(300)
  {
    Spellings();
    NumeralValues();
    Val2BaseIntendedMinSec("5", 'm', "0", 's', "");
  }

  /** Values matching none of the five patterns come back unchanged. */
  lemma PassThroughExamples()
    ensures Val2Base("") == Str("")
    ensures Val2Base("abc") == Str("abc")
  {
    Val2BasePassThrough("");
    Val2BasePassThrough("abc");
  }

  /** A bare number and a fractional quantity are not converted either. */
  lemma UnconvertedNumberExamples()
    ensures Val2Base("42") == Str("42")
    ensures Val2Base("1.5Ki") == Str("1.5Ki")
  {
    Val2BasePassThrough("42");
    DigitRunUnique("1.5Ki", 1);
    assert Val2Base("1.5Ki") == Reading("1.5Ki");
  }
}
