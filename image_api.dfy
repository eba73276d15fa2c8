/** The client's display helpers: the percentage a processed image saved, and
    a byte count written in B, KB or MB with two decimals. */
module ImageApi {
  import opened Text
  import opened JsMath

  // ---------------------------------------------------------------- calculateReduction

  /** A JavaScript number as `calculateReduction` can return it: an integer
      percentage, or the non-finite results of dividing by an empty original. */
  datatype Reduction = Percent(p: int) | NotANumber | MinusInfinity

  /** The saving of `processed` over `original` bytes, in whole percent
      rounded as `Math.round` does; an empty original divides by zero. */
  function CalculateReduction(original: nat, processed: nat): (r: Reduction)
    ensures r.Percent? <==> original > 0
    ensures r == NotANumber <==> original == 0 && processed == 0
    ensures r.Percent? ==>
              r.p as real - 0.5 <= (original - processed) as real * 100.0 / original as real < r.p as real + 0.5
  {
    if original == 0 then
      if processed == 0 then NotANumber else MinusInfinity
    else
      var ratio := (original - processed) as real / original as real;
      assert ratio * 100.0 == (original - processed) as real * 100.0 / original as real;
      Percent(Round(ratio * 100.0))
  }

  /** An unchanged size saves 0%, an empty output saves 100%, a smaller
      output saves between 0 and 100%, and a larger one saves at most 0%. */
  lemma ReductionBounds(original: nat, processed: nat)
    requires original > 0
    ensures processed == original ==> CalculateReduction(original, processed) == Percent(0)
    ensures processed == 0 ==> CalculateReduction(original, processed) == Percent(100)
    ensures processed <= original ==> 0 <= CalculateReduction(original, processed).p <= 100
    ensures processed > original ==> CalculateReduction(original, processed).p <= 0
  {
    var x := (original - processed) as real * 100.0 / original as real;
    if processed <= original {
      assert 0.0 <= x <= 100.0 by {
        assert (original - processed) as real * 100.0 <= original as real * 100.0;
      }
    } else {
      assert x < 0.0;
    }
    if processed == 0 {
      assert x == 100.0;
      RoundInteger(100);
    }
  }

  /** A larger output never reports a larger saving. */
  lemma ReductionMonotone(original: nat, smaller: nat, larger: nat)
    requires original > 0 && smaller <= larger
    ensures CalculateReduction(original, larger).p <= CalculateReduction(original, smaller).p
  {
    var o := original as real;
    var x := (original - larger) as real / o;
    var y := (original - smaller) as real / o;
    assert x <= y by {
      assert (original - larger) as real <= (original - smaller) as real;
    }
    assert x * 100.0 <= y * 100.0;
    RoundMonotone(x * 100.0, y * 100.0);
  }

  /** 250 of 1000 bytes left is a 75% saving; 1 of 8 left is 87.5%, shown as 88. */
  lemma ReductionExamples()
    ensures CalculateReduction(1000, 250) == Percent(75)
    ensures CalculateReduction(8, 1) == Percent(88)
    ensures CalculateReduction(0, 10) == MinusInfinity
  {
    assert (1000 - 250) as real / 1000 as real * 100.0 == 75.0;
    assert (8 - 1) as real / 8 as real * 100.0 == 87.5;
  }

  // ---------------------------------------------------------------- formatBytes

  const KiB: nat := 1024
  const MiB: nat := 1024 * 1024

  /** `(num / den).toFixed(2)` counts hundredths: the n nearest to
      100 * num / den, the larger on a tie. The quotient is exact in binary
      floating point for the power-of-two divisors used here. */
  function Hundredths(num: nat, den: nat): (n: nat)
    requires den > 0
    ensures 2 * den * n <= 200 * num + den < 2 * den * (n + 1)
  {
    var n := (200 * num + den) / (2 * den);
    DivisionBounds(200 * num + den, 2 * den);
    n
  }

  lemma DivisionBounds(a: nat, b: nat)
    requires b > 0
    ensures b * (a / b) <= a < b * (a / b + 1)
  {
  }

  /** Hundredths written with two decimals: the integer part, a point and
      exactly two digits. */
  function Fixed2(n: nat): (s: string)
    ensures |s| >= 4 && s[|s| - 3] == '.'
    ensures AllDigits(s[..|s| - 3]) && AllDigits(s[|s| - 2..])
  {
    NatToString(n / 100) + "." + [DigitChar(n % 100 / 10), DigitChar(n % 10)]
  }

  /** Reads a two-decimal number back as hundredths. */
  function ParseFixed2(s: string): nat
    requires |s| >= 4 && s[|s| - 3] == '.'
    requires AllDigits(s[..|s| - 3]) && AllDigits(s[|s| - 2..])
  {
    ParseDecimal(s[..|s| - 3]) * 100 + ParseDecimal(s[|s| - 2..])
  }

  /** The two-decimal text reads back as the hundredths it was written from. */
  lemma Fixed2RoundTrip(n: nat)
    ensures ParseFixed2(Fixed2(n)) == n
  {
    var s := Fixed2(n);
    var whole := NatToString(n / 100);
    var tens, units := DigitChar(n % 100 / 10), DigitChar(n % 10);
    assert s[..|s| - 3] == whole;
    assert s[|s| - 2..] == [tens, units];
    ParseRendered(n / 100);
    ParseTwoDigits(n % 100 / 10, n % 10);
  }

  lemma ParseTwoDigits(a: nat, b: nat)
    requires a < 10 && b < 10
    ensures ParseDecimal([DigitChar(a), DigitChar(b)]) == 10 * a + b
  {
    var s := [DigitChar(a), DigitChar(b)];
    assert s[..1] == [DigitChar(a)];
    assert [DigitChar(a)][..0] == [];
    assert ParseDecimal([DigitChar(a)]) == a;
    assert ParseDecimal(s) == ParseDecimal(s[..1]) * 10 + b;
  }

  /** `formatBytes`: bytes below 1 KiB, kibibytes below 1 MiB, mebibytes above. */
  function FormatBytes(bytes: nat): (r: string)
  {
    if bytes < KiB then NatToString(bytes) + " B"
    else if bytes < MiB then Fixed2(Hundredths(bytes, KiB)) + " KB"
    else Fixed2(Hundredths(bytes, MiB)) + " MB"
  }

  predicate EndsWith(s: string, suffix: string) {
    |suffix| <= |s| && s[|s| - |suffix|..] == suffix
  }

  /** The unit follows the size's range, and the number in front of it reads
      back as the size (below 1 KiB) or as the size in that unit to the
      nearest hundredth (ties up). */
  lemma FormatBytesMeaning(bytes: nat)
    ensures var r := FormatBytes(bytes);
      && (bytes < KiB ==> (EndsWith(r, " B") && AllDigits(r[..|r| - 2]) && ParseDecimal(r[..|r| - 2]) == bytes))
      && (KiB <= bytes < MiB ==> (EndsWith(r, " KB") && ShowsNearestHundredth(r[..|r| - 3], bytes, KiB)))
      && (MiB <= bytes ==> (EndsWith(r, " MB") && ShowsNearestHundredth(r[..|r| - 3], bytes, MiB)))
  {
    var r := FormatBytes(bytes);
    if bytes < KiB {
      assert r[..|r| - 2] == NatToString(bytes);
      ParseRendered(bytes);
    } else {
      var den := if bytes < MiB then KiB else MiB;
      var n := Hundredths(bytes, den);
      assert r[..|r| - 3] == Fixed2(n);
      Fixed2RoundTrip(n);
    }
  }

  /** `t` is a two-decimal number whose hundredths are nearest to
      100 * num / den, the larger on a tie. */
  predicate ShowsNearestHundredth(t: string, num: nat, den: nat)
    requires den > 0
  {
    && |t| >= 4 && t[|t| - 3] == '.' && AllDigits(t[..|t| - 3]) && AllDigits(t[|t| - 2..])
    && 2 * den * ParseFixed2(t) <= 200 * num + den < 2 * den * (ParseFixed2(t) + 1)
  }

  /** One byte short of a mebibyte is shown as "1024.00 KB", not "1.00 MB". */
  lemma FormatBytesJustBelowMiB()
    ensures FormatBytes(MiB - 1) == Fixed2(102400) + " KB"
    ensures Fixed2(102400) == NatToString(1024) + ".00"
  {
    var n := Hundredths(MiB - 1, KiB);
    assert n == 102400;
  }
}
