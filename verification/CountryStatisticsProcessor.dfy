/**
 * The transform of the country report step: drop countries with too few customers,
 * round the money figures to cents, and give a missing country a name.
 */
module StatisticsProcessing {
  import opened Wrappers
  import opened Ascii
  import opened Domain

  /** Countries with fewer customers than this are filtered out. */
  const MinCustomerCount: int := 1

  /** The rounding scale: 10 to the power of the two decimal places kept. */
  const Multiplier: real := 100.0

  const Unknown: string := "UNKNOWN"

  /** A whole number of cents. */
  predicate IsCents(x: real)
  {
    (x * Multiplier).Floor as real == x * Multiplier
  }

  /** round(value) = Math.round(value * 100) / 100, where Math.round(x) is floor(x + 1/2);
      computed over exact reals. The result is the whole number of cents nearest to the
      value, ties going up. */
  function Round(v: real): (r: real)
    ensures IsCents(r)
    ensures r - 0.005 <= v < r + 0.005
  {
    (v * Multiplier + 0.5).Floor as real / Multiplier
  }

  /** The two properties of Round determine it: any whole number of cents within half
      a cent below or less than half a cent above the value is the rounded value. */
  lemma RoundUnique(v: real, r: real)
    requires IsCents(r)
    requires r - 0.005 <= v < r + 0.005
    ensures Round(v) == r
  {
    var n := (r * Multiplier).Floor;
    assert n as real <= v * Multiplier + 0.5 < n as real + 1.0;
    assert (v * Multiplier + 0.5).Floor == n;
  }

  /** Rounding a rounded amount changes nothing. */
  lemma RoundIdempotent(v: real)
    ensures Round(Round(v)) == Round(v)
  {
    RoundUnique(Round(v), Round(v));
  }

  /** The rounding cases of the processor's unit tests. */
  lemma RoundExamples()
    ensures Round(1234.56789) == 1234.57
    ensures Round(123.456789) == 123.46
    ensures Round(99.999) == 100.0
    ensures Round(33.333) == 33.33
  {
    RoundUnique(1234.56789, 1234.57);
    RoundUnique(123.456789, 123.46);
    RoundUnique(99.999, 100.0);
    RoundUnique(33.333, 33.33);
  }

  /** CountryStatisticsProcessor.process on the record a statistics object holds. */
  function ProcessStatistics(s: CountryStatistics): (r: Option<CountryStatistics>)
    ensures r.None? <==> s.customerCount < MinCustomerCount
    ensures r.Some? ==> r.value.customerCount == s.customerCount
    ensures r.Some? ==> (r.value.totalRevenue.None? <==> s.totalRevenue.None?)
    ensures r.Some? ==> (r.value.averagePurchaseAmount.None? <==> s.averagePurchaseAmount.None?)
    ensures r.Some? && s.totalRevenue.Some? ==>
      r.value.totalRevenue.value == Round(s.totalRevenue.value)
    ensures r.Some? && s.averagePurchaseAmount.Some? ==>
      r.value.averagePurchaseAmount.value == Round(s.averagePurchaseAmount.value)
    ensures r.Some? && (s.country.None? || IsBlank(s.country.value)) ==> r.value.country == Some(Unknown)
    ensures r.Some? && s.country.Some? && !IsBlank(s.country.value) ==> r.value.country == s.country
  {
    if s.customerCount < MinCustomerCount then None
    else
      var total := if s.totalRevenue.Some? then Some(Round(s.totalRevenue.value)) else None;
      var average :=
        if s.averagePurchaseAmount.Some? then Some(Round(s.averagePurchaseAmount.value)) else None;
      var country := if s.country.None? || IsBlank(s.country.value) then Some(Unknown) else s.country;
      Some(CountryStatistics(country, s.customerCount, total, average))
  }

  /** CountryStatisticsProcessor.process on the object: a filtered statistic is left
      untouched, a kept one is the same object with its setters applied. */
  method Process(statistics: StatisticsBean) returns (r: StatisticsBean?)
    modifies statistics
    ensures r == null <==> ProcessStatistics(old(statistics.Value())).None?
    ensures r == null ==> statistics.Value() == old(statistics.Value())
    ensures r != null ==>
      r == statistics && ProcessStatistics(old(statistics.Value())) == Some(statistics.Value())
  {
    if statistics.customerCount < MinCustomerCount {
      return null;
    }
    if statistics.totalRevenue.Some? {
      statistics.totalRevenue := Some(Round(statistics.totalRevenue.value));
    }
    if statistics.averagePurchaseAmount.Some? {
      statistics.averagePurchaseAmount := Some(Round(statistics.averagePurchaseAmount.value));
    }
    if statistics.country.None? || IsBlank(statistics.country.value) {
      statistics.country := Some(Unknown);
    }
    return statistics;
  }

  /** A processed statistic passes through the processor unchanged. */
  lemma {:induction false} ProcessStatisticsIdempotent(s: CountryStatistics)
    requires ProcessStatistics(s).Some?
    ensures ProcessStatistics(ProcessStatistics(s).value) == ProcessStatistics(s)
  {
    var t := ProcessStatistics(s).value;
    if s.totalRevenue.Some? {
      RoundIdempotent(s.totalRevenue.value);
    }
    if s.averagePurchaseAmount.Some? {
      RoundIdempotent(s.averagePurchaseAmount.value);
    }
    assert !IsBlank(t.country.value) by {
      if s.country.None? || IsBlank(s.country.value) {
        assert !IsJavaWhitespace(Unknown[0]);
      }
    }
  }

  /** The cases of the processor's unit tests. */
  lemma ProcessorTestCases()
    ensures ProcessStatistics(CountryStatistics(Some("USA"), 10, Some(1234.56789), Some(123.456789)))
      == Some(CountryStatistics(Some("USA"), 10, Some(1234.57), Some(123.46)))
    ensures ProcessStatistics(CountryStatistics(Some("USA"), 0, Some(100.0), Some(100.0))) == None
    ensures ProcessStatistics(CountryStatistics(None, 5, Some(500.0), Some(100.0))).value.country
      == Some(Unknown)
    ensures ProcessStatistics(CountryStatistics(Some("   "), 5, Some(500.0), Some(100.0))).value.country
      == Some(Unknown)
    ensures ProcessStatistics(CountryStatistics(Some("UK"), 3, Some(99.999), Some(33.333)))
      == Some(CountryStatistics(Some("UK"), 3, Some(100.0), Some(33.33)))
  {
    RoundExamples();
    assert !IsBlank("USA") by { assert !IsJavaWhitespace("USA"[0]); }
    assert !IsBlank("UK") by { assert !IsJavaWhitespace("UK"[0]); }
    assert IsBlank("   ");
  }
}
