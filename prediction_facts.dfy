/** What the engine promises about the series and statistics it computes,
    proved of the specification functions that `CalculatePrediction` is
    verified against. */
module PredictionFacts {
  import opened Wrappers
  import opened JsMath
  import opened Labels
  import opened Prediction

  // ---------------------------------------------------------------------
  // Shape of the series
  // ---------------------------------------------------------------------

  /** `allData` has the 36 months 0..35 in order: 24 historical records
      followed by 12 predicted ones, each in the year 2020 + floor(t / 12)
      (the literal 2022 of the prediction loop agrees with that formula). */
  lemma AllDataShape(p: Params, actual: seq<real>, m: MathOps)
    requires |actual| == 12
    ensures var all := HistoricalSeries(p, m) + PredictionSeries(p, actual, m);
      && |HistoricalSeries(p, m)| == 24
      && |PredictionSeries(p, actual, m)| == 12
      && |all| == 36
      && (forall t :: 0 <= t < 36 ==> all[t].month == t && all[t].year == 2020 + t / 12)
      && (forall t :: 0 <= t < 36 ==> (all[t].Historical? <==> t < 24))
  {
    var h, q := HistoricalSeries(p, m), PredictionSeries(p, actual, m);
    var all := h + q;
    forall t | 0 <= t < 36
      ensures all[t].month == t && all[t].year == 2020 + t / 12
      ensures all[t].Historical? <==> t < 24
    {
      if t < 24 {
        assert all[t] == HistoricalRecord(p, m, t);
      } else {
        assert all[t] == q[t - 24] == PredictionRecord(p, actual, m, t);
      }
    }
  }

  /** Every month of `allData` carries the label `m/yyyy` with m = (t % 12) + 1
      in 1..12 and yyyy its year; the label reads back to exactly that pair. */
  lemma AllDataLabels(p: Params, actual: seq<real>, m: MathOps, t: int)
    requires |actual| == 12 && 0 <= t < 36
    ensures var all := HistoricalSeries(p, m) + PredictionSeries(p, actual, m);
      && all[t].date == Date(t % 12 + 1, 2020 + t / 12)
      && ParseDate(DateText(all[t].date)) == Some(all[t].date)
      && 1 <= t % 12 + 1 <= 12
  {
    var h, q := HistoricalSeries(p, m), PredictionSeries(p, actual, m);
    var all := h + q;
    if t < 24 {
      assert all[t] == HistoricalRecord(p, m, t);
    } else {
      assert all[t] == q[t - 24] == PredictionRecord(p, actual, m, t);
    }
    assert JsRem12(t) == t % 12;
    DateTextRoundTrip(all[t].date);
  }

  /** The vaccination series runs from the start month to month 35: 36 - start
      entries, none when the start month is after 35. */
  lemma VaccineShape(p: Params)
    ensures |VaccineSeries(p)| == (if p.tVaccineStart > 35 then 0 else 36 - p.tVaccineStart)
    ensures VaccineSeries(p) == [] <==> p.tVaccineStart > 35
    ensures forall i :: 0 <= i < |VaccineSeries(p)| ==>
              VaccineSeries(p)[i].month == p.tVaccineStart + i
              && VaccineSeries(p)[i].year == 2020 + (p.tVaccineStart + i) / 12
  {
    var v := VaccineSeries(p);
    forall i | 0 <= i < |v|
      ensures v[i].month == p.tVaccineStart + i && v[i].year == 2020 + (p.tVaccineStart + i) / 12
    {
      assert v[i] == VaccineRecordAt(p, p.tVaccineStart + i);
    }
  }

  // ---------------------------------------------------------------------
  // The vaccination ramp
  // ---------------------------------------------------------------------

  /** Coverage after k >= 0 months lies in [0, 0.75]: 3% a month until it
      reaches 75% in month 25. */
  lemma CoverageBounds(k: int)
    requires k >= 0
    ensures 0.0 <= Coverage(k) <= 0.75
    ensures Coverage(k) == if k < 25 then 0.03 * k as real else 0.75
  {
  }

  /** Coverage never decreases. */
  lemma CoverageMonotone(k1: int, k2: int)
    requires k1 <= k2
    ensures Coverage(k1) <= Coverage(k2)
  {
  }

  /** Each vaccination record counts `round(10000 * coverage)` people, which
      is between 0 and 7500, and shows the coverage as an exact percentage
      between 0 and 75. */
  lemma {:induction false} VaccineRecordFacts(p: Params, t: int)
    requires t >= p.tVaccineStart
    ensures var k := t - p.tVaccineStart;
      && VaccineRecordAt(p, t).vaccinated == (if k < 25 then 300 * k else 7500)
      && 0 <= VaccineRecordAt(p, t).vaccinated <= 7500
      && VaccineRecordAt(p, t).coveragePercent == Coverage(k) * 100.0
      && VaccineRecordAt(p, t).coveragePercent == (if k < 25 then 3 * k else 75) as real
  {
    var k := t - p.tVaccineStart;
    var c := Coverage(k);
    CoverageBounds(k);
    var people := if k < 25 then 300 * k else 7500;
    var percent := if k < 25 then 3 * k else 75;
    assert TotalPopulation as real * c == people as real;
    assert c * 100.0 == percent as real;
    RoundOfInteger(people);
    ToFixed1OfInteger(percent);
  }

  /** `finalCoverage` is 0 for an empty vaccination series and otherwise the
      coverage of month 35, the last one. */
  lemma FinalCoverageValue(p: Params)
    ensures p.tVaccineStart > 35 ==> FinalCoverage(VaccineSeries(p)) == 0.0
    ensures p.tVaccineStart <= 35 ==>
      var k := 35 - p.tVaccineStart;
      && VaccineSeries(p)[|VaccineSeries(p)| - 1].month == 35
      && FinalCoverage(VaccineSeries(p)) == (if k < 25 then 3 * k else 75) as real
  {
    if p.tVaccineStart <= 35 {
      var v := VaccineSeries(p);
      assert v[|v| - 1] == VaccineRecordAt(p, 35);
      VaccineRecordFacts(p, 35);
    }
  }

  // ---------------------------------------------------------------------
  // The infection curve
  // ---------------------------------------------------------------------

  /** Before the vaccine start month, a month's infections are
      round(Q0 * exp(k_before * t)). */
  lemma PreVaccineInfections(p: Params, m: MathOps, t: int)
    requires 0 <= t < 24 && t < p.tVaccineStart
    ensures HistoricalSeries(p, m)[t].infections == Round(p.q0 * m.exp(p.kBefore * t as real))
  {
    var g := Growth(m, p.kBefore, t);
    assert g == m.exp(p.kBefore * t as real);
    assert HistoricalQ(p, m, t) == p.q0 * g;
    assert HistoricalSeries(p, m)[t] == HistoricalRecord(p, m, t);
  }

  /** A historical month's count is its unrounded value, rounded. */
  lemma HistoricalInfections(p: Params, m: MathOps, t: int)
    requires 0 <= t < 24
    ensures HistoricalSeries(p, m)[t].infections == Round(HistoricalQ(p, m, t))
  {
    assert HistoricalSeries(p, m)[t] == HistoricalRecord(p, m, t);
  }

  /** Month 0 has round(Q0) infections when vaccination starts later. */
  lemma MonthZero(p: Params, m: MathOps)
    requires ExpLaws(m) && p.tVaccineStart > 0
    ensures HistoricalSeries(p, m)[0].infections == Round(p.q0)
  {
    assert p.kBefore * 0 as real == 0.0;
  }

  /** When vaccination starts in month 0, month 0 already follows the
      post-vaccine formula: Q0 dampened by (1 - 0.8 * average efficacy). */
  lemma MonthZeroAtVaccineStart(p: Params, m: MathOps)
    requires ExpLaws(m) && p.tVaccineStart == 0
    ensures HistoricalSeries(p, m)[0].infections == Round(p.q0 * (1.0 - AvgEfficacy(p) * 0.8))
  {
    assert p.kBefore * 0 as real == 0.0;
    assert p.kAfter * 0 as real == 0.0;
  }

  /** With a positive pre-vaccine growth rate and a positive Q0 the unrounded
      curve strictly increases before vaccination starts. */
  lemma PreVaccineIncreasing(p: Params, m: MathOps, t1: int, t2: int)
    requires ExpLaws(m) && p.kBefore > 0.0 && p.q0 > 0.0
    requires t1 < t2 < p.tVaccineStart
    ensures HistoricalQ(p, m, t1) < HistoricalQ(p, m, t2)
  {
    var e1, e2 := Growth(m, p.kBefore, t1), Growth(m, p.kBefore, t2);
    assert p.kBefore * t1 as real < p.kBefore * t2 as real by {
      ScaleStrict(p.kBefore, t1 as real, t2 as real);
    }
    assert e1 < e2;
    ScaleStrict(p.q0, e1, e2);
    assert HistoricalQ(p, m, t1) == p.q0 * e1;
    assert HistoricalQ(p, m, t2) == p.q0 * e2;
  }

  /** Scaling by a positive factor keeps a strict order. */
  lemma ScaleStrict(c: real, a: real, b: real)
    requires c > 0.0 && a < b
    ensures c * a < c * b
  {
    assert c * b - c * a == c * (b - a);
  }

  /** ... so the rounded counts of the historical months never decrease before
      vaccination starts (Q0 >= 0 is enough for that). */
  lemma PreVaccineNonDecreasing(p: Params, m: MathOps, t1: int, t2: int)
    requires ExpLaws(m) && p.kBefore > 0.0 && p.q0 >= 0.0
    requires 0 <= t1 <= t2 < 24 && t2 < p.tVaccineStart
    ensures HistoricalSeries(p, m)[t1].infections <= HistoricalSeries(p, m)[t2].infections
  {
    var q1, q2 := HistoricalQ(p, m, t1), HistoricalQ(p, m, t2);
    HistoricalInfections(p, m, t1);
    HistoricalInfections(p, m, t2);
    if t1 < t2 && p.q0 > 0.0 {
      PreVaccineIncreasing(p, m, t1, t2);
    } else if t1 < t2 {
      assert q1 == p.q0 * Growth(m, p.kBefore, t1) == 0.0;
      assert q2 == p.q0 * Growth(m, p.kBefore, t2) == 0.0;
    }
    RoundMonotone(q1, q2);
  }

  /** The reference parameters: the weighted efficacy is 0.8, and month 13
      (the start month) has round(100 * exp(5.46) * 0.36) infections. */
  lemma ReferenceMonth13(m: MathOps)
    requires ExpLaws(m)
    ensures AvgEfficacy(ReferenceParams) == 0.8
    ensures HistoricalSeries(ReferenceParams, m)[13].infections == Round(100.0 * m.exp(5.46) * 0.36)
  {
    var p := ReferenceParams;
    assert p.kBefore * p.tVaccineStart as real == 5.46;
    assert p.kAfter * 0 as real == 0.0;
    assert 1.0 - AvgEfficacy(p) * 0.8 == 0.36;
  }

  /** The coverage ramp of the prediction months lies in [0.55, 1] and is 1
      exactly from month 33 on; it does not depend on the start month. */
  lemma CoverageEffectBounds(t: int)
    requires 24 <= t <= 35
    ensures 0.55 <= CoverageEffect(t) <= 1.0
    ensures CoverageEffect(t) == 1.0 <==> t >= 33
  {
  }

  /** Once the ramp is full (months 33..35) a predicted month follows the same
      post-vaccine formula as the historical months do. */
  lemma PredictionMeetsHistoricalFormula(p: Params, m: MathOps, t: int)
    requires 33 <= t <= 35 && p.tVaccineStart <= t
    ensures PredictionQ(p, m, t) == HistoricalQ(p, m, t)
  {
    assert CoverageEffect(t) == 1.0;
  }

  // ---------------------------------------------------------------------
  // Sums
  // ---------------------------------------------------------------------

  lemma {:induction false} SumInfectionsConcat(a: seq<MonthRecord>, b: seq<MonthRecord>)
    ensures SumInfections(a + b) == SumInfections(a) + SumInfections(b)
  {
    if a == [] {
      assert a + b == b;
    } else {
      assert (a + b)[0] == a[0];
      assert (a + b)[1..] == a[1..] + b;
      SumInfectionsConcat(a[1..], b);
    }
  }

  lemma SumInfectionsSplit(s: seq<MonthRecord>, k: int)
    requires 0 <= k <= |s|
    ensures SumInfections(s) == SumInfections(s[..k]) + SumInfections(s[k..])
  {
    assert s == s[..k] + s[k..];
    SumInfectionsConcat(s[..k], s[k..]);
  }

  lemma {:induction false} SumRealsNonNegative(s: seq<real>)
    requires forall i :: 0 <= i < |s| ==> s[i] >= 0.0
    ensures SumReals(s) >= 0.0
  {
    if s != [] {
      SumRealsNonNegative(s[1..]);
    }
  }

  // ---------------------------------------------------------------------
  // The statistics block
  // ---------------------------------------------------------------------

  /** The 2020 and 2021 totals and averages of the statistics block, for any
      inputs with 12 months in each of those years. */
  lemma ObservedYearFields(hist: seq<MonthRecord>, pred: seq<MonthRecord>, vacc: seq<VaccineRecord>,
                           actual: seq<real>, m: MathOps)
    requires StatsDefined(hist, pred, actual)
    requires |FilterYear(hist, 2020)| == 12 && |FilterYear(hist, 2021)| == 12
    ensures var s := Statistics(hist, pred, vacc, actual, m);
      && s.total2020 == SumInfections(FilterYear(hist, 2020))
      && s.total2021 == SumInfections(FilterYear(hist, 2021))
      && s.avg2020 == Round(s.total2020 as real / 12.0)
      && s.avg2021 == Round(s.total2021 as real / 12.0)
  {
    var s := Statistics(hist, pred, vacc, actual, m);
    OverTwelve(s.total2020 as real, |FilterYear(hist, 2020)|);
    OverTwelve(s.total2021 as real, |FilterYear(hist, 2021)|);
  }

  /** The 2022 totals and averages of the statistics block, for any inputs
      with 12 predicted and 12 observed months. */
  lemma Year2022Fields(hist: seq<MonthRecord>, pred: seq<MonthRecord>, vacc: seq<VaccineRecord>,
                       actual: seq<real>, m: MathOps)
    requires StatsDefined(hist, pred, actual)
    requires |pred| == 12 && |actual| == 12
    ensures var s := Statistics(hist, pred, vacc, actual, m);
      && s.total2022pred == SumInfections(pred)
      && s.avg2022pred == Round(s.total2022pred as real / 12.0)
      && s.total2022actual == Round(SumReals(actual))
      && s.avg2022actual == Round(SumReals(actual) / 12.0)
  {
    var s := Statistics(hist, pred, vacc, actual, m);
    OverTwelve(s.total2022pred as real, |pred|);
    OverTwelve(SumReals(actual), |actual|);
  }

  /** Dividing by a count of 12 is dividing by 12. */
  lemma OverTwelve(x: real, n: int)
    requires n == 12
    ensures x / n as real == x / 12.0
  {
  }

  /** Filtering by year leaves 12 months for 2020 and 12 for 2021: the totals
      are the sums of those months, together the sum of the whole historical
      series, and the averages are the totals divided by 12, rounded. */
  lemma YearStatistics(p: Params, actual: seq<real>, m: MathOps)
    requires |actual| == 12
    ensures var s, h := CalculatedStats(p, actual, m), HistoricalSeries(p, m);
      && s.total2020 == SumInfections(h[..12])
      && s.total2021 == SumInfections(h[12..])
      && s.total2020 + s.total2021 == SumInfections(h)
      && s.avg2020 == Round(s.total2020 as real / 12.0)
      && s.avg2021 == Round(s.total2021 as real / 12.0)
  {
    var h := HistoricalSeries(p, m);
    HistoricalYearsFilled(p, m);
    PredictionSeriesPredicted(p, actual, m);
    ObservedYearFields(h, PredictionSeries(p, actual, m), VaccineSeries(p), actual, m);
    SumInfectionsSplit(h, 12);
  }

  /** The 2022 figures: the predicted total is the sum of the 12 predicted
      months, the observed total the sum of the observed series, each with
      its average over 12 months. */
  lemma Year2022Statistics(p: Params, actual: seq<real>, m: MathOps)
    requires |actual| == 12
    ensures var s := CalculatedStats(p, actual, m);
      && s.total2022pred == SumInfections(PredictionSeries(p, actual, m))
      && s.avg2022pred == Round(s.total2022pred as real / 12.0)
      && s.total2022actual == Round(SumReals(actual))
      && s.avg2022actual == Round(SumReals(actual) / 12.0)
  {
    HistoricalYearsFilled(p, m);
    PredictionSeriesPredicted(p, actual, m);
    Year2022Fields(HistoricalSeries(p, m), PredictionSeries(p, actual, m), VaccineSeries(p), actual, m);
  }

  /** The observed series the source ships with totals 19 980, 1 665 a month. */
  lemma ReferenceActualTotals(p: Params, m: MathOps)
    ensures CalculatedStats(p, ReferenceActual2022, m).total2022actual == 19980
    ensures CalculatedStats(p, ReferenceActual2022, m).avg2022actual == 1665
  {
    ReferenceActualSum();
    Year2022Statistics(p, ReferenceActual2022, m);
    RoundOfInteger(19980);
    RoundOfInteger(1665);
  }

  /** The observed 2022 series adds up to 19980. */
  lemma ReferenceActualSum()
    ensures SumReals(ReferenceActual2022) == 19980.0
  {
  }

  /** A percent reduction is defined exactly when the earlier total is not 0,
      and is then (from - to) / from * 100 to one decimal, within 0.05. */
  lemma PercentReductionFacts(from: real, to: real)
    ensures PercentReduction(from, to).Some? <==> from != 0.0
    ensures from != 0.0 ==>
      var exact := (from - to) / from * 100.0;
      && PercentReduction(from, to).value == ToFixed1(exact)
      && -0.05 <= PercentReduction(from, to).value - exact <= 0.05
  {
    if from != 0.0 {
      ToFixed1Bounds((from - to) / from * 100.0);
    }
  }

  /** The percent reductions from 2021 are defined exactly when the 2021
      total is not 0, and are then (total2021 - total2022) / total2021 * 100
      to one decimal. Stated for any inputs of the statistics block, so it
      covers every run (see CalculatedStats). */
  lemma ReductionStatistics(hist: seq<MonthRecord>, pred: seq<MonthRecord>, vacc: seq<VaccineRecord>,
                            actual: seq<real>, m: MathOps)
    requires StatsDefined(hist, pred, actual)
    ensures var s := Statistics(hist, pred, vacc, actual, m);
      && s.reduction2021to2022pred == PercentReduction(s.total2021 as real, s.total2022pred as real)
      && s.reduction2021to2022actual == PercentReduction(s.total2021 as real, SumReals(actual))
      && (s.reduction2021to2022pred.Some? <==> s.total2021 != 0)
      && (s.reduction2021to2022actual.Some? <==> s.total2021 != 0)
      && (s.total2021 != 0 ==>
            var exact := (s.total2021 - s.total2022pred) as real / s.total2021 as real * 100.0;
            -0.05 <= s.reduction2021to2022pred.value - exact <= 0.05)
  {
    var s := Statistics(hist, pred, vacc, actual, m);
    PercentReductionFacts(s.total2021 as real, s.total2022pred as real);
    PercentReductionFacts(s.total2021 as real, SumReals(actual));
    assert (s.total2021 as real - s.total2022pred as real) == (s.total2021 - s.total2022pred) as real;
  }

  /** Each error is |predicted - observed| for its month, so it is never
      negative; MAE, the variance and (given sqrt's law) the standard
      deviation are then non-negative too. */
  lemma ErrorStatistics(p: Params, actual: seq<real>, m: MathOps)
    requires |actual| == 12
    ensures PredictionSeriesFacts(p, actual, m)
    ensures var pred := PredictionSeries(p, actual, m);
      && (forall i :: 0 <= i < 12 ==>
            Errors(pred)[i] == Abs(pred[i].infections as real - actual[i]) >= 0.0)
      && MeanAbsoluteError(pred) >= 0.0
      && Variance(pred) >= 0.0
      && CalculatedStats(p, actual, m).mae >= 0
      && (SqrtLaws(m) ==> CalculatedStats(p, actual, m).std >= 0)
  {
    var pred := PredictionSeries(p, actual, m);
    PredictionSeriesPredicted(p, actual, m);
    var errors := Errors(pred);
    SumRealsNonNegative(errors);
    var mae := MeanAbsoluteError(pred);
    SumRealsNonNegative(SquaredDeviations(errors, mae));
    RoundMonotone(0.0, mae);
    if SqrtLaws(m) {
      RoundMonotone(0.0, m.sqrt(Variance(pred)));
    }
  }

  ghost predicate PredictionSeriesFacts(p: Params, actual: seq<real>, m: MathOps)
    requires |actual| == 12
  {
    var pred := PredictionSeries(p, actual, m);
    && |pred| == 12
    && AllPredicted(pred)
    && forall i :: 0 <= i < 12 ==> pred[i].actualInfections == actual[i]
  }

  /** The accuracy of the statistics block, for any inputs: it is defined
      exactly when no observed figure of the predicted months is 0; it is then
      100 - MAPE to one decimal, and never above 100. */
  lemma AccuracyOf(hist: seq<MonthRecord>, pred: seq<MonthRecord>, vacc: seq<VaccineRecord>,
                   actual: seq<real>, m: MathOps)
    requires StatsDefined(hist, pred, actual)
    ensures var s := Statistics(hist, pred, vacc, actual, m);
      && (s.accuracy.Some? <==> forall i :: 0 <= i < |pred| ==> pred[i].actualInfections != 0.0)
      && (s.accuracy.Some? ==>
            && Mape(pred).Some?
            && Mape(pred).value >= 0.0
            && s.accuracy.value == ToFixed1(100.0 - Mape(pred).value)
            && s.accuracy.value <= 100.0)
  {
    var s := Statistics(hist, pred, vacc, actual, m);
    if s.accuracy.Some? {
      var mape := Mape(pred).value;
      assert MapeSum(pred).value >= 0.0;
      assert mape == MapeSum(pred).value / |pred| as real * 100.0;
      ToFixed1Monotone(100.0 - mape, 100.0);
      ToFixed1OfInteger(100);
    }
  }

  /** The predicted series carries the observed series month by month. */
  lemma PredictionSeriesObserved(p: Params, actual: seq<real>, m: MathOps)
    requires |actual| == 12
    ensures PredictionSeriesFacts(p, actual, m)
  {
    PredictionSeriesPredicted(p, actual, m);
  }

  /** The accuracy of a run is defined exactly when no observed figure is 0;
      it is then 100 - MAPE to one decimal, and never above 100. */
  lemma AccuracyStatistics(p: Params, actual: seq<real>, m: MathOps)
    requires |actual| == 12
    ensures PredictionSeriesFacts(p, actual, m)
    ensures var s, pred := CalculatedStats(p, actual, m), PredictionSeries(p, actual, m);
      && (s.accuracy.Some? <==> forall i :: 0 <= i < 12 ==> actual[i] != 0.0)
      && (s.accuracy.Some? ==>
            && Mape(pred).Some?
            && Mape(pred).value >= 0.0
            && s.accuracy.value == ToFixed1(100.0 - Mape(pred).value)
            && s.accuracy.value <= 100.0)
  {
    HistoricalYearsFilled(p, m);
    PredictionSeriesObserved(p, actual, m);
    AccuracyOf(HistoricalSeries(p, m), PredictionSeries(p, actual, m), VaccineSeries(p), actual, m);
  }

  /** `finalCoverage` of a run. */
  lemma FinalCoverageStatistic(p: Params, actual: seq<real>, m: MathOps)
    requires |actual| == 12
    ensures var k := 35 - p.tVaccineStart;
      CalculatedStats(p, actual, m).finalCoverage
        == if p.tVaccineStart > 35 then 0.0 else (if k < 25 then 3 * k else 75) as real
  {
    FinalCoverageValue(p);
  }

  // ---------------------------------------------------------------------
  // A run is a function of its inputs
  // ---------------------------------------------------------------------

  /** Two runs on the same inputs give the same results. */
  method RecalculationAgrees(p: Params, actual: seq<real>, m: MathOps)
    returns (first: Results, second: Results)
    requires |actual| == 12
    ensures first == second
  {
    first := CalculatePrediction(p, actual, m);
    second := CalculatePrediction(p, actual, m);
  }
}
