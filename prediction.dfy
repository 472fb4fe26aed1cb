/** The prediction engine of script.js (`calculatePrediction`): three loops
    that build the historical, prediction and vaccination series, followed by
    the statistics computed from them. */
module Prediction {
  import opened Wrappers
  import opened JsMath
  import opened Labels

  /** The model parameters (the `params` object). */
  datatype Params = Params(
    kBefore: real,          // growth rate before vaccination
    kAfter: real,           // growth rate after vaccination
    q0: real,               // infections at month 0
    tVaccineStart: int,     // month in which vaccination starts
    pfizerEfficacy: real,
    sinovacEfficacy: real,
    pfizerRatio: real,
    sinovacRatio: real)

  /** The parameter values the source ships with. */
  const ReferenceParams := Params(0.42, -0.18, 100.0, 13, 0.95, 0.70, 0.40, 0.60)

  /** The observed monthly infections of 2022 the source ships with. */
  const ReferenceActual2022: seq<real> :=
    [2450.0, 2280.0, 2100.0, 1950.0, 1820.0, 1680.0,
     1550.0, 1430.0, 1320.0, 1220.0, 1130.0, 1050.0]

  /** The population the vaccinated counts are taken of. */
  const TotalPopulation := 10000

  /** One month of infections. Historical months (2020-2021) have no observed
      figure; predicted months (2022) carry the observed one beside the model's.
      `allData` mixes both kinds, as the source's array does. */
  datatype MonthRecord =
    | Historical(month: int, date: Date, infections: int, year: int)
    | Predicted(month: int, date: Date, infections: int, actualInfections: real, year: int)

  /** One month of the vaccination series; `coveragePercent` is the value of
      `(coverage * 100).toFixed(1)`. */
  datatype VaccineRecord =
    VaccineRecord(month: int, date: Date, vaccinated: int, coveragePercent: real, year: int)

  /** The `stats` object. A `None` stands for the NaN or Infinity that
      JavaScript computes when a denominator is zero. */
  datatype Stats = Stats(
    total2020: int, avg2020: int,
    total2021: int, avg2021: int,
    total2022pred: int, avg2022pred: int,
    total2022actual: int, avg2022actual: int,
    reduction2021to2022pred: Option<real>,
    reduction2021to2022actual: Option<real>,
    finalCoverage: real,
    mae: int,
    accuracy: Option<real>,
    std: int)

  /** The `results` object. */
  datatype Results = Results(
    historicalData: seq<MonthRecord>,
    predictionData: seq<MonthRecord>,
    allData: seq<MonthRecord>,
    vaccineData: seq<VaccineRecord>,
    actual2022Data: seq<real>,
    stats: Stats,
    totalPopulation: int)

  // ---------------------------------------------------------------------
  // The model's formulas, one month at a time
  // ---------------------------------------------------------------------

  /** The efficacy of the two vaccines weighted by their shares. */
  function AvgEfficacy(p: Params): real
  {
    p.pfizerEfficacy * p.pfizerRatio + p.sinovacEfficacy * p.sinovacRatio
  }

  /** `Math.exp(rate * months)`: the growth factor of an exponential curve. */
  function Growth(m: MathOps, rate: real, months: int): real
  {
    m.exp(rate * months as real)
  }

  /** Infections reached at the month vaccination starts, on the pre-vaccine curve. */
  function QAtVaccine(p: Params, m: MathOps): real
  {
    p.q0 * Growth(m, p.kBefore, p.tVaccineStart)
  }

  /** Unrounded infections of a historical month (months 0..23). */
  function HistoricalQ(p: Params, m: MathOps, t: int): real
  {
    if t < p.tVaccineStart then p.q0 * Growth(m, p.kBefore, t)
    else QAtVaccine(p, m) * Growth(m, p.kAfter, t - p.tVaccineStart) * (1.0 - AvgEfficacy(p) * 0.8)
  }

  /** The coverage ramp of the prediction months. The source writes the start
      month as the literal 13 here, not as the vaccine start parameter. */
  function CoverageEffect(t: int): real
  {
    Min(1.0, (t - 13) as real / 20.0)
  }

  /** Unrounded infections of a predicted month (months 24..35). */
  function PredictionQ(p: Params, m: MathOps, t: int): real
  {
    QAtVaccine(p, m) * Growth(m, p.kAfter, t - p.tVaccineStart)
      * (1.0 - AvgEfficacy(p) * 0.8 * CoverageEffect(t))
  }

  /** Fraction of the population vaccinated after `monthsSince` months of
      vaccination: a ramp of 3% a month, capped at 75%. */
  function Coverage(monthsSince: int): real
  {
    Min(0.75, 0.03 * monthsSince as real)
  }

  /** `2020 + Math.floor(t / 12)` (Dafny's `/` floors for a positive divisor). */
  function YearOf(t: int): int
  {
    2020 + t / 12
  }

  /** The label `${(t % 12) + 1}/${2020 + Math.floor(t / 12)}`. */
  function MonthLabel(t: int): Date
  {
    Date(JsRem12(t) + 1, YearOf(t))
  }

  function HistoricalRecord(p: Params, m: MathOps, t: int): MonthRecord
  {
    Historical(t, MonthLabel(t), Round(HistoricalQ(p, m, t)), YearOf(t))
  }

  /** A predicted month; its label and year are written with the literal 2022. */
  function PredictionRecord(p: Params, actual: seq<real>, m: MathOps, t: int): MonthRecord
    requires 24 <= t <= 35 && |actual| == 12
  {
    Predicted(t, Date(JsRem12(t) + 1, 2022), Round(PredictionQ(p, m, t)), actual[t - 24], 2022)
  }

  function VaccineRecordAt(p: Params, t: int): VaccineRecord
  {
    var coverage := Coverage(t - p.tVaccineStart);
    VaccineRecord(t, MonthLabel(t), Round(TotalPopulation as real * coverage),
                  ToFixed1(coverage * 100.0), YearOf(t))
  }

  // ---------------------------------------------------------------------
  // The three series, as values
  // ---------------------------------------------------------------------

  function HistoricalSeries(p: Params, m: MathOps): seq<MonthRecord>
  {
    seq(24, t => HistoricalRecord(p, m, t))
  }

  function PredictionSeries(p: Params, actual: seq<real>, m: MathOps): seq<MonthRecord>
    requires |actual| == 12
  {
    seq(12, i requires 0 <= i < 12 => PredictionRecord(p, actual, m, 24 + i))
  }

  /** Number of months from the vaccine start month to month 35. */
  function VaccineCount(p: Params): nat
  {
    if p.tVaccineStart > 35 then 0 else 36 - p.tVaccineStart
  }

  function VaccineSeries(p: Params): seq<VaccineRecord>
  {
    seq(VaccineCount(p), i => VaccineRecordAt(p, p.tVaccineStart + i))
  }

  // ---------------------------------------------------------------------
  // The statistics block: filter, reduce and map over the series
  // ---------------------------------------------------------------------

  /** `data.filter(d => d.year === y)` */
  function FilterYear(s: seq<MonthRecord>, y: int): (r: seq<MonthRecord>)
    ensures |r| <= |s|
    ensures forall i :: 0 <= i < |r| ==> r[i].year == y && r[i] in s
  {
    if s == [] then []
    else if s[0].year == y then [s[0]] + FilterYear(s[1..], y)
    else FilterYear(s[1..], y)
  }

  /** `data.reduce((sum, d) => sum + d.infections, 0)` */
  function SumInfections(s: seq<MonthRecord>): int
  {
    if s == [] then 0 else s[0].infections + SumInfections(s[1..])
  }

  /** `values.reduce((sum, v) => sum + v, 0)` */
  function SumReals(s: seq<real>): real
  {
    if s == [] then 0.0 else s[0] + SumReals(s[1..])
  }

  predicate AllPredicted(pred: seq<MonthRecord>)
  {
    forall i :: 0 <= i < |pred| ==> pred[i].Predicted?
  }

  /** `predictionData.map(d => Math.abs(d.infections - d.actualInfections))` */
  function Errors(pred: seq<MonthRecord>): (e: seq<real>)
    requires AllPredicted(pred)
    ensures |e| == |pred|
    ensures forall i :: 0 <= i < |e| ==> e[i] >= 0.0
  {
    seq(|pred|, i requires 0 <= i < |pred| => Abs(pred[i].infections as real - pred[i].actualInfections))
  }

  /** The sum of the absolute percentage errors (as fractions). Any observed
      figure of 0 makes a term, and so the sum, non-finite in JavaScript:
      the result is then `None`. */
  function MapeSum(pred: seq<MonthRecord>): (r: Option<real>)
    requires AllPredicted(pred)
    ensures r.Some? <==> forall i :: 0 <= i < |pred| ==> pred[i].actualInfections != 0.0
    ensures r.Some? ==> r.value >= 0.0
  {
    if pred == [] then Some(0.0)
    else
      var a := pred[0].actualInfections;
      var rest := MapeSum(pred[1..]);
      if a == 0.0 || rest.None? then None
      else Some(Abs((pred[0].infections as real - a) / a) + rest.value)
  }

  /** `Math.pow(x, 2)` */
  function Square(x: real): (r: real)
    ensures r >= 0.0
  {
    if x < 0.0 then (-x) * (-x) else x * x
  }

  /** `Math.pow(e - mean, 2)` for every error. */
  function SquaredDeviations(errors: seq<real>, mean: real): (d: seq<real>)
    ensures |d| == |errors|
    ensures forall i :: 0 <= i < |d| ==> d[i] >= 0.0
  {
    seq(|errors|, i requires 0 <= i < |errors| => Square(errors[i] - mean))
  }

  /** `(((from - to) / from) * 100).toFixed(1)`: non-finite when `from` is 0. */
  function PercentReduction(from: real, to: real): Option<real>
  {
    if from == 0.0 then None else Some(ToFixed1((from - to) / from * 100.0))
  }

  /** `vaccineData[vaccineData.length - 1]?.coverage_percent || 0`. The
      coverage text is never empty, so `|| 0` applies only to an empty series. */
  function FinalCoverage(vacc: seq<VaccineRecord>): real
  {
    if |vacc| == 0 then 0.0 else vacc[|vacc| - 1].coveragePercent
  }

  /** The denominators of the statistics block are non-zero and every
      prediction record carries an observed figure. */
  predicate StatsDefined(hist: seq<MonthRecord>, pred: seq<MonthRecord>, actual: seq<real>)
  {
    && |FilterYear(hist, 2020)| > 0
    && |FilterYear(hist, 2021)| > 0
    && |pred| > 0
    && AllPredicted(pred)
    && |actual| > 0
  }

  function MeanAbsoluteError(pred: seq<MonthRecord>): real
    requires AllPredicted(pred) && |pred| > 0
  {
    SumReals(Errors(pred)) / |pred| as real
  }

  /** `mape`, in percent; `None` when it is not finite. */
  function Mape(pred: seq<MonthRecord>): Option<real>
    requires AllPredicted(pred) && |pred| > 0
  {
    match MapeSum(pred)
    case None => None
    case Some(sum) => Some(sum / |pred| as real * 100.0)
  }

  function Variance(pred: seq<MonthRecord>): real
    requires AllPredicted(pred) && |pred| > 0
  {
    var errors := Errors(pred);
    SumReals(SquaredDeviations(errors, MeanAbsoluteError(pred))) / |errors| as real
  }

  function Statistics(hist: seq<MonthRecord>, pred: seq<MonthRecord>, vacc: seq<VaccineRecord>,
                      actual: seq<real>, m: MathOps): Stats
    requires StatsDefined(hist, pred, actual)
  {
    var data2020 := FilterYear(hist, 2020);
    var data2021 := FilterYear(hist, 2021);
    var total2020 := SumInfections(data2020);
    var total2021 := SumInfections(data2021);
    var total2022pred := SumInfections(pred);
    var total2022actual := SumReals(actual);
    var mape := Mape(pred);
    Stats(
      total2020, Round(total2020 as real / |data2020| as real),
      total2021, Round(total2021 as real / |data2021| as real),
      total2022pred, Round(total2022pred as real / |pred| as real),
      Round(total2022actual), Round(total2022actual / |actual| as real),
      PercentReduction(total2021 as real, total2022pred as real),
      PercentReduction(total2021 as real, total2022actual),
      FinalCoverage(vacc),
      Round(MeanAbsoluteError(pred)),
      if mape.None? then None else Some(ToFixed1(100.0 - mape.value)),
      Round(m.sqrt(Variance(pred))))
  }

  /** The statistics of one run, from the three series of that run. */
  function CalculatedStats(p: Params, actual: seq<real>, m: MathOps): Stats
    requires |actual| == 12
  {
    HistoricalYearsFilled(p, m);
    PredictionSeriesPredicted(p, actual, m);
    Statistics(HistoricalSeries(p, m), PredictionSeries(p, actual, m), VaccineSeries(p), actual, m)
  }

  // ---------------------------------------------------------------------
  // calculatePrediction
  // ---------------------------------------------------------------------

  /** The first loop: months 0..23, the observed years 2020 and 2021. */
  method BuildHistorical(p: Params, m: MathOps) returns (historicalData: seq<MonthRecord>)
    ensures historicalData == HistoricalSeries(p, m)
  {
    historicalData := [];
    for t := 0 to 24
      invariant |historicalData| == t
      invariant forall i :: 0 <= i < t ==> historicalData[i] == HistoricalRecord(p, m, i)
    {
      var q: real;
      if t < p.tVaccineStart {
        q := p.q0 * Growth(m, p.kBefore, t);
      } else {
        var tSince := t - p.tVaccineStart;
        q := QAtVaccine(p, m) * Growth(m, p.kAfter, tSince) * (1.0 - AvgEfficacy(p) * 0.8);
      }
      assert q == HistoricalQ(p, m, t);
      var record := Historical(t, MonthLabel(t), Round(q), YearOf(t));
      assert record == HistoricalRecord(p, m, t);
      historicalData := historicalData + [record];
    }
    SeriesExtensional(historicalData, HistoricalSeries(p, m));
  }

  /** The second loop: months 24..35, the predicted year 2022. */
  method BuildPrediction(p: Params, actual: seq<real>, m: MathOps) returns (predictionData: seq<MonthRecord>)
    requires |actual| == 12
    ensures predictionData == PredictionSeries(p, actual, m)
  {
    predictionData := [];
    for t := 24 to 36
      invariant |predictionData| == t - 24
      invariant forall i :: 0 <= i < t - 24 ==> predictionData[i] == PredictionRecord(p, actual, m, 24 + i)
    {
      var tSince := t - p.tVaccineStart;
      var coverageEffect := Min(1.0, (t - 13) as real / 20.0);
      var q := QAtVaccine(p, m) * Growth(m, p.kAfter, tSince)
               * (1.0 - AvgEfficacy(p) * 0.8 * coverageEffect);
      var record := Predicted(t, Date(JsRem12(t) + 1, 2022), Round(q), actual[t - 24], 2022);
      assert record == PredictionRecord(p, actual, m, t);
      predictionData := predictionData + [record];
    }
    SeriesExtensional(predictionData, PredictionSeries(p, actual, m));
  }

  /** The third loop: months tVaccineStart..35, the vaccination ramp. */
  method BuildVaccine(p: Params) returns (vaccineData: seq<VaccineRecord>)
    ensures vaccineData == VaccineSeries(p)
  {
    vaccineData := [];
    var t := p.tVaccineStart;
    while t <= 35
      invariant p.tVaccineStart <= t
      invariant t <= 36 || t == p.tVaccineStart
      invariant |vaccineData| == t - p.tVaccineStart
      invariant forall i :: 0 <= i < |vaccineData| ==> vaccineData[i] == VaccineRecordAt(p, p.tVaccineStart + i)
    {
      var monthsSince := t - p.tVaccineStart;
      var coverage := Coverage(monthsSince);
      var totalVaccinated := Round(TotalPopulation as real * coverage);
      var record := VaccineRecord(t, MonthLabel(t), totalVaccinated, ToFixed1(coverage * 100.0), YearOf(t));
      assert record == VaccineRecordAt(p, t);
      vaccineData := vaccineData + [record];
      t := t + 1;
    }
    assert |vaccineData| == VaccineCount(p);
    SeriesExtensional(vaccineData, VaccineSeries(p));
  }

  /** Two sequences that agree at every index are equal. */
  lemma SeriesExtensional<T>(a: seq<T>, b: seq<T>)
    requires |a| == |b|
    requires forall i :: 0 <= i < |a| ==> a[i] == b[i]
    ensures a == b
  {
  }

  /** `calculatePrediction`: the three loops, then the statistics block. The
      observed series plays the part of the source's 12-month `actual2022Data`. */
  method CalculatePrediction(p: Params, actual: seq<real>, m: MathOps) returns (r: Results)
    requires |actual| == 12
    ensures r.historicalData == HistoricalSeries(p, m)
    ensures r.predictionData == PredictionSeries(p, actual, m)
    ensures r.allData == r.historicalData + r.predictionData
    ensures r.vaccineData == VaccineSeries(p)
    ensures r.actual2022Data == actual
    ensures r.stats == CalculatedStats(p, actual, m)
    ensures r.totalPopulation == TotalPopulation
  {
    var historicalData := BuildHistorical(p, m);
    var predictionData := BuildPrediction(p, actual, m);
    var vaccineData := BuildVaccine(p);
    HistoricalYearsFilled(p, m);
    PredictionSeriesPredicted(p, actual, m);
    var stats := Statistics(historicalData, predictionData, vaccineData, actual, m);
    r := Results(historicalData, predictionData, historicalData + predictionData,
                 vaccineData, actual, stats, TotalPopulation);
  }

  lemma PredictionSeriesPredicted(p: Params, actual: seq<real>, m: MathOps)
    requires |actual| == 12
    ensures |PredictionSeries(p, actual, m)| == 12
    ensures AllPredicted(PredictionSeries(p, actual, m))
  {
  }

  // ---------------------------------------------------------------------
  // Filtering by year
  // ---------------------------------------------------------------------

  lemma {:induction false} FilterYearConcat(a: seq<MonthRecord>, b: seq<MonthRecord>, y: int)
    ensures FilterYear(a + b, y) == FilterYear(a, y) + FilterYear(b, y)
  {
    if a == [] {
      assert a + b == b;
    } else {
      assert (a + b)[0] == a[0];
      assert (a + b)[1..] == a[1..] + b;
      FilterYearConcat(a[1..], b, y);
      var head := if a[0].year == y then [a[0]] else [];
      assert FilterYear(a + b, y) == head + FilterYear(a[1..] + b, y);
      assert FilterYear(a, y) == head + FilterYear(a[1..], y);
    }
  }

  lemma {:induction false} FilterYearAll(s: seq<MonthRecord>, y: int)
    requires forall i :: 0 <= i < |s| ==> s[i].year == y
    ensures FilterYear(s, y) == s
  {
    if s != [] {
      FilterYearAll(s[1..], y);
    }
  }

  lemma {:induction false} FilterYearNone(s: seq<MonthRecord>, y: int)
    requires forall i :: 0 <= i < |s| ==> s[i].year != y
    ensures FilterYear(s, y) == []
  {
    if s != [] {
      FilterYearNone(s[1..], y);
    }
  }

  /** Filtering the historical series by year keeps its first twelve months
      for 2020 and its last twelve for 2021. */
  lemma HistoricalYearsFilled(p: Params, m: MathOps)
    ensures FilterYear(HistoricalSeries(p, m), 2020) == HistoricalSeries(p, m)[..12]
    ensures FilterYear(HistoricalSeries(p, m), 2021) == HistoricalSeries(p, m)[12..]
    ensures |FilterYear(HistoricalSeries(p, m), 2020)| == 12
    ensures |FilterYear(HistoricalSeries(p, m), 2021)| == 12
  {
    var h := HistoricalSeries(p, m);
    var a, b := h[..12], h[12..];
    assert h == a + b;
    forall i | 0 <= i < 12 ensures a[i].year == 2020 && b[i].year == 2021 {
      assert a[i] == HistoricalRecord(p, m, i);
      assert b[i] == HistoricalRecord(p, m, 12 + i);
    }
    FilterYearConcat(a, b, 2020);
    FilterYearConcat(a, b, 2021);
    FilterYearAll(a, 2020);
    FilterYearNone(b, 2020);
    FilterYearNone(a, 2021);
    FilterYearAll(b, 2021);
  }
}
