# COVID-19 infection prediction engine, in Dafny

This project models the prediction engine of a small dashboard that forecasts
monthly COVID-19 infections (`script.js`, function `calculatePrediction`).

From a set of model parameters, the engine builds three series:

- **Historical series**, months 0..23 (2020 and 2021). Infections grow
  exponentially until the month vaccination starts. After that they follow a
  post-vaccine curve, damped by `1 - 0.8 * average efficacy`.
- **Prediction series**, months 24..35 (2022). This is the same post-vaccine
  curve, but the damping is scaled by a coverage ramp `min(1, (t - 13) / 20)`.
  Each month is paired with an observed figure.
- **Vaccination series**, from the start month to month 35. Coverage is
  `min(0.75, 0.03 * months since start)`, and the vaccinated count is that
  coverage times a population of 10 000, rounded.

A statistics block then works over these series. It gives:

- per-year totals and averages;
- the percent reduction from 2021 to 2022, predicted and observed;
- the mean absolute error and the MAPE-based accuracy;
- the standard deviation of the errors;
- the final vaccination coverage.

The model also covers two small rules of the page:

- the band that the accuracy puts the conclusions in (`updateConclusions`);
- the 2020-to-2021 change shown on the change cards (`updateChangeCards`).

## Files

- `wrappers.dfy`: `Option`. `None` stands for a JavaScript result that is not
  finite, such as NaN or ±Infinity from a division by zero.
- `js_math.dfy`: the JavaScript number operations over Dafny's `real`.
  - `Math.round` is `Round`.
  - `toFixed(1)` read back as a number is `ToFixed1`.
  - `Math.min` is `Min` and `Math.abs` is `Abs`.
  - `%` on integers is `JsRem12`.
  - `Math.exp` and `Math.sqrt` are a parameter `MathOps`, with the laws the
    proofs use: `ExpLaws` and `SqrtLaws`.
- `labels.dfy`: the `m/yyyy` date labels. They are a `Date` value, rendered by
  `DateText` and read back by `ParseDate`.
- `prediction.dfy`:
  - the parameters, records, `stats` and `results` objects;
  - the month-by-month formulas;
  - the three series as value functions;
  - the statistics block.
  - the three loops of `calculatePrediction` as methods (`BuildHistorical`,
    `BuildPrediction`, `BuildVaccine`). Each is proved equal to its series
    function. `CalculatePrediction` runs them, then the statistics block.
- `prediction_facts.dfy`: what the engine promises about the series and the
  statistics.
- `conclusions.dfy`: the accuracy bands and the 2020-to-2021 change.

Quirks of the code that the model keeps:

- The coverage ramp of the prediction months uses the literal month 13
  (script.js:74), so it ignores the vaccine start parameter. `CoverageEffect`
  takes only the month, and `CoverageEffectBounds` gives its bounds.
- The prediction labels and years use the literal 2022 (script.js:79-82).
- `calculatePrediction` checks none of its parameters; any values are used
  as they are.
- The observed 2022 series is a fixed array of 12 figures (script.js:14-27),
  and every run compares against it.
- Before vaccination, only the unrounded curve strictly increases
  (`PreVaccineIncreasing`). The rounded counts only never decrease
  (`PreVaccineNonDecreasing`), because `Math.round` can map two values to one.

## Model

| member | source | states |
|---|---|---|
| JsMath.RoundNearest | script.js:62 | `Math.round` gives an integer within half a unit of its argument, the upper one on a tie |
| JsMath.Min | script.js:74 | `Math.min` is below both arguments and equal to one of them |
| JsMath.Abs | script.js:112 | `Math.abs` is non-negative and is ±x |
| JsMath.ToFixed1Bounds | script.js:138-142 | `toFixed(1)` moves a number by at most 0.05, onto whole tenths |
| JsMath.ToFixed1Negate | script.js:629 | `toFixed(1)` is symmetric in sign |
| JsMath.ToFixed1Tie | script.js:142 | a number halfway between two tenths goes to the one farther from zero (0.25 to 0.3, -0.25 to -0.3) |
| JsMath.ToFixed1Monotone | script.js:142 | `toFixed(1)` preserves order |
| JsMath.ToFixed1AtLeast | script.js:206-214 | `toFixed(1)` of x reaches a whole threshold n >= 1 exactly when x >= n - 0.05 |
| JsMath.JsRem12 | script.js:61 | JavaScript `t % 12`: it differs from t by a multiple of 12 and has the sign of t |
| Labels.IntToStringRoundTrip | script.js:61 | the decimal text of an integer reads back as that integer |
| Labels.DateText | script.js:61 | the text of a label; DateTextRoundTrip and DateTextInjective state that it loses nothing |
| Labels.DateTextRoundTrip | script.js:61 | the label `${month}/${year}` reads back as the month and year it was made from |
| Labels.DateTextInjective | script.js:61 | distinct month/year pairs get distinct labels |
| Prediction.BuildHistorical | script.js:47-65 | the first loop returns exactly the 24 historical records, one per month with the two-branch formula |
| Prediction.BuildPrediction | script.js:68-84 | the second loop returns exactly the 12 predicted records of months 24..35, each with its observed figure |
| Prediction.BuildVaccine | script.js:87-99 | the third loop returns exactly one record per month from the start month to 35, or none |
| Prediction.CalculatePrediction | script.js:40-146 | the results: the three series, `allData` as historical then predicted, the observed series, the statistics of those series and the population |
| Prediction.FilterYear | script.js:102-103 | `filter` by year keeps only records of that year, drawn from the input |
| Prediction.FilterYearConcat | script.js:102-103 | filtering distributes over concatenation |
| Prediction.HistoricalYearsFilled | script.js:102-103 | filtering the historical series keeps its first 12 months for 2020 and its last 12 for 2021 |
| Prediction.PredictionSeriesPredicted | script.js:68-84 | the prediction series has 12 records, each carrying an observed figure |
| Prediction.HistoricalQ | script.js:49-57 | the unrounded historical formula; stated by PreVaccineInfections, PreVaccineIncreasing, MonthZero, MonthZeroAtVaccineStart and ReferenceMonth13 |
| Prediction.PredictionQ | script.js:69-75 | the unrounded prediction formula; stated by PredictionMeetsHistoricalFormula |
| Prediction.CoverageEffect | script.js:74 | the ramp of the prediction months; stated by CoverageEffectBounds |
| Prediction.Coverage | script.js:88-89 | the vaccination coverage; stated by CoverageBounds, CoverageMonotone and VaccineRecordFacts |
| Prediction.HistoricalSeries | script.js:47-65 | the historical series as a value; BuildHistorical is proved equal to it, and AllDataShape and HistoricalYearsFilled state its shape |
| Prediction.PredictionSeries | script.js:68-84 | the prediction series as a value; BuildPrediction is proved equal to it, and AllDataShape and PredictionSeriesObserved state its shape |
| Prediction.VaccineSeries | script.js:87-99 | the vaccination series as a value; BuildVaccine is proved equal to it, and VaccineShape and VaccineRecordFacts state its contents |
| Prediction.FilterYearAll | script.js:102-103 | a series whose records all have the year is kept whole by the filter |
| Prediction.FilterYearNone | script.js:102-103 | a series with no record of the year filters to nothing |
| Prediction.MeanAbsoluteError | script.js:113 | the mean of the errors; ErrorStatistics states it is non-negative |
| Prediction.Mape | script.js:114-116 | MAPE in percent, `None` when not finite; AccuracyOf states when it is defined and that it is non-negative |
| Prediction.Variance | script.js:119-120 | the mean squared deviation of the errors; ErrorStatistics states it is non-negative |
| Prediction.PercentReduction | script.js:138-139 | the percent reduction between two totals; stated by PercentReductionFacts |
| Prediction.FinalCoverage | script.js:140 | the last coverage or 0; stated by FinalCoverageValue |
| Prediction.Statistics | script.js:101-144 | the `stats` object; its fields are stated by ObservedYearFields, Year2022Fields, ReductionStatistics and AccuracyOf |
| Prediction.Errors | script.js:112 | one error per predicted month, never negative |
| Prediction.MapeSum | script.js:114-116 | the MAPE sum is finite exactly when no observed figure is 0, and is then non-negative |
| Prediction.SquaredDeviations | script.js:120 | one squared deviation per error, never negative |
| PredictionFacts.AllDataShape | script.js:47-126 | `allData` has 36 records for the months 0..35 in order, in year 2020 + floor(t/12), historical exactly before month 24 |
| PredictionFacts.AllDataLabels | script.js:61-79 | month t is labelled (t % 12 + 1)/(2020 + floor(t/12)), the month is in 1..12, and the label reads back |
| PredictionFacts.VaccineShape | script.js:87-99 | the vaccination series has 36 - start entries (none when start > 35), for the months start..35 and their years |
| PredictionFacts.CoverageBounds | script.js:89 | coverage lies in [0, 0.75]: 3% a month, capped from month 25 |
| PredictionFacts.CoverageMonotone | script.js:89 | coverage never decreases |
| PredictionFacts.VaccineRecordFacts | script.js:88-96 | the vaccinated count is 300k (7500 from month 25), in [0, 7500], and the coverage percent is exactly 3k (capped at 75) |
| PredictionFacts.FinalCoverageValue | script.js:140 | `finalCoverage` is 0 for an empty series, otherwise the coverage of month 35 |
| PredictionFacts.PreVaccineInfections | script.js:49-62 | before vaccination a month has round(Q0 * exp(k_before * t)) infections |
| PredictionFacts.MonthZero | script.js:49-50 | month 0 has round(Q0) infections when vaccination starts later |
| PredictionFacts.MonthZeroAtVaccineStart | script.js:51-57 | with start month 0, month 0 is Q0 damped by (1 - 0.8 * average efficacy) |
| PredictionFacts.PreVaccineIncreasing | script.js:49-50 | with k_before > 0 and Q0 > 0 the unrounded curve strictly increases before vaccination |
| PredictionFacts.PreVaccineNonDecreasing | script.js:49-62 | with k_before > 0 and Q0 >= 0 the rounded counts never decrease before vaccination |
| PredictionFacts.ReferenceMonth13 | script.js:51-57 | with the shipped parameters the average efficacy is 0.8, and month 13 has round(100 * exp(5.46) * 0.36) infections |
| PredictionFacts.CoverageEffectBounds | script.js:74 | the prediction ramp lies in [0.55, 1] and is 1 exactly from month 33, whatever the start month |
| PredictionFacts.PredictionMeetsHistoricalFormula | script.js:74-75 | once the ramp is full, a predicted month follows the historical post-vaccine formula |
| PredictionFacts.SumInfectionsConcat | script.js:106-108 | the infection sum of a concatenation is the sum of the parts |
| PredictionFacts.SumRealsNonNegative | script.js:113-120 | a sum of non-negative numbers is non-negative |
| PredictionFacts.ObservedYearFields | script.js:130-133 | for 12 months a year, the 2020 and 2021 totals are the filtered sums and the averages are those totals over 12, rounded |
| PredictionFacts.Year2022Fields | script.js:134-137 | for 12 predicted and 12 observed months, the 2022 totals are their sums and the averages are those totals over 12, rounded |
| PredictionFacts.YearStatistics | script.js:130-133 | in a run, total2020 and total2021 are the sums of months 0..11 and 12..23, they add up to the whole historical sum, and the averages are over 12 |
| PredictionFacts.Year2022Statistics | script.js:134-137 | in a run, the 2022 totals are the predicted and observed sums, with averages over 12 |
| PredictionFacts.ReferenceActualTotals | script.js:14-27 | with the shipped observed series, total2022actual is 19980 and avg2022actual is 1665 |
| PredictionFacts.PercentReductionFacts | script.js:138-139 | a percent reduction is defined exactly when the earlier total is not 0, and is then within 0.05 of (from - to)/from * 100 |
| PredictionFacts.ReductionStatistics | script.js:138-139 | both reductions start from total2021, are defined exactly when it is not 0, and the predicted one is within 0.05 of the exact percentage |
| PredictionFacts.ErrorStatistics | script.js:112-121 | each error is the absolute difference of predicted and observed, so >= 0; MAE, the variance and `mae` are non-negative; `std` is non-negative when sqrt is |
| PredictionFacts.AccuracyOf | script.js:114-142 | accuracy is defined exactly when no observed figure is 0, and is then toFixed(1) of 100 - MAPE, with MAPE >= 0 and accuracy <= 100 |
| PredictionFacts.PredictionSeriesObserved | script.js:81 | predicted month i carries observed figure i |
| PredictionFacts.AccuracyStatistics | script.js:112-142 | in a run, accuracy is defined exactly when no observed month is 0, and is then toFixed(1) of 100 - MAPE and at most 100 |
| PredictionFacts.FinalCoverageStatistic | script.js:140 | a run's `finalCoverage` is 0 when the start is after month 35, otherwise 3% per month to month 35, capped at 75 |
| PredictionFacts.RecalculationAgrees | script.js:40-146 | two runs on the same inputs give identical results |
| Conclusions.AccuracyBand | script.js:202-230 | the band is very high iff accuracy >= 85, good iff 70 <= accuracy < 85, moderate otherwise, including a non-finite accuracy |
| Conclusions.BandMonotone | script.js:206-230 | a higher accuracy never lands in a lower band |
| Conclusions.ConclusionBoxClass | script.js:206-223 | the class of the conclusion box for a band; its meaning is stated by BoxClassOfAccuracy and RunBoxClass |
| Conclusions.BoxClassOfAccuracy | script.js:202-223 | the box is green exactly when the accuracy is a number >= 85, and blue otherwise, including a non-finite accuracy |
| Conclusions.RunBoxClass | script.js:114-223 | a run's box is green exactly when no observed month is 0 and MAPE <= 15.05 |
| Conclusions.RunBand | script.js:202-230 | a run is in the top band iff MAPE <= 15.05, in the middle band iff 15.05 < MAPE <= 30.05, and in the last band when any observed month is 0 |
| Conclusions.Change2021 | script.js:629 | the 2020-to-2021 change, `None` for a 2020 total of 0; its properties are stated by Change2021Facts |
| Conclusions.Change2021Facts | script.js:629 | the change is defined iff total2020 is not 0; it is then the negated 2020-to-2021 reduction, within 0.05 of the exact percentage, with the sign of total2021 - total2020 |
| Conclusions.ChangeOfTotals | script.js:629 | the same facts over any two real totals |

## Left out

- The DOM updates (`updateMetrics`, `updateAccuracyBanner`,
  `updateAccuracyDetails`, `updateYearCards`), the text written by
  `updateChangeCards`, `updateConclusions` and `updateCalculationResult`, and
  `toLocaleString`. These are presentation only. The conclusion texts are
  represented only by their band and the box class.
- The chart construction (`createOverviewChart` and the others). It calls
  Chart.js, which is not part of this model.
- `setupTabs` and its timers. This is event handling.
- The global `results` and `charts` variables. `CalculatePrediction` returns
  the results instead.
- The values of `Math.exp` and `Math.sqrt`. They are a parameter, constrained
  only by the laws the proofs use, so the reference figure of about 8457 is
  stated as round(100 * exp(5.46) * 0.36).
- IEEE double-precision rounding. Numbers are exact reals.
- NaN and ±Infinity are one `None`; which of them a division gives is not
  kept.
- `toFixed(1)` returns text in the source; the model keeps the number the
  text denotes. `coverage_percent`, the reductions and `accuracy` are
  therefore numbers.
- The `|| 0` fallback of `finalCoverage` gives the number 0 where the source
  mixes a string and a number.
- Labels are kept as a `Date` (month and year). `DateText` gives the text,
  and `DateTextRoundTrip` shows nothing is lost.
- `tVaccineStart` is an integer. A fractional start month would make the
  vaccination loop step through non-integer months.
- Prediction.CalculatePrediction: requires an observed series of exactly 12
  figures, the length of the source's `actual2022Data`. A shorter array would
  read `undefined` in the source.
- Prediction.Statistics: requires non-empty year filters and prediction
  series. Its callers, `CalculatedStats` and `CalculatePrediction`, always
  meet this. On empty ones the source would divide 0 by 0.
