/** The reading the page gives of a run's figures: the band its accuracy
    falls in (updateConclusions) and the change from 2020 to 2021
    (updateChangeCards). */
module Conclusions {
  import opened Wrappers
  import opened JsMath
  import opened Prediction
  import opened PredictionFacts

  /** The three conclusions the page can draw about the model. */
  datatype Band = VeryHigh | Good | Moderate

  /** `parseFloat(results.stats.accuracy)` tested against 85, then 70. An
      accuracy that is not a finite number (None: "NaN" or "-Infinity")
      fails both comparisons and falls to the last band. */
  function AccuracyBand(accuracy: Option<real>): (b: Band)
    ensures b == VeryHigh <==> accuracy.Some? && accuracy.value >= 85.0
    ensures b == Good <==> accuracy.Some? && 70.0 <= accuracy.value < 85.0
    ensures b == Moderate <==> accuracy.None? || accuracy.value < 70.0
  {
    if accuracy.Some? && accuracy.value >= 85.0 then VeryHigh
    else if accuracy.Some? && accuracy.value >= 70.0 then Good
    else Moderate
  }

  /** The order of the bands, best first. */
  function Rank(b: Band): nat
  {
    match b
    case VeryHigh => 2
    case Good => 1
    case Moderate => 0
  }

  /** The order a defined accuracy has among accuracies, with an undefined
      one below every number. */
  predicate AccuracyAtMost(a1: Option<real>, a2: Option<real>)
  {
    a1.None? || (a2.Some? && a1.value <= a2.value)
  }

  /** A higher accuracy never lands in a lower band. */
  lemma BandMonotone(a1: Option<real>, a2: Option<real>)
    requires AccuracyAtMost(a1, a2)
    ensures Rank(AccuracyBand(a1)) <= Rank(AccuracyBand(a2))
  {
  }

  /** The class of the conclusion box: green only for the top band. */
  function ConclusionBoxClass(b: Band): (c: string)
    ensures c == "conclusion-box green" <==> b == VeryHigh
    ensures c == "conclusion-box green" || c == "conclusion-box blue"
  {
    if b == VeryHigh then "conclusion-box green" else "conclusion-box blue"
  }

  /** The box is green exactly when the accuracy is a number of at least 85. */
  lemma BoxClassOfAccuracy(accuracy: Option<real>)
    ensures (ConclusionBoxClass(AccuracyBand(accuracy)) == "conclusion-box green")
              <==> (accuracy.Some? && accuracy.value >= 85.0)
    ensures (ConclusionBoxClass(AccuracyBand(accuracy)) == "conclusion-box blue")
              <==> (accuracy.None? || accuracy.value < 85.0)
  {
  }

  /** The box of a run is green exactly when no observed month is 0 and the
      mean absolute percentage error is at most 15.05. */
  lemma RunBoxClass(p: Params, actual: seq<real>, m: MathOps)
    requires |actual| == 12
    ensures var box, pred := ConclusionBoxClass(AccuracyBand(CalculatedStats(p, actual, m).accuracy)),
                             PredictionSeries(p, actual, m);
      && PredictionSeriesFacts(p, actual, m)
      && (box == "conclusion-box green" <==>
            && (forall i :: 0 <= i < 12 ==> actual[i] != 0.0)
            && Mape(pred).Some?
            && Mape(pred).value <= 15.05)
  {
    RunBand(p, actual, m);
    BoxClassOfAccuracy(CalculatedStats(p, actual, m).accuracy);
  }

  /** The band of a run in terms of its mean absolute percentage error:
      rounding to one decimal puts the top band at MAPE <= 15.05 and the
      middle one at 15.05 < MAPE <= 30.05; a month observed as 0 leaves the
      accuracy undefined and the run in the last band. */
  lemma RunBand(p: Params, actual: seq<real>, m: MathOps)
    requires |actual| == 12
    ensures var band, pred := AccuracyBand(CalculatedStats(p, actual, m).accuracy),
                              PredictionSeries(p, actual, m);
      && PredictionSeriesFacts(p, actual, m)
      && ((exists i :: 0 <= i < 12 && actual[i] == 0.0) ==> band == Moderate)
      && ((forall i :: 0 <= i < 12 ==> actual[i] != 0.0) ==>
            && Mape(pred).Some?
            && (band == VeryHigh <==> Mape(pred).value <= 15.05)
            && (band == Good <==> 15.05 < Mape(pred).value <= 30.05)
            && (band == Moderate <==> Mape(pred).value > 30.05))
  {
    AccuracyStatistics(p, actual, m);
    var s, pred := CalculatedStats(p, actual, m), PredictionSeries(p, actual, m);
    if s.accuracy.Some? {
      var exact := 100.0 - Mape(pred).value;
      ToFixed1AtLeast(exact, 85);
      ToFixed1AtLeast(exact, 70);
    }
  }

  /** `((total2021 - total2020) / total2020 * 100).toFixed(1)`; with a 2020
      total of 0 the division gives Infinity or NaN (None). */
  function Change2021(s: Stats): Option<real>
  {
    if s.total2020 == 0 then None
    else Some(ToFixed1((s.total2021 - s.total2020) as real / s.total2020 as real * 100.0))
  }

  /** The change from 2020 to 2021 is the 2020-to-2021 reduction with its
      sign turned, is within 0.05 of the exact percentage, and has the sign
      of the difference of the totals when 2020 had infections. */
  lemma Change2021Facts(s: Stats)
    ensures Change2021(s).Some? <==> s.total2020 != 0
    ensures Change2021(s).Some? ==>
      var t20, t21 := s.total2020 as real, s.total2021 as real;
      var exact := (t21 - t20) / t20 * 100.0;
      && PercentReduction(t20, t21).Some?
      && Change2021(s).value == -PercentReduction(t20, t21).value
      && -0.05 <= Change2021(s).value - exact <= 0.05
    ensures s.total2020 > 0 && s.total2021 >= s.total2020 ==> Change2021(s).value >= 0.0
    ensures s.total2020 > 0 && s.total2021 <= s.total2020 ==> Change2021(s).value <= 0.0
  {
    if s.total2020 != 0 {
      var t20, t21 := s.total2020 as real, s.total2021 as real;
      assert (s.total2021 - s.total2020) as real == t21 - t20;
      ChangeOfTotals(t20, t21);
    }
  }

  /** The real-number core of Change2021Facts. */
  lemma ChangeOfTotals(t20: real, t21: real)
    requires t20 != 0.0
    ensures var exact := (t21 - t20) / t20 * 100.0;
      && PercentReduction(t20, t21).Some?
      && ToFixed1(exact) == -PercentReduction(t20, t21).value
      && -0.05 <= ToFixed1(exact) - exact <= 0.05
      && (t20 > 0.0 && t21 >= t20 ==> ToFixed1(exact) >= 0.0)
      && (t20 > 0.0 && t21 <= t20 ==> ToFixed1(exact) <= 0.0)
  {
    var q := (t21 - t20) / t20;
    var exact := q * 100.0;
    assert (t20 - t21) / t20 == -q;
    assert (t20 - t21) / t20 * 100.0 == -exact;
    assert PercentReduction(t20, t21) == Some(ToFixed1(-exact));
    ToFixed1Negate(exact);
    ToFixed1Bounds(exact);
    ToFixed1Sign(exact);
    if t20 > 0.0 {
      QuotientSign(t21 - t20, t20);
    }
  }

  /** A quotient by a positive number keeps the sign of the dividend. */
  lemma QuotientSign(a: real, b: real)
    requires b > 0.0
    ensures a >= 0.0 ==> a / b >= 0.0
    ensures a <= 0.0 ==> a / b <= 0.0
  {
    var q := a / b;
    assert q * b == a;
  }
}
