/**
 * Macaulay duration, as in app/services/duration.py: the present-value
 * weighted average of the cash-flow times.
 */
module Duration {
  import opened Common
  import opened Numeric

  /** The two inputs the source rejects with a ValueError. */
  datatype DurationError = LengthMismatch | InvalidYtm

  /**
   * A power function base^exponent for a real exponent. The model does not
   * fix it; it only needs it to be positive on positive bases, as x^t is.
   */
  ghost predicate PositiveOnPositiveBases(pow: (real, real) -> real)
  {
    forall base: real, exponent: real :: base > 0.0 ==> pow(base, exponent) > 0.0
  }

  /** The present value cf / (1 + ytm)^t of one cash flow. */
  function PresentValue(cashFlow: real, period: real, ytm: real, pow: (real, real) -> real): real
    requires ytm > -1.0 && PositiveOnPositiveBases(pow)
  {
    cashFlow / pow(1.0 + ytm, period)
  }

  /** The present values, element-wise. */
  function PresentValues(cashFlows: seq<real>, periods: seq<real>, ytm: real, pow: (real, real) -> real): (pv: seq<real>)
    requires |cashFlows| == |periods| && ytm > -1.0 && PositiveOnPositiveBases(pow)
    ensures |pv| == |cashFlows|
    ensures forall i :: 0 <= i < |pv| ==> pv[i] == PresentValue(cashFlows[i], periods[i], ytm, pow)
  {
    seq(|cashFlows|, i requires 0 <= i < |cashFlows| => PresentValue(cashFlows[i], periods[i], ytm, pow))
  }

  /** Discounting keeps the sign of a cash flow: a positive one stays positive, a nonzero one nonzero. */
  lemma PresentValueSign(cashFlow: real, period: real, ytm: real, pow: (real, real) -> real)
    requires ytm > -1.0 && PositiveOnPositiveBases(pow)
    ensures cashFlow > 0.0 ==> PresentValue(cashFlow, period, ytm, pow) > 0.0
    ensures cashFlow != 0.0 ==> PresentValue(cashFlow, period, ytm, pow) != 0.0
  {
    assert pow(1.0 + ytm, period) > 0.0;
  }

  /**
   * macaulay_duration: 0 for an empty input (checked before the lengths),
   * an error for unequal lengths or a yield of -1 or below, 0 when the
   * present values cancel out, and otherwise sum(t pv) / sum(pv).
   */
  function MacaulayDuration(cashFlows: seq<real>, periods: seq<real>, ytm: real, pow: (real, real) -> real)
    : (r: Result<real, DurationError>)
    requires PositiveOnPositiveBases(pow)
  {
    if |cashFlows| == 0 || |periods| == 0 then Ok(0.0)
    else if |cashFlows| != |periods| then Err(LengthMismatch)
    else if ytm <= -1.0 then Err(InvalidYtm)
    else
      var pv := PresentValues(cashFlows, periods, ytm, pow);
      var totalPv := Sum(pv);
      if totalPv == 0.0 then Ok(0.0)
      else Ok(Dot(periods, pv) / totalPv)
  }

  /**
   * The guards, in the order the source applies them: an empty list wins
   * over a length mismatch, which wins over a bad yield; every other input
   * gives a value, and that value times the total present value is the
   * time-weighted present value.
   */
  lemma MacaulayDurationCases(cashFlows: seq<real>, periods: seq<real>, ytm: real, pow: (real, real) -> real)
    requires PositiveOnPositiveBases(pow)
    ensures var r := MacaulayDuration(cashFlows, periods, ytm, pow);
      && (|cashFlows| == 0 || |periods| == 0 ==> r == Ok(0.0))
      && (r == Err(LengthMismatch) <==> |cashFlows| > 0 && |periods| > 0 && |cashFlows| != |periods|)
      && (r == Err(InvalidYtm) <==> |cashFlows| == |periods| > 0 && ytm <= -1.0)
    ensures |cashFlows| == |periods| > 0 && ytm > -1.0 ==>
      var pv := PresentValues(cashFlows, periods, ytm, pow);
      var r := MacaulayDuration(cashFlows, periods, ytm, pow);
      && r.Ok?
      && (Sum(pv) == 0.0 ==> r.value == 0.0)
      && (Sum(pv) != 0.0 ==> r.value * Sum(pv) == Dot(periods, pv))
  {
    if |cashFlows| == |periods| > 0 && ytm > -1.0 {
      DurationTimesTotal(cashFlows, periods, ytm, pow);
    }
  }

  /** Past the guards, the duration times the total present value is the time-weighted present value. */
  lemma DurationTimesTotal(cashFlows: seq<real>, periods: seq<real>, ytm: real, pow: (real, real) -> real)
    requires PositiveOnPositiveBases(pow)
    requires |cashFlows| == |periods| > 0 && ytm > -1.0
    ensures var pv := PresentValues(cashFlows, periods, ytm, pow);
      var r := MacaulayDuration(cashFlows, periods, ytm, pow);
      && r.Ok?
      && (Sum(pv) == 0.0 ==> r.value == 0.0)
      && (Sum(pv) != 0.0 ==> r.value * Sum(pv) == Dot(periods, pv))
  {
    var pv := PresentValues(cashFlows, periods, ytm, pow);
    DurationValue(cashFlows, periods, ytm, pow);
    RatioTimesTotal(MacaulayDuration(cashFlows, periods, ytm, pow), Dot(periods, pv), Sum(pv));
  }

  /** A result that is 0 for a zero total and weighted / total otherwise, times the total, is the weighted sum. */
  lemma RatioTimesTotal(r: Result<real, DurationError>, weighted: real, total: real)
    requires r == if total == 0.0 then Ok(0.0) else Ok(weighted / total)
    ensures r.Ok? && (total == 0.0 ==> r.value == 0.0) && (total != 0.0 ==> r.value * total == weighted)
  {
  }

  /** A sum of positive terms, at least one of them, is positive. */
  lemma {:induction false} SumPositive(s: seq<real>)
    requires |s| > 0 && forall i :: 0 <= i < |s| ==> s[i] > 0.0
    ensures Sum(s) > 0.0
  {
    if |s| > 1 {
      SumPositive(s[..|s| - 1]);
    }
  }

  /** With positive cash flows every present value is positive. */
  lemma PresentValuesPositive(cashFlows: seq<real>, periods: seq<real>, ytm: real, pow: (real, real) -> real)
    requires |cashFlows| == |periods| && ytm > -1.0 && PositiveOnPositiveBases(pow)
    requires forall i :: 0 <= i < |cashFlows| ==> cashFlows[i] > 0.0
    ensures forall i :: 0 <= i < |cashFlows| ==> PresentValues(cashFlows, periods, ytm, pow)[i] > 0.0
  {
    forall i | 0 <= i < |cashFlows|
      ensures PresentValues(cashFlows, periods, ytm, pow)[i] > 0.0
    {
      PresentValueSign(cashFlows[i], periods[i], ytm, pow);
    }
  }

  /** Past the guards, the duration is 0 or the ratio of the time-weighted to the total present value. */
  lemma DurationValue(cashFlows: seq<real>, periods: seq<real>, ytm: real, pow: (real, real) -> real)
    requires PositiveOnPositiveBases(pow)
    requires |cashFlows| == |periods| > 0 && ytm > -1.0
    ensures var pv := PresentValues(cashFlows, periods, ytm, pow);
      MacaulayDuration(cashFlows, periods, ytm, pow)
      == if Sum(pv) == 0.0 then Ok(0.0) else Ok(Dot(periods, pv) / Sum(pv))
  {
  }

  /**
   * With positive cash flows the duration is a weighted average of the
   * periods, so it lies between the earliest and the latest period.
   */
  lemma DurationBetweenPeriods(cashFlows: seq<real>, periods: seq<real>, ytm: real, pow: (real, real) -> real)
    requires PositiveOnPositiveBases(pow)
    requires |cashFlows| == |periods| > 0 && ytm > -1.0
    requires forall i :: 0 <= i < |cashFlows| ==> cashFlows[i] > 0.0
    ensures MacaulayDuration(cashFlows, periods, ytm, pow).Ok?
    ensures MinOf(periods) <= MacaulayDuration(cashFlows, periods, ytm, pow).value <= MaxOf(periods)
  {
    PresentValuesPositive(cashFlows, periods, ytm, pow);
    PositiveWeightsAverage(periods, PresentValues(cashFlows, periods, ytm, pow));
    DurationValue(cashFlows, periods, ytm, pow);
  }

  /** An average of the times with positive weights lies between the smallest and the largest time. */
  lemma PositiveWeightsAverage(t: seq<real>, w: seq<real>)
    requires |t| == |w| > 0 && forall i :: 0 <= i < |w| ==> w[i] > 0.0
    ensures Sum(w) > 0.0 && MinOf(t) <= Dot(t, w) / Sum(w) <= MaxOf(t)
  {
    SumPositive(w);
    AverageBounds(t, w, MinOf(t), MaxOf(t), Sum(w), Dot(t, w));
  }

  lemma AverageBounds(t: seq<real>, w: seq<real>, lo: real, hi: real, total: real, weighted: real)
    requires |t| == |w| && total == Sum(w) && weighted == Dot(t, w) && total > 0.0
    requires forall i :: 0 <= i < |w| ==> w[i] >= 0.0 && lo <= t[i] <= hi
    ensures lo <= weighted / total <= hi
  {
    DotBetween(t, w, lo, hi, total);
    QuotientAbove(lo, weighted, total);
    QuotientBelow(weighted, hi, total);
  }

  lemma QuotientAbove(lo: real, weighted: real, total: real)
    requires total > 0.0 && lo * total <= weighted
    ensures lo <= weighted / total
  {
    CancelFactor(lo, total);
    DivLe(lo * total, weighted, total);
  }

  lemma QuotientBelow(weighted: real, hi: real, total: real)
    requires total > 0.0 && weighted <= hi * total
    ensures weighted / total <= hi
  {
    CancelFactor(hi, total);
    DivLe(weighted, hi * total, total);
  }

  lemma CancelFactor(a: real, b: real)
    requires b != 0.0
    ensures a * b / b == a
  {
  }

  /** A single nonzero cash flow has its own time as its duration. */
  lemma SingleCashFlow(cashFlow: real, period: real, ytm: real, pow: (real, real) -> real)
    requires PositiveOnPositiveBases(pow)
    requires cashFlow != 0.0 && ytm > -1.0
    ensures MacaulayDuration([cashFlow], [period], ytm, pow) == Ok(period)
  {
    var pv := PresentValues([cashFlow], [period], ytm, pow);
    var v := PresentValue(cashFlow, period, ytm, pow);
    PresentValueSign(cashFlow, period, ytm, pow);
    assert pv == [v];
    assert Sum(pv) == v by { assert pv[..0] == []; }
    assert Dot([period], pv) == period * v by { assert pv[..0] == []; }
    CancelFactor(period, v);
    DurationValue([cashFlow], [period], ytm, pow);
  }
}
