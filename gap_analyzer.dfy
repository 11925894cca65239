/**
 * app/services/gap_analyzer.py: future value under monthly compounding, and
 * the gap between a goal and what the safe rate reaches, with the annual
 * return that would close it.
 */
module GapAnalyzer {
  import opened Common
  import opened Config
  import opened Numeric
  import opened Models
  import opened RootFinder

  /**
   * _future_value: principal compounded monthly for `months` months plus a
   * monthly contribution annuity, FV = P(1+r)^n + C((1+r)^n - 1)/r with
   * r = annualRate / 12; simple accumulation P + Cn at a zero rate.
   */
  function FutureValue(principal: real, monthly: real, annualRate: real, months: nat): (fv: real)
    ensures annualRate == 0.0 ==> fv == principal + monthly * months as real
    ensures months == 0 ==> fv == principal
  {
    if annualRate == 0.0 then principal + monthly * months as real
    else
      var rm := annualRate / 12.0;
      var compound := Pow(1.0 + rm, months);
      principal * compound + monthly * ((compound - 1.0) / rm)
  }

  /** Growth factor of one month at an annual rate. */
  function MonthlyFactor(annualRate: real): real
  {
    1.0 + annualRate / 12.0
  }

  /** The annuity series P q^n + C (1 + q + ... + q^(n-1)). */
  function Series(principal: real, monthly: real, q: real, months: nat): real
  {
    principal * Pow(q, months) + monthly * GeomSum(q, months)
  }

  /** Every branch of FutureValue is the series with q = 1 + rate/12. */
  lemma FutureValueSeries(principal: real, monthly: real, annualRate: real, months: nat)
    ensures FutureValue(principal, monthly, annualRate, months) == Series(principal, monthly, MonthlyFactor(annualRate), months)
  {
    var q := MonthlyFactor(annualRate);
    if annualRate == 0.0 {
      PowOne(months);
      GeomSumAtOne(months);
    } else {
      var rm := annualRate / 12.0;
      var g := GeomSum(q, months);
      GeomSumClosedForm(q, months);
      assert q - 1.0 == rm;
      CancelDivision(Pow(q, months) - 1.0, rm, g);
    }
  }

  lemma CancelDivision(x: real, d: real, g: real)
    requires d != 0.0 && x == d * g
    ensures x / d == g
  {
  }

  /** The series is monotone in q >= 0, strictly once there are two contributions. */
  lemma SeriesMonotone(principal: real, monthly: real, q1: real, q2: real, months: nat)
    requires principal >= 0.0 && monthly >= 0.0 && 0.0 <= q1 <= q2
    ensures Series(principal, monthly, q1, months) <= Series(principal, monthly, q2, months)
    ensures q1 < q2 && monthly > 0.0 && months >= 2 ==>
      Series(principal, monthly, q1, months) < Series(principal, monthly, q2, months)
  {
    PowMonotone(q1, q2, months);
    GeomSumMonotone(q1, q2, months);
    LinearCompare(principal, monthly, Pow(q1, months), GeomSum(q1, months), Pow(q2, months), GeomSum(q2, months));
    if q1 < q2 && monthly > 0.0 && months >= 2 {
      GeomSumStrictlyMonotone(q1, q2, months);
      LinearCompareStrict(principal, monthly, Pow(q1, months), GeomSum(q1, months), Pow(q2, months), GeomSum(q2, months));
    }
  }

  /** Comparing p a + c g term by term. */
  lemma LinearCompare(p: real, c: real, a1: real, g1: real, a2: real, g2: real)
    requires p >= 0.0 && c >= 0.0 && a1 <= a2 && g1 <= g2
    ensures p * a1 + c * g1 <= p * a2 + c * g2
  {
    MulLe(a1, a2, p);
    MulLe(g1, g2, c);
  }

  lemma LinearCompareStrict(p: real, c: real, a1: real, g1: real, a2: real, g2: real)
    requires p >= 0.0 && c > 0.0 && a1 <= a2 && g1 < g2
    ensures p * a1 + c * g1 < p * a2 + c * g2
  {
    MulLe(a1, a2, p);
    MulLt(g1, g2, c);
  }

  /**
   * Future value is non-decreasing in the rate (for rates of at least -1200%,
   * where the monthly factor is non-negative), strictly increasing once there
   * are two contributions.
   */
  lemma FutureValueMonotoneInRate(principal: real, monthly: real, r1: real, r2: real, months: nat)
    requires principal >= 0.0 && monthly >= 0.0 && -12.0 <= r1 <= r2
    ensures FutureValue(principal, monthly, r1, months) <= FutureValue(principal, monthly, r2, months)
    ensures r1 < r2 && monthly > 0.0 && months >= 2 ==>
      FutureValue(principal, monthly, r1, months) < FutureValue(principal, monthly, r2, months)
  {
    FutureValueSeries(principal, monthly, r1, months);
    FutureValueSeries(principal, monthly, r2, months);
    SeriesMonotone(principal, monthly, MonthlyFactor(r1), MonthlyFactor(r2), months);
  }

  /** At a positive rate, two or more contributions grow beyond simple accumulation. */
  lemma FutureValueAboveSimple(principal: real, monthly: real, annualRate: real, months: nat)
    requires principal >= 0.0 && monthly > 0.0 && annualRate > 0.0 && months >= 2
    ensures FutureValue(principal, monthly, annualRate, months) > principal + monthly * months as real
  {
    FutureValueMonotoneInRate(principal, monthly, 0.0, annualRate, months);
  }

  /** At a negative rate above -1200%, two or more contributions fall short of simple accumulation. */
  lemma FutureValueBelowSimple(principal: real, monthly: real, annualRate: real, months: nat)
    requires principal >= 0.0 && monthly > 0.0 && -12.0 < annualRate < 0.0 && months >= 2
    ensures FutureValue(principal, monthly, annualRate, months) < principal + monthly * months as real
  {
    FutureValueMonotoneInRate(principal, monthly, annualRate, 0.0, months);
  }

  /** A larger principal gives a larger future value, at any rate above -1200%. */
  lemma FutureValueMonotoneInPrincipal(p1: real, p2: real, monthly: real, annualRate: real, months: nat)
    requires p1 < p2 && annualRate > -12.0
    ensures FutureValue(p1, monthly, annualRate, months) < FutureValue(p2, monthly, annualRate, months)
  {
    var q := MonthlyFactor(annualRate);
    FutureValueSeries(p1, monthly, annualRate, months);
    FutureValueSeries(p2, monthly, annualRate, months);
    PowNonnegative(q, months);
    MulLt(p1, p2, Pow(q, months));
  }

  /** With non-negative money and a non-negative rate, future value is at least simple accumulation. */
  lemma FutureValueAtLeastSimple(principal: real, monthly: real, annualRate: real, months: nat)
    requires principal >= 0.0 && monthly >= 0.0 && annualRate >= 0.0
    ensures FutureValue(principal, monthly, annualRate, months) >= principal + monthly * months as real >= 0.0
  {
    FutureValueMonotoneInRate(principal, monthly, 0.0, annualRate, months);
  }

  /** The safe rate analyze_gap uses: the caller's, or the configured base rate. */
  function SafeRate(safeRate: Option<real>): real
  {
    if safeRate.Some? then safeRate.value else BaseInterestRate
  }

  /** _fv_diff: future value at a trial annual return minus the goal. */
  function FvDiff(goal: GoalInput): real -> real
  {
    r => FutureValue(goal.initialPrincipal, goal.monthlyContribution, r, goal.horizonMonths) - goal.goalAmount
  }

  /** The search band for the required return: 0% to 100% a year. */
  const SearchLow: real := 0.0
  const SearchHigh: real := 1.0

  /**
   * analyze_gap. The gap is the shortfall of the safe future value against
   * the goal (never negative); optimisation is needed exactly when it is
   * positive; the required return is searched in [0, 1] only then, and is
   * absent when the root finder cannot bracket it.
   */
  function AnalyzeGap(goal: GoalInput, safeRate: Option<real>): (r: GapAnalysisResult)
    requires goal.Valid()
    ensures var fvSafe := FutureValue(goal.initialPrincipal, goal.monthlyContribution, SafeRate(safeRate), goal.horizonMonths);
      && r.goalAmount == goal.goalAmount
      && Abs(r.futureValueSafe - fvSafe) <= 0.5
      && (r.optimizationNeeded <==> goal.goalAmount > fvSafe)
      && r.gap >= 0.0
      && (r.optimizationNeeded ==> Abs(r.gap - (goal.goalAmount - fvSafe)) <= 0.5)
      && (!r.optimizationNeeded ==> r.gap == 0.0 && r.requiredAnnualReturn.None?)
    ensures r.optimizationNeeded ==>
      (r.requiredAnnualReturn.None? <==> SameStrictSign(FvDiff(goal)(SearchLow), FvDiff(goal)(SearchHigh)))
    ensures r.requiredAnnualReturn.Some? ==>
      SearchLow <= r.requiredAnnualReturn.value <= SearchHigh
      && NearRoot(FvDiff(goal), r.requiredAnnualReturn.value, RootTolerance)
  {
    var fvSafe := FutureValue(goal.initialPrincipal, goal.monthlyContribution, SafeRate(safeRate), goal.horizonMonths);
    var gap := Max(0.0, goal.goalAmount - fvSafe);
    var needed := gap > 0.0;
    var required := if needed then Brentq(FvDiff(goal), SearchLow, SearchHigh, RootTolerance) else None;
    RoundZero(0);
    RoundZeroDigits(fvSafe);
    RoundZeroDigits(gap);
    GapAnalysisResult(Round(fvSafe, 0), goal.goalAmount, Round(gap, 0), needed, required)
  }

  /**
   * When the safe rate is not negative and optimisation is needed, zero
   * return already falls short, so the required return is absent exactly
   * when even 100% a year falls short of the goal.
   */
  lemma RequiredReturnAbsentIffUnreachable(goal: GoalInput, safeRate: Option<real>)
    requires goal.Valid() && SafeRate(safeRate) >= 0.0
    requires AnalyzeGap(goal, safeRate).optimizationNeeded
    ensures FvDiff(goal)(SearchLow) < 0.0
    ensures AnalyzeGap(goal, safeRate).requiredAnnualReturn.None?
        <==> FutureValue(goal.initialPrincipal, goal.monthlyContribution, SearchHigh, goal.horizonMonths) < goal.goalAmount
  {
    var p, c, n := goal.initialPrincipal, goal.monthlyContribution, goal.horizonMonths;
    FutureValueMonotoneInRate(p, c, SearchLow, SafeRate(safeRate), n);
    assert FvDiff(goal)(SearchLow) == FutureValue(p, c, SearchLow, n) - goal.goalAmount;
    assert FvDiff(goal)(SearchHigh) == FutureValue(p, c, SearchHigh, n) - goal.goalAmount;
  }

  /**
   * A required return closes the gap to within the root tolerance: it lies
   * in a bracket [lo, hi] no wider than 1e-8 whose future values enclose both
   * the goal and its own future value. With a non-negative safe rate the
   * bracket ends above that rate.
   */
  lemma RequiredReturnMeetsGoal(goal: GoalInput, safeRate: Option<real>) returns (lo: real, hi: real)
    requires goal.Valid()
    requires AnalyzeGap(goal, safeRate).requiredAnnualReturn.Some?
    ensures var v := AnalyzeGap(goal, safeRate).requiredAnnualReturn.value;
      var fv := (r: real) => FutureValue(goal.initialPrincipal, goal.monthlyContribution, r, goal.horizonMonths);
      && lo <= v <= hi && hi - lo <= RootTolerance
      && fv(lo) <= goal.goalAmount <= fv(hi)
      && fv(lo) <= fv(v) <= fv(hi)
    ensures SafeRate(safeRate) >= 0.0 ==> SafeRate(safeRate) < hi
  {
    var p, c, n := goal.initialPrincipal, goal.monthlyContribution, goal.horizonMonths;
    var v := AnalyzeGap(goal, safeRate).requiredAnnualReturn.value;
    var f := FvDiff(goal);
    lo, hi :| lo <= v <= hi && hi - lo <= RootTolerance && Brackets(f, lo, hi);
    FutureValueMonotoneInRate(p, c, lo, v, n);
    FutureValueMonotoneInRate(p, c, v, hi, n);
    assert f(lo) == FutureValue(p, c, lo, n) - goal.goalAmount;
    assert f(hi) == FutureValue(p, c, hi, n) - goal.goalAmount;
    if SafeRate(safeRate) >= 0.0 && hi <= SafeRate(safeRate) {
      FutureValueMonotoneInRate(p, c, hi, SafeRate(safeRate), n);
    }
  }

  /** brentq's xtol as the gap analyser passes it. */
  const RootTolerance: real := 0.00000001
}
