/**
 * The portfolio optimiser of app/services/optimizer.py: the linear
 * program over asset weights (duration band, return floor, youth-savings
 * and ISA caps, weights summing to one), the diagnosis given when the
 * solver finds no solution, and the post-processing of solved weights.
 * The LP solver itself is a parameter.
 */
module Optimizer {
  import opened Common
  import opened Config
  import opened Numeric
  import opened Models
  import opened Tax
  import opened GapAnalyzer

  /** The after-tax return vector R of a universe. */
  function Returns(assets: seq<Asset>): (r: seq<real>)
    ensures |r| == |assets|
    ensures forall i :: 0 <= i < |assets| ==> r[i] == AfterTaxReturn(assets[i].grossReturn, assets[i].taxBenefit)
    ensures forall i :: 0 <= i < |assets| ==> r[i] <= assets[i].grossReturn
    ensures forall i :: 0 <= i < |assets| ==> (assets[i].grossReturn > 0.0 <==> r[i] > 0.0)
    ensures forall i :: 0 <= i < |assets| && assets[i].taxBenefit == TaxFree ==> r[i] == assets[i].grossReturn
  {
    seq(|assets|, i requires 0 <= i < |assets| => AfterTaxReturn(assets[i].grossReturn, assets[i].taxBenefit))
  }

  /** The duration vector D of a universe. */
  function Durations(assets: seq<Asset>): (d: seq<real>)
    ensures |d| == |assets|
    ensures forall i :: 0 <= i < |assets| ==> d[i] == assets[i].duration
  {
    seq(|assets|, i requires 0 <= i < |assets| => assets[i].duration)
  }

  /** The duration tolerance, defaulting to the configured epsilon. */
  function Epsilon(epsilon: Option<real>): real
  {
    if epsilon.None? then DurationEpsilon else epsilon.value
  }

  // ----- the linear program ---------------------------------------------

  /** One constraint `coeffs @ x <= bound` (or `== bound`): a row of A with its entry of b. */
  datatype Row = Row(coeffs: seq<real>, bound: real)

  /** The arguments of linprog: minimise objective @ x subject to the rows and the bounds. */
  datatype LinearProgram = LinearProgram(
    objective: seq<real>,
    upper: seq<Row>,
    equal: seq<Row>,
    lowerBounds: seq<real>,
    upperBounds: seq<real>)

  /** x meets the inequality `row`. */
  predicate Holds(row: Row, x: seq<real>)
  {
    |row.coeffs| == |x| && Dot(row.coeffs, x) <= row.bound
  }

  /** x meets every inequality of `rows`. */
  predicate SatisfiesUpper(rows: seq<Row>, x: seq<real>)
  {
    |rows| == 0 || (SatisfiesUpper(rows[..|rows| - 1], x) && Holds(rows[|rows| - 1], x))
  }

  predicate SatisfiesEqual(rows: seq<Row>, x: seq<real>)
  {
    forall k :: 0 <= k < |rows| ==> |rows[k].coeffs| == |x| && Dot(rows[k].coeffs, x) == rows[k].bound
  }

  /** x is a feasible point of the program. */
  predicate Feasible(lp: LinearProgram, x: seq<real>)
  {
    && |x| == |lp.objective| == |lp.lowerBounds| == |lp.upperBounds|
    && SatisfiesUpper(lp.upper, x)
    && SatisfiesEqual(lp.equal, x)
    && forall i :: 0 <= i < |x| ==> lp.lowerBounds[i] <= x[i] <= lp.upperBounds[i]
  }

  /** The cap rows, one per asset of class `cls` among the first k, in universe order. */
  function CapRows(assets: seq<Asset>, cls: AssetClass, coeff: real, limit: real, k: nat): seq<Row>
    requires k <= |assets|
  {
    if k == 0 then []
    else CapRows(assets, cls, coeff, limit, k - 1)
         + (if assets[k - 1].assetClass == cls then [Row(Unit(|assets|, k - 1, coeff), limit)] else [])
  }

  /** How many of the first k assets have class `cls`. */
  function ClassCount(assets: seq<Asset>, cls: AssetClass, k: nat): nat
    requires k <= |assets|
  {
    if k == 0 then 0
    else ClassCount(assets, cls, k - 1) + (if assets[k - 1].assetClass == cls then 1 else 0)
  }

  /** The duration band |D @ w - T| <= eps as the two rows D @ w <= T + eps and -D @ w <= -(T - eps). */
  function BandRows(d: seq<real>, t: real, eps: real): seq<Row>
  {
    [Row(d, t + eps), Row(Neg(d), -(t - eps))]
  }

  /** The return-floor row, present only when a required return is given. */
  function ReturnRows(assets: seq<Asset>, requiredReturn: Option<real>): seq<Row>
  {
    if requiredReturn.Some? then [Row(Neg(Returns(assets)), -requiredReturn.value)] else []
  }

  /** A_ub with b_ub: the duration band, the return floor, the youth caps and the ISA caps. */
  function UpperRows(assets: seq<Asset>, goal: GoalInput, eps: real, requiredReturn: Option<real>): seq<Row>
  {
    var t := goal.HorizonYears();
    var c := goal.monthlyContribution;
    BandRows(Durations(assets), t, eps)
      + ReturnRows(assets, requiredReturn)
      + CapRows(assets, YouthSavings, c, YouthSavingsMonthlyLimit, |assets|)
      + CapRows(assets, IsaDeposit, 12.0 * c, IsaAnnualLimit, |assets|)
  }

  /** The program handed to the solver: maximise R @ w over the constraint system. */
  function Program(assets: seq<Asset>, goal: GoalInput, eps: real, requiredReturn: Option<real>): (lp: LinearProgram)
    ensures |lp.objective| == |assets|
  {
    var n := |assets|;
    LinearProgram(Neg(Returns(assets)), UpperRows(assets, goal, eps, requiredReturn),
                  [Row(Ones(n), 1.0)], seq(n, i => 0.0), seq(n, i => 1.0))
  }

  /** Every youth (or ISA) asset of the universe respects its cap. */
  predicate WithinCap(assets: seq<Asset>, cls: AssetClass, coeff: real, limit: real, x: seq<real>)
    requires |x| == |assets|
  {
    forall i :: 0 <= i < |assets| && assets[i].assetClass == cls ==> coeff * x[i] <= limit
  }

  lemma {:induction false} SatisfiesUpperConcat(a: seq<Row>, b: seq<Row>, x: seq<real>)
    ensures SatisfiesUpper(a + b, x) <==> SatisfiesUpper(a, x) && SatisfiesUpper(b, x)
  {
    if |b| == 0 {
      assert a + b == a;
    } else {
      assert (a + b)[..|a + b| - 1] == a + b[..|b| - 1];
      SatisfiesUpperConcat(a, b[..|b| - 1], x);
    }
  }

  /** A single row holds exactly when its dot product is within its bound. */
  lemma SatisfiesUpperSingle(row: Row, x: seq<real>)
    requires |row.coeffs| == |x|
    ensures SatisfiesUpper([row], x) <==> Dot(row.coeffs, x) <= row.bound
  {
    assert [row][..0] == [];
  }

  /** Every asset of class `cls` among the first k keeps to its cap. */
  predicate CapsHold(assets: seq<Asset>, cls: AssetClass, coeff: real, limit: real, k: nat, x: seq<real>)
    requires k <= |assets| == |x|
  {
    k == 0 ||
    (CapsHold(assets, cls, coeff, limit, k - 1, x) && (assets[k - 1].assetClass == cls ==> coeff * x[k - 1] <= limit))
  }

  /** The cap rows over the first k assets hold exactly when those assets keep to their caps. */
  lemma {:induction false} CapRowsMeaning(assets: seq<Asset>, cls: AssetClass, coeff: real, limit: real, k: nat, x: seq<real>)
    requires k <= |assets| == |x|
    ensures SatisfiesUpper(CapRows(assets, cls, coeff, limit, k), x) <==> CapsHold(assets, cls, coeff, limit, k, x)
  {
    if k > 0 {
      var prev := CapRows(assets, cls, coeff, limit, k - 1);
      var tail := if assets[k - 1].assetClass == cls then [Row(Unit(|assets|, k - 1, coeff), limit)] else [];
      assert CapRows(assets, cls, coeff, limit, k) == prev + tail;
      CapRowsMeaning(assets, cls, coeff, limit, k - 1, x);
      SatisfiesUpperConcat(prev, tail, x);
      if assets[k - 1].assetClass == cls {
        CapRowMeaning(|assets|, k - 1, coeff, limit, x);
      }
    }
  }

  /** One cap row holds exactly when coeff * x[i] is within the limit. */
  lemma CapRowMeaning(n: nat, i: nat, coeff: real, limit: real, x: seq<real>)
    requires i < n == |x|
    ensures SatisfiesUpper([Row(Unit(n, i, coeff), limit)], x) <==> coeff * x[i] <= limit
  {
    DotUnit(n, i, coeff, x);
    SatisfiesUpperSingle(Row(Unit(n, i, coeff), limit), x);
  }

  lemma {:induction false} CapsHoldAll(assets: seq<Asset>, cls: AssetClass, coeff: real, limit: real, k: nat, x: seq<real>)
    requires k <= |assets| == |x|
    ensures CapsHold(assets, cls, coeff, limit, k, x)
        <==> forall i :: 0 <= i < k && assets[i].assetClass == cls ==> coeff * x[i] <= limit
  {
    if k > 0 {
      CapsHoldAll(assets, cls, coeff, limit, k - 1, x);
    }
  }

  /** The cap rows are one row of length n per asset of the class, each bounded by the limit. */
  lemma {:induction false} CapRowsShape(assets: seq<Asset>, cls: AssetClass, coeff: real, limit: real, k: nat)
    requires k <= |assets|
    ensures |CapRows(assets, cls, coeff, limit, k)| == ClassCount(assets, cls, k)
    ensures forall j :: 0 <= j < |CapRows(assets, cls, coeff, limit, k)| ==>
      |CapRows(assets, cls, coeff, limit, k)[j].coeffs| == |assets|
      && CapRows(assets, cls, coeff, limit, k)[j].bound == limit
  {
    if k > 0 {
      CapRowsShape(assets, cls, coeff, limit, k - 1);
    }
  }

  /**
   * The shape of A_ub / b_ub: the two duration rows first, then the return
   * row iff a required return is given, then one row per youth-savings asset
   * and one per ISA asset; every row has one coefficient per asset.
   */
  lemma InequalityShape(assets: seq<Asset>, goal: GoalInput, eps: real, requiredReturn: Option<real>)
    ensures var rows := UpperRows(assets, goal, eps, requiredReturn);
      && |rows| == 2 + (if requiredReturn.Some? then 1 else 0)
                  + ClassCount(assets, YouthSavings, |assets|) + ClassCount(assets, IsaDeposit, |assets|)
      && (forall k :: 0 <= k < |rows| ==> |rows[k].coeffs| == |assets|)
      && rows[0] == Row(Durations(assets), goal.HorizonYears() + eps)
      && rows[1] == Row(Neg(Durations(assets)), -(goal.HorizonYears() - eps))
      && (requiredReturn.Some? ==> rows[2] == Row(Neg(Returns(assets)), -requiredReturn.value))
  {
    var c := goal.monthlyContribution;
    CapRowsShape(assets, YouthSavings, c, YouthSavingsMonthlyLimit, |assets|);
    CapRowsShape(assets, IsaDeposit, 12.0 * c, IsaAnnualLimit, |assets|);
  }

  /** The two duration rows hold exactly when the duration lies within eps of t. */
  lemma BandMeaning(d: seq<real>, t: real, eps: real, x: seq<real>)
    requires |d| == |x|
    ensures SatisfiesUpper(BandRows(d, t, eps), x) <==> t - eps <= Dot(d, x) <= t + eps
  {
    DotNeg(d, x);
    SatisfiesUpperConcat([Row(d, t + eps)], [Row(Neg(d), -(t - eps))], x);
    assert [Row(d, t + eps), Row(Neg(d), -(t - eps))] == [Row(d, t + eps)] + [Row(Neg(d), -(t - eps))];
    SatisfiesUpperSingle(Row(d, t + eps), x);
    SatisfiesUpperSingle(Row(Neg(d), -(t - eps)), x);
  }

  /** The return row, when present, holds exactly when R @ x reaches the required return. */
  lemma ReturnRowsMeaning(assets: seq<Asset>, requiredReturn: Option<real>, x: seq<real>)
    requires |x| == |assets|
    ensures SatisfiesUpper(ReturnRows(assets, requiredReturn), x)
        <==> (requiredReturn.Some? ==> Dot(Returns(assets), x) >= requiredReturn.value)
  {
    if requiredReturn.Some? {
      DotNeg(Returns(assets), x);
      SatisfiesUpperSingle(Row(Neg(Returns(assets)), -requiredReturn.value), x);
    }
  }

  /**
   * The meaning of the inequality system: a weight vector satisfies it
   * exactly when its duration is within eps of T, its return reaches the
   * required return (if any), and every youth-savings and ISA asset keeps
   * to its cap (C w_i <= 700,000 and 12 C w_i <= 20,000,000).
   */
  lemma UpperSystemMeaning(assets: seq<Asset>, goal: GoalInput, eps: real, requiredReturn: Option<real>, x: seq<real>)
    requires |x| == |assets|
    ensures SatisfiesUpper(UpperRows(assets, goal, eps, requiredReturn), x) <==>
      && goal.HorizonYears() - eps <= Dot(Durations(assets), x) <= goal.HorizonYears() + eps
      && (requiredReturn.Some? ==> Dot(Returns(assets), x) >= requiredReturn.value)
      && WithinCap(assets, YouthSavings, goal.monthlyContribution, YouthSavingsMonthlyLimit, x)
      && WithinCap(assets, IsaDeposit, 12.0 * goal.monthlyContribution, IsaAnnualLimit, x)
  {
    var t := goal.HorizonYears();
    var c := goal.monthlyContribution;
    var d := Durations(assets);
    var band := BandRows(d, t, eps);
    var ret := ReturnRows(assets, requiredReturn);
    var youth := CapRows(assets, YouthSavings, c, YouthSavingsMonthlyLimit, |assets|);
    var annual := 12.0 * c;
    var isa := CapRows(assets, IsaDeposit, annual, IsaAnnualLimit, |assets|);
    assert SatisfiesUpper(UpperRows(assets, goal, eps, requiredReturn), x) <==>
      SatisfiesUpper(band, x) && SatisfiesUpper(ret, x) && SatisfiesUpper(youth, x) && SatisfiesUpper(isa, x)
    by { UpperRowsSplit(assets, goal, eps, requiredReturn, x); }
    assert SatisfiesUpper(band, x) <==> t - eps <= Dot(d, x) <= t + eps by { BandMeaning(d, t, eps, x); }
    assert SatisfiesUpper(ret, x) <==> (requiredReturn.Some? ==> Dot(Returns(assets), x) >= requiredReturn.value)
    by { ReturnRowsMeaning(assets, requiredReturn, x); }
    assert SatisfiesUpper(youth, x) <==> WithinCap(assets, YouthSavings, c, YouthSavingsMonthlyLimit, x)
    by { CapBlockMeaning(assets, YouthSavings, c, YouthSavingsMonthlyLimit, x); }
    assert SatisfiesUpper(isa, x) <==> WithinCap(assets, IsaDeposit, annual, IsaAnnualLimit, x)
    by { CapBlockMeaning(assets, IsaDeposit, annual, IsaAnnualLimit, x); }
  }

  /** A block of cap rows holds exactly when every asset of the class keeps to the cap. */
  lemma CapBlockMeaning(assets: seq<Asset>, cls: AssetClass, coeff: real, limit: real, x: seq<real>)
    requires |x| == |assets|
    ensures SatisfiesUpper(CapRows(assets, cls, coeff, limit, |assets|), x) <==> WithinCap(assets, cls, coeff, limit, x)
  {
    CapRowsMeaning(assets, cls, coeff, limit, |assets|, x);
    CapsHoldAll(assets, cls, coeff, limit, |assets|, x);
  }

  /** The inequality system holds exactly when each of its four blocks holds. */
  lemma UpperRowsSplit(assets: seq<Asset>, goal: GoalInput, eps: real, requiredReturn: Option<real>, x: seq<real>)
    ensures SatisfiesUpper(UpperRows(assets, goal, eps, requiredReturn), x) <==>
      && SatisfiesUpper(BandRows(Durations(assets), goal.HorizonYears(), eps), x)
      && SatisfiesUpper(ReturnRows(assets, requiredReturn), x)
      && SatisfiesUpper(CapRows(assets, YouthSavings, goal.monthlyContribution, YouthSavingsMonthlyLimit, |assets|), x)
      && SatisfiesUpper(CapRows(assets, IsaDeposit, 12.0 * goal.monthlyContribution, IsaAnnualLimit, |assets|), x)
  {
    var t := goal.HorizonYears();
    var c := goal.monthlyContribution;
    var d := Durations(assets);
    var band := BandRows(d, t, eps);
    var ret := ReturnRows(assets, requiredReturn);
    var youth := CapRows(assets, YouthSavings, c, YouthSavingsMonthlyLimit, |assets|);
    var isa := CapRows(assets, IsaDeposit, 12.0 * c, IsaAnnualLimit, |assets|);
    assert UpperRows(assets, goal, eps, requiredReturn) == band + ret + youth + isa by { }
    SatisfiesUpperConcat4(band, ret, youth, isa, x);
  }

  lemma SatisfiesUpperConcat4(a: seq<Row>, b: seq<Row>, c: seq<Row>, d: seq<Row>, x: seq<real>)
    ensures SatisfiesUpper(a + b + c + d, x) <==>
      SatisfiesUpper(a, x) && SatisfiesUpper(b, x) && SatisfiesUpper(c, x) && SatisfiesUpper(d, x)
  {
    SatisfiesUpperConcat(a + b + c, d, x);
    SatisfiesUpperConcat(a + b, c, x);
    SatisfiesUpperConcat(a, b, x);
  }

  /** A feasible point is a vector of weights in [0, 1] summing to one. */
  lemma FeasibleWeights(assets: seq<Asset>, goal: GoalInput, eps: real, requiredReturn: Option<real>, x: seq<real>)
    requires Feasible(Program(assets, goal, eps, requiredReturn), x)
    ensures |x| == |assets| && Sum(x) == 1.0
    ensures forall i :: 0 <= i < |x| ==> 0.0 <= x[i] <= 1.0
  {
    var lp := Program(assets, goal, eps, requiredReturn);
    assert lp.equal[0] == Row(Ones(|x|), 1.0);
    DotOnes(x);
  }

  // ----- the infeasibility diagnosis ------------------------------------

  /** Position of a reason in the diagnosis message. */
  function Rank(reason: Reason): nat
  {
    match reason
    case MaxDurationTooShort(_, _) => 0
    case MinDurationTooLong(_, _) => 1
    case ReturnTooLow(_, _) => 2
    case JointlyInfeasible => 3
  }

  /**
   * The reasons the diagnosis lists, in message order: the duration range
   * below or above the target band, the best return below the required
   * one, and the generic reason when none of these applies.
   */
  function Diagnosis(rates: seq<real>, durations: seq<real>, t: real, eps: real, requiredReturn: Option<real>)
    : (reasons: seq<Reason>)
    requires |rates| > 0 && |durations| > 0
    ensures 1 <= |reasons| <= 3
  {
    var dMax, dMin := MaxOf(durations), MinOf(durations);
    var found0: seq<Reason> := if dMax < t - eps then [MaxDurationTooShort(dMax, t - eps)] else [];
    var found1 := if dMin > t + eps then found0 + [MinDurationTooLong(dMin, t + eps)] else found0;
    var found2 := if requiredReturn.Some? && MaxOf(rates) < requiredReturn.value
                  then found1 + [ReturnTooLow(MaxOf(rates), requiredReturn.value)] else found1;
    if found2 == [] then [JointlyInfeasible] else found2
  }

  /**
   * The diagnosis is never empty; it names each specific reason exactly when
   * that reason applies and gives the generic reason alone exactly when
   * none applies.
   */
  lemma DiagnosisContents(rates: seq<real>, durations: seq<real>, t: real, eps: real, requiredReturn: Option<real>)
    requires |rates| > 0 && |durations| > 0
    ensures var reasons := Diagnosis(rates, durations, t, eps, requiredReturn);
      && |reasons| >= 1
      && (MaxDurationTooShort(MaxOf(durations), t - eps) in reasons <==> MaxOf(durations) < t - eps)
      && (MinDurationTooLong(MinOf(durations), t + eps) in reasons <==> MinOf(durations) > t + eps)
      && (requiredReturn.Some? ==>
           (ReturnTooLow(MaxOf(rates), requiredReturn.value) in reasons <==> MaxOf(rates) < requiredReturn.value))
      && (reasons == [JointlyInfeasible] <==>
           !(MaxOf(durations) < t - eps) && !(MinOf(durations) > t + eps)
           && !(requiredReturn.Some? && MaxOf(rates) < requiredReturn.value))
  {
  }

  /** The diagnosis names no other reason and lists its reasons in message order. */
  lemma DiagnosisOrder(rates: seq<real>, durations: seq<real>, t: real, eps: real, requiredReturn: Option<real>)
    requires |rates| > 0 && |durations| > 0
    ensures var reasons := Diagnosis(rates, durations, t, eps, requiredReturn);
      && (forall k :: 0 <= k < |reasons| ==>
           || reasons[k] == MaxDurationTooShort(MaxOf(durations), t - eps)
           || reasons[k] == MinDurationTooLong(MinOf(durations), t + eps)
           || (requiredReturn.Some? && reasons[k] == ReturnTooLow(MaxOf(rates), requiredReturn.value))
           || reasons[k] == JointlyInfeasible)
      && (forall j, k :: 0 <= j < k < |reasons| ==> Rank(reasons[j]) < Rank(reasons[k]))
  {
  }

  /** _diagnose_infeasibility: appends the applicable reasons one by one. */
  method DiagnoseInfeasibility(rates: seq<real>, durations: seq<real>, t: real, eps: real, requiredReturn: Option<real>)
    returns (reasons: seq<Reason>)
    requires |rates| > 0 && |durations| > 0
    ensures reasons == Diagnosis(rates, durations, t, eps, requiredReturn)
  {
    reasons := [];
    var dMin := MinOf(durations);
    var dMax := MaxOf(durations);
    var targetLow := t - eps;
    var targetHigh := t + eps;
    if dMax < targetLow {
      reasons := reasons + [MaxDurationTooShort(dMax, targetLow)];
    }
    if dMin > targetHigh {
      reasons := reasons + [MinDurationTooLong(dMin, targetHigh)];
    }
    if requiredReturn.Some? {
      var maxReturn := MaxOf(rates);
      if maxReturn < requiredReturn.value {
        reasons := reasons + [ReturnTooLow(maxReturn, requiredReturn.value)];
      }
    }
    if reasons == [] {
      reasons := reasons + [JointlyInfeasible];
    }
  }

  /**
   * Every specific reason is a certificate of infeasibility: when the
   * program has a feasible point, the diagnosis can only give the generic
   * reason.
   */
  lemma DiagnosisSound(assets: seq<Asset>, goal: GoalInput, eps: real, requiredReturn: Option<real>, x: seq<real>)
    requires |assets| > 0
    requires Feasible(Program(assets, goal, eps, requiredReturn), x)
    ensures Diagnosis(Returns(assets), Durations(assets), goal.HorizonYears(), eps, requiredReturn) == [JointlyInfeasible]
  {
    FeasibleWeights(assets, goal, eps, requiredReturn, x);
    UpperSystemMeaning(assets, goal, eps, requiredReturn, x);
    WeightedRange(Returns(assets), Durations(assets), goal.HorizonYears(), eps, requiredReturn, x);
    NoSpecificReason(Returns(assets), Durations(assets), goal.HorizonYears(), eps, requiredReturn);
  }

  /**
   * Weights in [0, 1] summing to one average the durations and returns, so
   * a duration in the band and a return at the floor are within reach of
   * the extreme assets.
   */
  lemma WeightedRange(rates: seq<real>, durations: seq<real>, t: real, eps: real, requiredReturn: Option<real>, x: seq<real>)
    requires |rates| == |durations| == |x| > 0
    requires Sum(x) == 1.0 && forall i :: 0 <= i < |x| ==> 0.0 <= x[i] <= 1.0
    requires t - eps <= Dot(durations, x) <= t + eps
    requires requiredReturn.Some? ==> Dot(rates, x) >= requiredReturn.value
    ensures MaxOf(durations) >= t - eps && MinOf(durations) <= t + eps
    ensures requiredReturn.Some? ==> MaxOf(rates) >= requiredReturn.value
  {
    DotBetween(durations, x, MinOf(durations), MaxOf(durations), 1.0);
    DotBetween(rates, x, MinOf(rates), MaxOf(rates), 1.0);
  }

  /** With every extreme within reach, only the generic reason is given (a corollary of DiagnosisContents). */
  lemma NoSpecificReason(rates: seq<real>, durations: seq<real>, t: real, eps: real, requiredReturn: Option<real>)
    requires |rates| > 0 && |durations| > 0
    requires MaxOf(durations) >= t - eps && MinOf(durations) <= t + eps
    requires requiredReturn.Some? ==> MaxOf(rates) >= requiredReturn.value
    ensures Diagnosis(rates, durations, t, eps, requiredReturn) == [JointlyInfeasible]
  {
  }

  // ----- post-processing of the solved weights --------------------------

  /** Weights below this are solver noise and get no allocation entry. */
  const NoiseThreshold: real := 0.000001

  /** The allocation entry of one kept asset, with the source's roundings. */
  function Entry(asset: Asset, afterTax: real, w: real, c: real): AllocationItem
  {
    AllocationItem(asset.assetClass, asset.name, Round(w, 4), Round(w * c, 0), Round(w * asset.duration, 4), Round(afterTax, 6))
  }

  /** The allocation list over the first k assets. */
  function Allocations(assets: seq<Asset>, rates: seq<real>, weights: seq<real>, c: real, k: nat)
    : (items: seq<AllocationItem>)
    requires k <= |assets| == |rates| == |weights|
  {
    if k == 0 then []
    else Allocations(assets, rates, weights, c, k - 1)
         + (if weights[k - 1] < NoiseThreshold then []
            else [Entry(assets[k - 1], rates[k - 1], weights[k - 1], c)])
  }

  /** The indices among the first k whose weight is kept, in increasing order. */
  function KeptIndices(weights: seq<real>, k: nat): (kept: seq<nat>)
    requires k <= |weights|
    ensures forall j :: 0 <= j < |kept| ==> kept[j] < k && weights[kept[j]] >= NoiseThreshold
    ensures forall j1, j2 :: 0 <= j1 < j2 < |kept| ==> kept[j1] < kept[j2]
    ensures forall i :: 0 <= i < k && weights[i] >= NoiseThreshold ==> i in kept
  {
    if k == 0 then []
    else KeptIndices(weights, k - 1) + (if weights[k - 1] < NoiseThreshold then [] else [k - 1])
  }

  /**
   * The allocation list keeps universe order and holds one entry per
   * weight of at least 1e-6, built from that asset alone.
   */
  lemma {:induction false} AllocationsFollowKept(assets: seq<Asset>, rates: seq<real>, weights: seq<real>, c: real, k: nat)
    requires k <= |assets| == |rates| == |weights|
    ensures var items := Allocations(assets, rates, weights, c, k);
      var kept := KeptIndices(weights, k);
      && |items| == |kept|
      && forall j :: 0 <= j < |kept| ==> items[j] == Entry(assets[kept[j]], rates[kept[j]], weights[kept[j]], c)
  {
    if k > 0 {
      AllocationsFollowKept(assets, rates, weights, c, k - 1);
    }
  }

  /** Weights in [0, 1] and a non-negative contribution give entries pydantic accepts. */
  lemma {:induction false} AllocationsValid(assets: seq<Asset>, rates: seq<real>, weights: seq<real>, c: real, k: nat)
    requires k <= |assets| == |rates| == |weights|
    requires c >= 0.0 && forall i :: 0 <= i < |weights| ==> 0.0 <= weights[i] <= 1.0
    ensures forall j :: 0 <= j < |Allocations(assets, rates, weights, c, k)| ==>
      Allocations(assets, rates, weights, c, k)[j].Valid()
  {
    if k > 0 {
      AllocationsValid(assets, rates, weights, c, k - 1);
      var w := weights[k - 1];
      RoundAtMostOne(w, 4);
      MulLe(0.0, w, c);
    }
  }

  /** Sum of the rounded weights of an allocation list. */
  function WeightTotal(items: seq<AllocationItem>): real
  {
    if |items| == 0 then 0.0 else WeightTotal(items[..|items| - 1]) + items[|items| - 1].weight
  }

  /**
   * Dropping weights below 1e-6 and rounding the rest to 4 places moves
   * the total by at most 0.000051 per asset.
   */
  lemma {:induction false} WeightTotalError(assets: seq<Asset>, rates: seq<real>, weights: seq<real>, c: real, k: nat)
    requires k <= |assets| == |rates| == |weights|
    requires forall i :: 0 <= i < |weights| ==> weights[i] >= 0.0
    ensures Abs(WeightTotal(Allocations(assets, rates, weights, c, k)) - Sum(weights[..k])) <= k as real * 0.000051
  {
    if k > 0 {
      var prev := Allocations(assets, rates, weights, c, k - 1);
      var w := weights[k - 1];
      WeightTotalError(assets, rates, weights, c, k - 1);
      SumPrefixStep(weights, k);
      var step: real;
      if w >= NoiseThreshold {
        var e := Entry(assets[k - 1], rates[k - 1], w, c);
        assert Allocations(assets, rates, weights, c, k) == prev + [e];
        WeightTotalAppend(prev, e);
        RoundFourError(w);
        step := e.weight;
      } else {
        assert Allocations(assets, rates, weights, c, k) == prev;
        step := 0.0;
      }
      AccumulatedError(WeightTotal(prev), Sum(weights[..k - 1]), step, w, (k - 1) as real * 0.000051);
    }
  }

  /** One more kept-or-dropped weight adds at most 0.000051 to the accumulated error. */
  lemma AccumulatedError(total: real, sum: real, step: real, w: real, bound: real)
    requires Abs(total - sum) <= bound && Abs(step - w) <= 0.000051
    ensures Abs(total + step - (sum + w)) <= bound + 0.000051
  {
  }

  lemma SumPrefixStep(s: seq<real>, k: nat)
    requires 0 < k <= |s|
    ensures Sum(s[..k]) == Sum(s[..k - 1]) + s[k - 1]
  {
    assert s[..k][..k - 1] == s[..k - 1];
  }

  lemma WeightTotalAppend(items: seq<AllocationItem>, e: AllocationItem)
    ensures WeightTotal(items + [e]) == WeightTotal(items) + e.weight
  {
    assert (items + [e])[..|items|] == items;
  }

  lemma RoundFourError(w: real)
    ensures Abs(Round(w, 4) - w) <= 0.00005
  {
    RoundError(w, 4);
    assert Pow10(4) == 10000.0;
  }

  /** The rounded weights of a solution summing to one sum to one within 0.000051 n. */
  lemma WeightsSumNearOne(assets: seq<Asset>, rates: seq<real>, weights: seq<real>, c: real)
    requires |assets| == |rates| == |weights|
    requires Sum(weights) == 1.0 && forall i :: 0 <= i < |weights| ==> weights[i] >= 0.0
    ensures Abs(WeightTotal(Allocations(assets, rates, weights, c, |assets|)) - 1.0) <= |assets| as real * 0.000051
  {
    WeightTotalError(assets, rates, weights, c, |assets|);
    assert weights[..|assets|] == weights;
  }

  /** The post-solve check: the portfolio duration is within eps + 0.01 years of T. */
  predicate PassesDurationCheck(weights: seq<real>, durations: seq<real>, t: real, eps: real)
    requires |weights| == |durations|
  {
    Abs(Dot(weights, durations) - t) <= eps + 0.01
  }

  /** Any weights satisfying the two duration rows pass the post-solve check. */
  lemma FeasiblePassesDurationCheck(assets: seq<Asset>, goal: GoalInput, eps: real, x: seq<real>)
    requires |x| == |assets|
    requires SatisfiesUpper(BandRows(Durations(assets), goal.HorizonYears(), eps), x)
    ensures PassesDurationCheck(x, Durations(assets), goal.HorizonYears(), eps)
  {
    BandMeaning(Durations(assets), goal.HorizonYears(), eps, x);
    DotCommutes(x, Durations(assets));
  }

  /** Weights meeting the youth cap give youth entries whose monthly amount is within the monthly limit. */
  lemma {:induction false} AllocationsWithinYouthCap(assets: seq<Asset>, rates: seq<real>, weights: seq<real>, c: real, k: nat)
    requires k <= |assets| == |rates| == |weights|
    requires WithinCap(assets, YouthSavings, c, YouthSavingsMonthlyLimit, weights)
    ensures forall j :: 0 <= j < |Allocations(assets, rates, weights, c, k)| ==>
      (Allocations(assets, rates, weights, c, k)[j].assetClass == YouthSavings ==>
       Allocations(assets, rates, weights, c, k)[j].monthlyAmount <= YouthSavingsMonthlyLimit)
  {
    if k > 0 {
      AllocationsWithinYouthCap(assets, rates, weights, c, k - 1);
      var w := weights[k - 1];
      if assets[k - 1].assetClass == YouthSavings {
        assert c * w <= 700000.0;
        assert w * c <= 700000.0;
        RoundWholeAtMost(w * c, 700000);
      }
    }
  }

  /**
   * A feasible solution meets the required return, so its expected future
   * value is at least the future value at the required return.
   */
  lemma FeasibleMeetsRequiredReturn(assets: seq<Asset>, goal: GoalInput, eps: real, requiredReturn: Option<real>, x: seq<real>)
    requires goal.Valid() && requiredReturn.Some? && requiredReturn.value >= -12.0
    requires Feasible(Program(assets, goal, eps, requiredReturn), x)
    ensures Dot(x, Returns(assets)) >= requiredReturn.value
    ensures FutureValue(goal.initialPrincipal, goal.monthlyContribution, Dot(x, Returns(assets)), goal.horizonMonths)
         >= FutureValue(goal.initialPrincipal, goal.monthlyContribution, requiredReturn.value, goal.horizonMonths)
  {
    UpperSystemMeaning(assets, goal, eps, requiredReturn, x);
    DotCommutes(x, Returns(assets));
    FutureValueMonotoneInRate(goal.initialPrincipal, goal.monthlyContribution, requiredReturn.value,
                              Dot(x, Returns(assets)), goal.horizonMonths);
  }

  // ----- building the program and the result ----------------------------

  /** Appends the constraint rows as optimize_portfolio does, row by row. */
  method BuildUpperRows(assets: seq<Asset>, goal: GoalInput, eps: real, requiredReturn: Option<real>)
    returns (rows: seq<Row>)
    ensures rows == UpperRows(assets, goal, eps, requiredReturn)
  {
    var n := |assets|;
    var t := goal.HorizonYears();
    var c := goal.monthlyContribution;
    var durations := Durations(assets);
    rows := [Row(durations, t + eps)];
    rows := rows + [Row(Neg(durations), -(t - eps))];
    if requiredReturn.Some? {
      rows := rows + [Row(Neg(Returns(assets)), -requiredReturn.value)];
    }
    rows := AppendCapRows(rows, assets, YouthSavings, c, YouthSavingsMonthlyLimit);
    rows := AppendCapRows(rows, assets, IsaDeposit, 12.0 * c, IsaAnnualLimit);
  }

  /** One cap loop: a row with `coeff` at index i for each asset i of class `cls`. */
  method AppendCapRows(head: seq<Row>, assets: seq<Asset>, cls: AssetClass, coeff: real, limit: real)
    returns (rows: seq<Row>)
    ensures rows == head + CapRows(assets, cls, coeff, limit, |assets|)
  {
    var n := |assets|;
    rows := head;
    for i := 0 to n
      invariant rows == head + CapRows(assets, cls, coeff, limit, i)
    {
      if assets[i].assetClass == cls {
        var row := seq(n, j => 0.0);
        row := row[i := coeff];
        assert row == Unit(n, i, coeff);
        rows := rows + [Row(row, limit)];
      }
    }
  }

  /** The filtered allocation loop. */
  method BuildAllocations(assets: seq<Asset>, rates: seq<real>, weights: seq<real>, c: real)
    returns (items: seq<AllocationItem>)
    requires |assets| == |rates| == |weights|
    ensures items == Allocations(assets, rates, weights, c, |assets|)
  {
    items := [];
    for i := 0 to |assets|
      invariant items == Allocations(assets, rates, weights, c, i)
    {
      var w := weights[i];
      if w < NoiseThreshold {
        continue;
      }
      items := items + [Entry(assets[i], rates[i], w, c)];
    }
  }

  /**
   * The result optimize_portfolio gives for solved weights w: the filtered
   * allocations, the rounded portfolio duration and return, and either the
   * expected future value with success or the failed duration check.
   */
  predicate SolvedResult(res: OptimizationResult, assets: seq<Asset>, goal: GoalInput, eps: real, w: seq<real>)
    requires |w| == |assets|
  {
    var duration := Dot(w, Durations(assets));
    var ret := Dot(w, Returns(assets));
    && res.allocations == Allocations(assets, Returns(assets), w, goal.monthlyContribution, |assets|)
    && res.portfolioDuration == Round(duration, 4)
    && res.portfolioReturn == Round(ret, 6)
    && (res.success <==> PassesDurationCheck(w, Durations(assets), goal.HorizonYears(), eps))
    && (res.success ==>
          res.expectedFutureValue == Round(FutureValue(goal.initialPrincipal, goal.monthlyContribution, ret, goal.horizonMonths), 0)
          && res.message == Completed)
    && (!res.success ==>
          res.expectedFutureValue == 0.0 && res.message == DurationCheckFailed(Abs(duration - goal.HorizonYears()), eps))
  }

  /** Post-processing of the solver's weights. */
  method ShapeSolution(assets: seq<Asset>, goal: GoalInput, eps: real, weights: seq<real>)
    returns (res: OptimizationResult)
    requires |weights| == |assets|
    ensures SolvedResult(res, assets, goal, eps, weights)
  {
    var t := goal.HorizonYears();
    var c := goal.monthlyContribution;
    var rates := Returns(assets);
    var durations := Durations(assets);
    var allocations := BuildAllocations(assets, rates, weights, c);
    var portfolioDuration := Dot(weights, durations);
    var portfolioReturn := Dot(weights, rates);
    var durationGap := Abs(portfolioDuration - t);
    if durationGap > eps + 0.01 {
      return OptimizationResult(false, allocations, Round(portfolioDuration, 4), Round(portfolioReturn, 6), 0.0,
                                DurationCheckFailed(durationGap, eps));
    }
    var expectedFv := FutureValue(goal.initialPrincipal, c, portfolioReturn, goal.horizonMonths);
    return OptimizationResult(true, allocations, Round(portfolioDuration, 4), Round(portfolioReturn, 6),
                              Round(expectedFv, 0), Completed);
  }

  /**
   * What a solved result promises when the weights are feasible: it passed
   * the post-solve check, its kept rounded weights sum to one within the
   * rounding error, every entry is a valid allocation, every youth entry
   * stays within the monthly limit, and the reported return meets the
   * required one up to its rounding.
   */
  predicate SolutionAccepted(res: OptimizationResult, n: nat, requiredReturn: Option<real>)
  {
    && res.success
    && Abs(WeightTotal(res.allocations) - 1.0) <= n as real * 0.000051
    && (forall j :: 0 <= j < |res.allocations| ==> res.allocations[j].Valid())
    && (forall j :: 0 <= j < |res.allocations| ==>
          (res.allocations[j].assetClass == YouthSavings ==> res.allocations[j].monthlyAmount <= YouthSavingsMonthlyLimit))
    && (requiredReturn.Some? ==> res.portfolioReturn >= requiredReturn.value - 0.0000005)
  }

  /** A feasible weight vector is always accepted. */
  lemma FeasibleSolutionAccepted(res: OptimizationResult, assets: seq<Asset>, goal: GoalInput, eps: real,
                                 requiredReturn: Option<real>, w: seq<real>)
    requires goal.Valid() && |w| == |assets|
    requires Feasible(Program(assets, goal, eps, requiredReturn), w)
    requires SolvedResult(res, assets, goal, eps, w)
    ensures SolutionAccepted(res, |assets|, requiredReturn)
  {
    FeasibleAllocations(assets, goal, eps, requiredReturn, w);
    assert SatisfiesUpper(BandRows(Durations(assets), goal.HorizonYears(), eps), w) by {
      UpperRowsSplit(assets, goal, eps, requiredReturn, w);
    }
    FeasiblePassesDurationCheck(assets, goal, eps, w);
    if requiredReturn.Some? {
      var rates := Returns(assets);
      FeasibleWeights(assets, goal, eps, requiredReturn, w);
      UpperSystemMeaning(assets, goal, eps, requiredReturn, w);
      DotCommutes(w, rates);
      RoundSixError(Dot(w, rates));
    }
  }

  /** The allocation list built from a feasible point: its weights sum to one, its entries are valid, youth entries within the cap. */
  lemma FeasibleAllocations(assets: seq<Asset>, goal: GoalInput, eps: real, requiredReturn: Option<real>, w: seq<real>)
    requires goal.Valid() && |w| == |assets|
    requires Feasible(Program(assets, goal, eps, requiredReturn), w)
    ensures var items := Allocations(assets, Returns(assets), w, goal.monthlyContribution, |assets|);
      && Abs(WeightTotal(items) - 1.0) <= |assets| as real * 0.000051
      && (forall j :: 0 <= j < |items| ==> items[j].Valid())
      && (forall j :: 0 <= j < |items| ==>
            (items[j].assetClass == YouthSavings ==> items[j].monthlyAmount <= YouthSavingsMonthlyLimit))
  {
    var c := goal.monthlyContribution;
    var rates := Returns(assets);
    FeasibleWeights(assets, goal, eps, requiredReturn, w);
    UpperSystemMeaning(assets, goal, eps, requiredReturn, w);
    WeightsSumNearOne(assets, rates, w, c);
    AllocationsValid(assets, rates, w, c, |assets|);
    AllocationsWithinYouthCap(assets, rates, w, c, |assets|);
  }

  lemma RoundSixError(v: real)
    ensures Abs(Round(v, 6) - v) <= 0.0000005
  {
    RoundError(v, 6);
    assert Pow10(6) == 1000000.0;
  }

  /**
   * optimize_portfolio: builds the program, calls the solver and shapes
   * its answer. `solve` is linprog: None when it reports failure,
   * otherwise the weight vector it found.
   */
  method OptimizePortfolio(assets: seq<Asset>, goal: GoalInput, requiredReturn: Option<real>, epsilon: Option<real>,
                           solve: LinearProgram -> Option<seq<real>>)
    returns (res: OptimizationResult)
    requires goal.Valid()
    requires forall lp :: solve(lp).Some? ==> |solve(lp).value| == |lp.objective| && Feasible(lp, solve(lp).value)
    ensures |assets| == 0 ==> res == OptimizationResult(false, [], 0.0, 0.0, 0.0, NoAssets)
    ensures |assets| > 0 && solve(Program(assets, goal, Epsilon(epsilon), requiredReturn)).None? ==>
      res == OptimizationResult(false, [], 0.0, 0.0, 0.0,
        Infeasible(Diagnosis(Returns(assets), Durations(assets), goal.HorizonYears(), Epsilon(epsilon), requiredReturn)))
    ensures |assets| > 0 && solve(Program(assets, goal, Epsilon(epsilon), requiredReturn)).Some? ==>
      SolvedResult(res, assets, goal, Epsilon(epsilon), solve(Program(assets, goal, Epsilon(epsilon), requiredReturn)).value)
    ensures |assets| > 0 && solve(Program(assets, goal, Epsilon(epsilon), requiredReturn)).Some? ==>
      SolutionAccepted(res, |assets|, requiredReturn)
  {
    var eps := if epsilon.None? then DurationEpsilon else epsilon.value;
    var n := |assets|;
    if n == 0 {
      return OptimizationResult(false, [], 0.0, 0.0, 0.0, NoAssets);
    }
    var objective := Neg(Returns(assets));
    var upper := BuildUpperRows(assets, goal, eps, requiredReturn);
    var lp := LinearProgram(objective, upper, [Row(Ones(n), 1.0)], seq(n, i => 0.0), seq(n, i => 1.0));
    assert lp == Program(assets, goal, eps, requiredReturn);
    var result := solve(lp);
    if result.None? {
      var reasons := DiagnoseInfeasibility(Returns(assets), Durations(assets), goal.HorizonYears(), eps, requiredReturn);
      return OptimizationResult(false, [], 0.0, 0.0, 0.0, Infeasible(reasons));
    }
    res := ShapeSolution(assets, goal, eps, result.value);
    FeasibleSolutionAccepted(res, assets, goal, eps, requiredReturn, result.value);
  }
}
