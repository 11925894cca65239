/**
 * The request and response records of app/models/: goals, assets,
 * gap-analysis, optimisation and simulation results. Pydantic field
 * bounds (gt, ge, le) become the Valid predicates below.
 */
module Models {
  import opened Common

  /** Tax treatment of an asset's interest (TaxBenefit.NONE, TAX_FREE, SEPARATE_TAX). */
  datatype TaxBenefit = NoBenefit | TaxFree | SeparateTax

  /** The instrument categories of the universe. */
  datatype AssetClass = Parking | YouthSavings | IsaDeposit | TimeDeposit | BondEtf3Y | BondEtf10Y

  datatype Asset = Asset(
    name: string,
    assetClass: AssetClass,
    grossReturn: real,
    duration: real,
    taxBenefit: TaxBenefit,
    monthlyLimit: Option<real>,
    annualLimit: Option<real>)
  {
    /** duration: ge=0 */
    predicate Valid() { duration >= 0.0 }
  }

  datatype GoalInput = GoalInput(
    goalAmount: real,
    horizonMonths: nat,
    monthlyContribution: real,
    initialPrincipal: real,
    eligibleYouthSavings: bool)
  {
    /** goal_amount gt=0, time_horizon_months gt=0, monthly_contribution gt=0, initial_principal ge=0 */
    predicate Valid() {
      goalAmount > 0.0 && horizonMonths > 0 && monthlyContribution > 0.0 && initialPrincipal >= 0.0
    }

    /** The horizon in years, T = months / 12. */
    function HorizonYears(): real { horizonMonths as real / 12.0 }
  }

  datatype GapAnalysisResult = GapAnalysisResult(
    futureValueSafe: real,
    goalAmount: real,
    gap: real,
    optimizationNeeded: bool,
    requiredAnnualReturn: Option<real>)

  datatype AllocationItem = AllocationItem(
    assetClass: AssetClass,
    name: string,
    weight: real,
    monthlyAmount: real,
    durationContribution: real,
    afterTaxReturn: real)
  {
    /** weight: ge=0, le=1; monthly_amount: ge=0 */
    predicate Valid() { 0.0 <= weight <= 1.0 && monthlyAmount >= 0.0 }
  }

  /** One reason the optimiser's diagnosis can give for an infeasible program. */
  datatype Reason =
    | MaxDurationTooShort(maxDuration: real, targetLow: real)
    | MinDurationTooLong(minDuration: real, targetHigh: real)
    | ReturnTooLow(maxReturn: real, requiredReturn: real)
    | JointlyInfeasible

  /**
   * The result message of an optimisation. Infeasible(reasons) stands for
   * "최적화 실패: " followed by the reasons' texts joined by spaces.
   */
  datatype OptMessage =
    | NoAssets
    | Infeasible(reasons: seq<Reason>)
    | DurationCheckFailed(gap: real, epsilon: real)
    | Completed

  datatype OptimizationResult = OptimizationResult(
    success: bool,
    allocations: seq<AllocationItem>,
    portfolioDuration: real,
    portfolioReturn: real,
    expectedFutureValue: real,
    message: OptMessage)

  /** A named rate shift; `title` is the source's `label` (a Dafny keyword). */
  datatype RateScenario = RateScenario(title: string, rateShift: real)

  datatype ScenarioResult = ScenarioResult(
    title: string,
    rateShift: real,
    newRate: real,
    simpleSavingsFv: real,
    portfolioFv: real,
    difference: real)

  datatype SimulationResponse = SimulationResponse(baseRate: real, results: seq<ScenarioResult>)
}
