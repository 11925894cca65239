/**
 * The rate-shift simulation of app/services/simulator.py: for each
 * scenario, a plain savings account at the shifted base rate against the
 * optimised portfolio with every asset's rate shifted and its future value
 * scaled by an immunization factor.
 */
module Simulator {
  import opened Common
  import opened Config
  import opened Numeric
  import opened Models
  import opened Tax
  import opened GapAnalyzer

  /**
   * The four scenarios used when none are given: two falls, no change and a
   * rise, from the lowest shift to the highest, none beyond 1.5 points.
   */
  function DefaultScenarios(): (s: seq<RateScenario>)
    ensures |s| == 4
    ensures forall i, j :: 0 <= i < j < |s| ==> s[i].rateShift < s[j].rateShift
    ensures s[0].rateShift < 0.0 && s[1].rateShift < 0.0 && s[2].rateShift == 0.0 && s[3].rateShift > 0.0
    ensures forall i :: 0 <= i < |s| ==> Abs(s[i].rateShift) <= 0.015
  {
    [
      RateScenario("금리 급락 (-1.5%)", -0.015),
      RateScenario("금리 소폭 하락 (-0.5%)", -0.005),
      RateScenario("금리 변동 없음", 0.0),
      RateScenario("금리 상승 (+1.0%)", 0.01)
    ]
  }

  /** 1 - |D - T| |shift| / 2, clamped to [0.8, 1.2]; the upper clamp never binds. */
  function ImmunizationFactor(duration: real, horizonYears: real, shift: real): (f: real)
    ensures 0.8 <= f <= 1.0
  {
    MulLe(0.0, Abs(duration - horizonYears), Abs(shift));
    Max(0.8, Min(1.2, 1.0 - Abs(duration - horizonYears) * Abs(shift) * 0.5))
  }

  /**
   * The factor never exceeds 1, since the subtracted term is not negative,
   * and never falls below the 0.8 floor; it is exactly 1 when there is no
   * shift or the duration matches the horizon.
   */
  lemma ImmunizationFactorRange(duration: real, horizonYears: real, shift: real)
    ensures 0.8 <= ImmunizationFactor(duration, horizonYears, shift) <= 1.0
    ensures shift == 0.0 || duration == horizonYears ==> ImmunizationFactor(duration, horizonYears, shift) == 1.0
  {
    MulLe(0.0, Abs(duration - horizonYears), Abs(shift));
  }

  /** The after-tax rate of an asset under a shift: the shifted gross floored at 0, then taxed. */
  function ShiftedRate(asset: Asset, shift: real): (r: real)
    ensures 0.0 <= r <= Max(asset.grossReturn + shift, 0.0)
  {
    AfterTaxReturn(Max(asset.grossReturn + shift, 0.0), asset.taxBenefit)
  }

  /** The dictionary {a.asset_class: a for a in assets}: a later asset of a class replaces an earlier one. */
  function AssetMap(assets: seq<Asset>): map<AssetClass, Asset>
  {
    if |assets| == 0 then map[]
    else AssetMap(assets[..|assets| - 1])[assets[|assets| - 1].assetClass := assets[|assets| - 1]]
  }

  /**
   * A class is in the map exactly when some asset has it, and it maps to
   * the last asset of that class.
   */
  lemma {:induction false} AssetMapLookup(assets: seq<Asset>, cls: AssetClass)
    ensures cls in AssetMap(assets) <==> exists i :: 0 <= i < |assets| && assets[i].assetClass == cls
    ensures cls in AssetMap(assets) ==>
      exists i :: 0 <= i < |assets| && assets[i].assetClass == cls && AssetMap(assets)[cls] == assets[i]
                  && forall j :: i < j < |assets| ==> assets[j].assetClass != cls
  {
    if |assets| > 0 {
      var init := assets[..|assets| - 1];
      AssetMapLookup(init, cls);
      assert forall i :: 0 <= i < |init| ==> init[i] == assets[i];
      if cls in AssetMap(init) && assets[|assets| - 1].assetClass != cls {
        var i :| 0 <= i < |init| && init[i].assetClass == cls && AssetMap(init)[cls] == init[i]
                 && forall j :: i < j < |init| ==> init[j].assetClass != cls;
        assert AssetMap(assets)[cls] == assets[i];
      }
    }
  }

  /** What one allocation adds to the portfolio leg; nothing when its class is not in the universe. */
  function Contribution(goal: GoalInput, alloc: AllocationItem, assetMap: map<AssetClass, Asset>, shift: real): real
  {
    if alloc.assetClass !in assetMap then 0.0
    else
      var asset := assetMap[alloc.assetClass];
      FutureValue(alloc.weight * goal.initialPrincipal, alloc.monthlyAmount, ShiftedRate(asset, shift), goal.horizonMonths)
        * ImmunizationFactor(asset.duration, goal.HorizonYears(), shift)
  }

  /** The same without the immunization factor: each asset's plain shifted future value. */
  function RawContribution(goal: GoalInput, alloc: AllocationItem, assetMap: map<AssetClass, Asset>, shift: real): real
  {
    if alloc.assetClass !in assetMap then 0.0
    else
      FutureValue(alloc.weight * goal.initialPrincipal, alloc.monthlyAmount,
                  ShiftedRate(assetMap[alloc.assetClass], shift), goal.horizonMonths)
  }

  /** The portfolio leg: the contributions of the allocations, accumulated in order. */
  function ShiftedPortfolioFv(goal: GoalInput, allocations: seq<AllocationItem>, assetMap: map<AssetClass, Asset>, shift: real): real
  {
    if |allocations| == 0 then 0.0
    else ShiftedPortfolioFv(goal, allocations[..|allocations| - 1], assetMap, shift)
         + Contribution(goal, allocations[|allocations| - 1], assetMap, shift)
  }

  function RawPortfolioFv(goal: GoalInput, allocations: seq<AllocationItem>, assetMap: map<AssetClass, Asset>, shift: real): real
  {
    if |allocations| == 0 then 0.0
    else RawPortfolioFv(goal, allocations[..|allocations| - 1], assetMap, shift)
         + RawContribution(goal, allocations[|allocations| - 1], assetMap, shift)
  }

  /** Allocations whose class the universe lacks add nothing; an empty list gives 0. */
  lemma {:induction false} UnknownClassesContributeNothing(goal: GoalInput, allocations: seq<AllocationItem>,
                                                           assetMap: map<AssetClass, Asset>, shift: real)
    requires forall k :: 0 <= k < |allocations| ==> allocations[k].assetClass !in assetMap
    ensures ShiftedPortfolioFv(goal, allocations, assetMap, shift) == 0.0
  {
    if |allocations| > 0 {
      UnknownClassesContributeNothing(goal, allocations[..|allocations| - 1], assetMap, shift);
    }
  }

  /** With valid allocations the shifted future value of each asset is at least what was paid in. */
  lemma RawContributionAtLeastPaidIn(goal: GoalInput, alloc: AllocationItem, assetMap: map<AssetClass, Asset>, shift: real)
    requires goal.Valid() && alloc.Valid() && alloc.assetClass in assetMap
    ensures RawContribution(goal, alloc, assetMap, shift)
         >= alloc.weight * goal.initialPrincipal + alloc.monthlyAmount * goal.horizonMonths as real
    ensures alloc.weight * goal.initialPrincipal + alloc.monthlyAmount * goal.horizonMonths as real >= 0.0
  {
    MulLe(0.0, alloc.weight, goal.initialPrincipal);
    FutureValueAtLeastSimple(alloc.weight * goal.initialPrincipal, alloc.monthlyAmount,
                             ShiftedRate(assetMap[alloc.assetClass], shift), goal.horizonMonths);
  }

  /** One allocation's contribution is between 80% and 100% of its plain shifted future value. */
  lemma ContributionDiscount(goal: GoalInput, alloc: AllocationItem, assetMap: map<AssetClass, Asset>, shift: real)
    requires goal.Valid() && alloc.Valid()
    ensures 0.8 * RawContribution(goal, alloc, assetMap, shift) <= Contribution(goal, alloc, assetMap, shift)
         <= RawContribution(goal, alloc, assetMap, shift)
    ensures RawContribution(goal, alloc, assetMap, shift) >= 0.0
  {
    if alloc.assetClass in assetMap {
      var asset := assetMap[alloc.assetClass];
      var raw := RawContribution(goal, alloc, assetMap, shift);
      var f := ImmunizationFactor(asset.duration, goal.HorizonYears(), shift);
      assert Contribution(goal, alloc, assetMap, shift) == raw * f;
      RawContributionAtLeastPaidIn(goal, alloc, assetMap, shift);
      ImmunizationFactorRange(asset.duration, goal.HorizonYears(), shift);
      ScaledBetween(raw, f);
    }
  }

  lemma ScaledBetween(raw: real, f: real)
    requires raw >= 0.0 && 0.8 <= f <= 1.0
    ensures 0.8 * raw <= raw * f <= raw
  {
    MulLe(0.8, f, raw);
    MulLe(f, 1.0, raw);
  }

  /**
   * The immunization factor only ever discounts: the portfolio leg lies
   * between 80% and 100% of the plain shifted future value, and is
   * therefore never negative.
   */
  lemma {:induction false} ImmunizationDiscount(goal: GoalInput, allocations: seq<AllocationItem>,
                                                assetMap: map<AssetClass, Asset>, shift: real)
    requires goal.Valid() && forall k :: 0 <= k < |allocations| ==> allocations[k].Valid()
    ensures 0.8 * RawPortfolioFv(goal, allocations, assetMap, shift)
         <= ShiftedPortfolioFv(goal, allocations, assetMap, shift)
         <= RawPortfolioFv(goal, allocations, assetMap, shift)
    ensures ShiftedPortfolioFv(goal, allocations, assetMap, shift) >= 0.0
  {
    if |allocations| > 0 {
      var init := allocations[..|allocations| - 1];
      var alloc := allocations[|allocations| - 1];
      ImmunizationDiscount(goal, init, assetMap, shift);
      ContributionDiscount(goal, alloc, assetMap, shift);
    }
  }

  /** The dictionary comprehension as a loop. */
  method BuildAssetMap(assets: seq<Asset>) returns (assetMap: map<AssetClass, Asset>)
    ensures assetMap == AssetMap(assets)
  {
    assetMap := map[];
    for i := 0 to |assets|
      invariant assetMap == AssetMap(assets[..i])
    {
      assert assets[..i + 1][..i] == assets[..i];
      assetMap := assetMap[assets[i].assetClass := assets[i]];
    }
    assert assets[..|assets|] == assets;
  }

  /** One pass of the allocation loop: the shifted, taxed, compounded and immunized value of an asset. */
  method AssetLeg(goal: GoalInput, alloc: AllocationItem, asset: Asset, shift: real) returns (value: real)
    ensures value == Contribution(goal, alloc, map[alloc.assetClass := asset], shift)
  {
    var shiftedAfterTax := AfterTaxReturn(Max(asset.grossReturn + shift, 0.0), asset.taxBenefit);
    assert shiftedAfterTax == ShiftedRate(asset, shift);
    var monthlyAmount := alloc.monthlyAmount;
    var weightPrincipal := alloc.weight * goal.initialPrincipal;
    var assetFv := FutureValue(weightPrincipal, monthlyAmount, shiftedAfterTax, goal.horizonMonths);
    var tYears := goal.horizonMonths as real / 12.0;
    var durationGap := asset.duration - tYears;
    var factor := 1.0 - Abs(durationGap) * Abs(shift) * 0.5;
    factor := Max(0.8, Min(1.2, factor));
    assert factor == ImmunizationFactor(asset.duration, goal.HorizonYears(), shift);
    value := assetFv * factor;
  }

  /** _portfolio_fv_under_shift: builds the class map, then accumulates the allocations' contributions. */
  method PortfolioFvUnderShift(goal: GoalInput, portfolio: OptimizationResult, assets: seq<Asset>, shift: real)
    returns (total: real)
    ensures total == ShiftedPortfolioFv(goal, portfolio.allocations, AssetMap(assets), shift)
  {
    var assetMap := BuildAssetMap(assets);
    var allocations := portfolio.allocations;
    total := 0.0;
    for i := 0 to |allocations|
      invariant total == ShiftedPortfolioFv(goal, allocations[..i], assetMap, shift)
    {
      assert allocations[..i + 1][..i] == allocations[..i];
      var alloc := allocations[i];
      if alloc.assetClass !in assetMap {
        continue;
      }
      var value := AssetLeg(goal, alloc, assetMap[alloc.assetClass], shift);
      ContributionOfEntry(goal, alloc, assetMap, shift);
      total := total + value;
    }
    assert allocations[..|allocations|] == allocations;
  }

  /** A contribution only looks at the entry of its own class. */
  lemma ContributionOfEntry(goal: GoalInput, alloc: AllocationItem, assetMap: map<AssetClass, Asset>, shift: real)
    requires alloc.assetClass in assetMap
    ensures Contribution(goal, alloc, assetMap, shift)
         == Contribution(goal, alloc, map[alloc.assetClass := assetMap[alloc.assetClass]], shift)
  {
  }

  /** The plain savings leg: the new rate taxed at 15.4%, with no floor at zero. */
  function SimpleSavingsFv(goal: GoalInput, newRate: real): (fv: real)
    ensures newRate == 0.0 ==> fv == goal.initialPrincipal + goal.monthlyContribution * goal.horizonMonths as real
  {
    FutureValue(goal.initialPrincipal, goal.monthlyContribution, newRate * (1.0 - InterestIncomeTaxRate), goal.horizonMonths)
  }

  /**
   * Because the baseline rate is not floored, a negative new rate leaves
   * the plain savings below what was paid in, and a positive one above it.
   */
  lemma SimpleSavingsAgainstPaidIn(goal: GoalInput, newRate: real)
    requires goal.Valid() && goal.horizonMonths >= 2 && -1.0 < newRate
    ensures newRate < 0.0 ==>
      SimpleSavingsFv(goal, newRate) < goal.initialPrincipal + goal.monthlyContribution * goal.horizonMonths as real
    ensures newRate > 0.0 ==>
      SimpleSavingsFv(goal, newRate) > goal.initialPrincipal + goal.monthlyContribution * goal.horizonMonths as real
  {
    var rate := newRate * (1.0 - InterestIncomeTaxRate);
    if newRate < 0.0 {
      FutureValueBelowSimple(goal.initialPrincipal, goal.monthlyContribution, rate, goal.horizonMonths);
    } else if newRate > 0.0 {
      FutureValueAboveSimple(goal.initialPrincipal, goal.monthlyContribution, rate, goal.horizonMonths);
    }
  }

  /** The result of one scenario, as simulate_scenarios builds it. */
  function ScenarioOutcome(goal: GoalInput, portfolio: OptimizationResult, assets: seq<Asset>, baseRate: real,
                           scenario: RateScenario): ScenarioResult
  {
    var newRate := baseRate + scenario.rateShift;
    var simple := SimpleSavingsFv(goal, newRate);
    var shifted := ShiftedPortfolioFv(goal, portfolio.allocations, AssetMap(assets), scenario.rateShift);
    ScenarioResult(scenario.title, scenario.rateShift, Round(newRate, 4), Round(simple, 0), Round(shifted, 0),
                   Round(shifted - simple, 0))
  }

  /**
   * A scenario result carries its scenario's label and shift, and each
   * figure is within half a unit of its last kept digit of the exact value:
   * the new rate, the plain savings, the portfolio and their difference.
   */
  lemma ScenarioOutcomeBounds(goal: GoalInput, portfolio: OptimizationResult, assets: seq<Asset>, baseRate: real,
                              scenario: RateScenario)
    ensures var r := ScenarioOutcome(goal, portfolio, assets, baseRate, scenario);
      && r.title == scenario.title && r.rateShift == scenario.rateShift
      && Abs(r.newRate - (baseRate + scenario.rateShift)) <= 0.5 / Pow10(4)
    ensures var r := ScenarioOutcome(goal, portfolio, assets, baseRate, scenario);
      var simple := SimpleSavingsFv(goal, baseRate + scenario.rateShift);
      var shifted := ShiftedPortfolioFv(goal, portfolio.allocations, AssetMap(assets), scenario.rateShift);
      && Abs(r.simpleSavingsFv - simple) <= 0.5
      && Abs(r.portfolioFv - shifted) <= 0.5
      && Abs(r.difference - (shifted - simple)) <= 0.5
  {
    var simple := SimpleSavingsFv(goal, baseRate + scenario.rateShift);
    var shifted := ShiftedPortfolioFv(goal, portfolio.allocations, AssetMap(assets), scenario.rateShift);
    RoundZeroDigits(simple);
    RoundZeroDigits(shifted);
    RoundZeroDigits(shifted - simple);
  }

  /** One pass of the scenario loop. */
  method RunScenario(goal: GoalInput, portfolio: OptimizationResult, assets: seq<Asset>, baseRate: real,
                     scenario: RateScenario) returns (result: ScenarioResult)
    ensures result == ScenarioOutcome(goal, portfolio, assets, baseRate, scenario)
  {
    var newRate := baseRate + scenario.rateShift;
    var safeAfterTax := newRate * (1.0 - InterestIncomeTaxRate);
    var simpleFv := FutureValue(goal.initialPrincipal, goal.monthlyContribution, safeAfterTax, goal.horizonMonths);
    assert simpleFv == SimpleSavingsFv(goal, newRate);
    var portfolioFv := PortfolioFvUnderShift(goal, portfolio, assets, scenario.rateShift);
    result := ScenarioResult(scenario.title, scenario.rateShift, Round(newRate, 4), Round(simpleFv, 0),
                             Round(portfolioFv, 0), Round(portfolioFv - simpleFv, 0));
  }

  /** The results of a list of scenarios, in the scenarios' order. */
  function ScenarioOutcomes(goal: GoalInput, portfolio: OptimizationResult, assets: seq<Asset>, baseRate: real,
                            scenarios: seq<RateScenario>): seq<ScenarioResult>
  {
    if |scenarios| == 0 then []
    else ScenarioOutcomes(goal, portfolio, assets, baseRate, scenarios[..|scenarios| - 1])
         + [ScenarioOutcome(goal, portfolio, assets, baseRate, scenarios[|scenarios| - 1])]
  }

  lemma ScenarioOutcomesStep(goal: GoalInput, portfolio: OptimizationResult, assets: seq<Asset>, baseRate: real,
                             scenarios: seq<RateScenario>, i: nat)
    requires i < |scenarios|
    ensures ScenarioOutcomes(goal, portfolio, assets, baseRate, scenarios[..i + 1])
         == ScenarioOutcomes(goal, portfolio, assets, baseRate, scenarios[..i])
            + [ScenarioOutcome(goal, portfolio, assets, baseRate, scenarios[i])]
  {
    assert scenarios[..i + 1][..i] == scenarios[..i];
  }

  /** There is one result per scenario, and the i-th result is the i-th scenario's outcome. */
  lemma {:induction false} ScenarioOutcomesIndex(goal: GoalInput, portfolio: OptimizationResult, assets: seq<Asset>,
                                                 baseRate: real, scenarios: seq<RateScenario>)
    ensures |ScenarioOutcomes(goal, portfolio, assets, baseRate, scenarios)| == |scenarios|
    ensures forall i :: 0 <= i < |scenarios| ==>
      ScenarioOutcomes(goal, portfolio, assets, baseRate, scenarios)[i] == ScenarioOutcome(goal, portfolio, assets, baseRate, scenarios[i])
  {
    if |scenarios| > 0 {
      var init := scenarios[..|scenarios| - 1];
      ScenarioOutcomesIndex(goal, portfolio, assets, baseRate, init);
      assert forall i :: 0 <= i < |init| ==> init[i] == scenarios[i];
    }
  }

  /** simulate_scenarios: one result per scenario, in order. */
  method SimulateScenarios(goal: GoalInput, portfolio: OptimizationResult, assets: seq<Asset>,
                           baseRate: Option<real>, scenarios: Option<seq<RateScenario>>)
    returns (response: SimulationResponse)
    ensures response.baseRate == (if baseRate.None? then BaseInterestRate else baseRate.value)
    ensures response.results == ScenarioOutcomes(goal, portfolio, assets, response.baseRate,
                                                 if scenarios.None? then DefaultScenarios() else scenarios.value)
  {
    var rate := if baseRate.None? then BaseInterestRate else baseRate.value;
    var used := if scenarios.None? then DefaultScenarios() else scenarios.value;
    var results: seq<ScenarioResult> := [];
    for i := 0 to |used|
      invariant results == ScenarioOutcomes(goal, portfolio, assets, rate, used[..i])
    {
      var result := RunScenario(goal, portfolio, assets, rate, used[i]);
      ScenarioOutcomesStep(goal, portfolio, assets, rate, used, i);
      results := results + [result];
    }
    assert used[..|used|] == used;
    return SimulationResponse(rate, results);
  }
}
