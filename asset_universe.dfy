/**
 * The default asset universe of app/services/asset_universe.py: five
 * products open to a first-time saver, and the youth savings account
 * inserted second when the saver is eligible for it.
 */
module AssetUniverse {
  import opened Common
  import opened Config
  import opened Models

  const Parking := Asset("파킹통장/CMA", AssetClass.Parking, 0.030, 0.0, NoBenefit, None, None)
  const IsaAccount := Asset("ISA 내 예금", IsaDeposit, 0.035, 1.0, SeparateTax, None, Some(IsaAnnualLimit))
  const TimeDepositOneYear := Asset("정기예금 (1년)", TimeDeposit, 0.033, 1.0, NoBenefit, None, None)
  const TreasuryEtf3Y := Asset("KODEX 국고채 3년 ETF", BondEtf3Y, 0.038, 2.7, NoBenefit, None, None)
  const TreasuryEtf10Y := Asset("KODEX 국고채 10년 ETF", BondEtf10Y, 0.042, 7.8, NoBenefit, None, None)

  /** The youth savings account: 6% plus the government's matching contribution, tax free, capped monthly. */
  const YouthAccount := Asset("청년도약저축", YouthSavings, 0.06 + YouthSavingsGovContributionRate, 2.5, TaxFree,
                              Some(YouthSavingsMonthlyLimit), None)

  /** The five assets offered to everyone, in the order they are listed. */
  const BaseUniverse := [Parking, IsaAccount, TimeDepositOneYear, TreasuryEtf3Y, TreasuryEtf10Y]

  /** The asset classes of a universe, in order. */
  function Classes(assets: seq<Asset>): (classes: seq<AssetClass>)
    ensures |classes| == |assets| && forall i :: 0 <= i < |assets| ==> classes[i] == assets[i].assetClass
  {
    seq(|assets|, i requires 0 <= i < |assets| => assets[i].assetClass)
  }

  /**
   * get_default_universe: the five assets in a fixed order, with the youth
   * savings account inserted at index 1 when the saver is eligible.
   */
  method DefaultUniverse(eligibleYouthSavings: bool) returns (assets: seq<Asset>)
    ensures !eligibleYouthSavings ==>
      Classes(assets) == [AssetClass.Parking, IsaDeposit, TimeDeposit, BondEtf3Y, BondEtf10Y]
    ensures eligibleYouthSavings ==>
      Classes(assets) == [AssetClass.Parking, YouthSavings, IsaDeposit, TimeDeposit, BondEtf3Y, BondEtf10Y]
    ensures !eligibleYouthSavings ==> assets == BaseUniverse
    ensures eligibleYouthSavings ==> assets[1] == YouthAccount && assets[..1] + assets[2..] == BaseUniverse
    ensures eligibleYouthSavings ==>
      && assets[1].grossReturn == 0.12 && assets[1].duration == 2.5 && assets[1].taxBenefit == TaxFree
      && assets[1].monthlyLimit == Some(700000.0)
    ensures forall i, j :: 0 <= i < j < |assets| ==> assets[i].assetClass != assets[j].assetClass
    ensures forall i :: 0 <= i < |assets| ==> assets[i].Valid() && 0.0 <= assets[i].duration <= 7.8
    ensures forall i :: 0 <= i < |assets| ==> (assets[i].annualLimit.Some? <==> assets[i].assetClass == IsaDeposit)
    ensures forall i :: 0 <= i < |assets| && assets[i].annualLimit.Some? ==> assets[i].annualLimit.value == 20000000.0
    ensures forall i :: 0 <= i < |assets| ==> (assets[i].monthlyLimit.Some? <==> assets[i].assetClass == YouthSavings)
  {
    assets := [Parking, IsaAccount, TimeDepositOneYear, TreasuryEtf3Y, TreasuryEtf10Y];
    if eligibleYouthSavings {
      assets := assets[..1] + [YouthAccount] + assets[1..];
      assert assets == [Parking, YouthAccount, IsaAccount, TimeDepositOneYear, TreasuryEtf3Y, TreasuryEtf10Y];
      assert assets[..1] + assets[2..] == BaseUniverse;
    }
  }
}
