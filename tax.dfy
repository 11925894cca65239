/** app/services/tax.py: gross return to after-tax return. */
module Tax {
  import opened Config
  import opened Models

  /**
   * The after-tax return of a gross return under a tax treatment. Losses
   * and zero are never taxed; a positive return keeps all of itself when
   * tax-free and loses the separate or the ordinary rate otherwise.
   */
  function AfterTaxReturn(gross: real, benefit: TaxBenefit): (r: real)
    ensures gross <= 0.0 ==> r == gross
    ensures gross > 0.0 ==> 0.0 < r <= gross
    ensures gross > 0.0 ==> (r == gross <==> benefit == TaxFree)
  {
    if gross <= 0.0 then gross
    else if benefit == TaxFree then gross
    else if benefit == SeparateTax then gross * (1.0 - IsaSeparateTaxRate)
    else gross * (1.0 - InterestIncomeTaxRate)
  }

  /** The tax each treatment takes from a positive return. */
  function TaxRate(benefit: TaxBenefit): real
  {
    match benefit
    case TaxFree => 0.0
    case SeparateTax => IsaSeparateTaxRate
    case NoBenefit => InterestIncomeTaxRate
  }

  /** A positive return is scaled by one minus its treatment's rate: 0%, 9.9% or 15.4%. */
  lemma AfterTaxOfPositive(gross: real, benefit: TaxBenefit)
    requires gross > 0.0
    ensures AfterTaxReturn(gross, benefit) == gross * (1.0 - TaxRate(benefit))
    ensures benefit == SeparateTax ==> AfterTaxReturn(gross, benefit) == gross * 0.901
    ensures benefit == NoBenefit ==> AfterTaxReturn(gross, benefit) == gross * 0.846
  {
  }

  /** For a positive return, tax-free beats separate tax, which beats ordinary tax. */
  lemma TreatmentOrdering(gross: real)
    requires gross > 0.0
    ensures AfterTaxReturn(gross, TaxFree) > AfterTaxReturn(gross, SeparateTax)
    ensures AfterTaxReturn(gross, SeparateTax) > AfterTaxReturn(gross, NoBenefit)
  {
  }

  /** The after-tax return is strictly increasing in the gross return, for every treatment. */
  lemma AfterTaxIncreasing(g1: real, g2: real, benefit: TaxBenefit)
    requires g1 < g2
    ensures AfterTaxReturn(g1, benefit) < AfterTaxReturn(g2, benefit)
  {
  }
}
