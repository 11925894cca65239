/** The configured defaults of app/config.py, taken as fixed values. */
module Config {

  /** Baseline safe (deposit) rate: 3.5% a year. */
  const BaseInterestRate: real := 0.035

  /** Allowed gap between portfolio duration and horizon, in years. */
  const DurationEpsilon: real := 0.5

  /** Ordinary interest-income tax rate, 15.4%. */
  const InterestIncomeTaxRate: real := 0.154

  /** Separate (ISA) tax rate, 9.9%. */
  const IsaSeparateTaxRate: real := 0.099

  /** Youth savings account: monthly deposit cap in won. */
  const YouthSavingsMonthlyLimit: real := 700000.0

  /** Youth savings account: government contribution rate. */
  const YouthSavingsGovContributionRate: real := 0.06

  /** ISA: annual deposit cap in won. */
  const IsaAnnualLimit: real := 20000000.0
}
