# Goal-based savings advisor — a Dafny model

This project models the decision core of a goal-based investment advisor for first-time savers. Given a savings goal, it does the following:

- **Gap analysis:** it measures the shortfall between the goal and a plain savings account, and searches for the annual return that would close it.
- **Default universe:** it builds the default universe of five (or six) Korean savings products.
- **Portfolio optimisation:** it sets up the linear programme that maximises the after-tax return, subject to three constraints:
  - the portfolio duration matches the horizon, within a tolerance;
  - the portfolio reaches the required return;
  - the product caps hold.

  When the solver fails, it diagnoses why. When the solver succeeds, it turns the weights into an allocation list and checks the duration after the fact.
- **Rate-shift simulation:** it replays the portfolio and the plain savings account under interest-rate shifts.
- **Macaulay duration:** it provides the Macaulay duration of a cash-flow stream.

One Dafny module per service file:

| file | module | models |
|---|---|---|
| `tax.dfy` | `Tax` | after-tax return by tax treatment |
| `gap_analyzer.dfy` | `GapAnalyzer` | monthly-compounding future value, gap analysis, required return |
| `root_finder.dfy` | `RootFinder` | the bracketing root search behind the required return |
| `optimizer.dfy` | `Optimizer` | constraint system, infeasibility diagnosis, post-processing of the weights |
| `simulator.dfy` | `Simulator` | default scenarios, portfolio value under a rate shift, scenario loop |
| `asset_universe.dfy` | `AssetUniverse` | the default product list |
| `duration.dfy` | `Duration` | Macaulay duration |
| `models.dfy` | `Models` | the request and response records and the enumerations |
| `config.dfy` | `Config` | the fixed settings (rates, limits, tolerance) |
| `numeric.dfy` | `Numeric` | powers, geometric sums, dot products, min/max, round-half-to-even |
| `common.dfy` | `Common` | `Option`, `Result`, `Max`, `Min`, `Abs` |

How the model represents the source:

- **Numbers:** floating point is modelled by exact `real`s. Python's `round(x, d)` is modelled as round-half-to-even on exact reals (`Numeric.Round`), and its facts are proved as lemmas.
- **Solvers:** the LP solver is a function parameter `solve` of `Optimizer.OptimizePortfolio`. The required return is found by bisection on the same bracket [0, 1], with the same tolerance, and the same failure rule as the library root finder.
- **Loops:** code that builds lists in loops is written as methods with loops. Each method is proved equal to a specification function, and the properties are proved about those functions.
- **Validation:** the record validations of the request types become `Valid()` predicates used as preconditions.

## Model

| member | source | states |
|---|---|---|
| Tax.AfterTaxReturn | app/services/tax.py:5-21 | A non-positive gross return is returned unchanged (so 0 maps to 0). A positive one gives a result in (0, gross], equal to gross exactly when the treatment is tax free. |
| Tax.AfterTaxOfPositive | app/services/tax.py:17-21 | For a positive gross return the result is gross × (1 − rate): tax free keeps it, separate taxation gives gross × 0.901, the general treatment gives gross × 0.846. |
| Tax.TreatmentOrdering | app/services/tax.py:17-21 | For a positive gross return: tax free > separate taxation > general taxation. |
| Tax.AfterTaxIncreasing | app/services/tax.py:14-21 | The after-tax return is strictly increasing in the gross return, for every treatment. |
| GapAnalyzer.FutureValue | app/services/gap_analyzer.py:8-21 | At a zero rate the value is principal + monthly × months. With zero months it is the principal, whatever the rate. |
| GapAnalyzer.FutureValueSeries | app/services/gap_analyzer.py:16-21 | The closed form P·q^n + C·(q^n − 1)/r_m equals the month-by-month series P·q^n + C·(1 + q + … + q^(n−1)), including at a zero rate. |
| GapAnalyzer.FutureValueMonotoneInRate | app/services/gap_analyzer.py:8-21 | For non-negative principal and contribution and rates above −12, the future value is non-decreasing in the rate. It is strictly increasing when the contribution is positive and there are at least two months. |
| GapAnalyzer.FutureValueAboveSimple | app/services/gap_analyzer.py:8-21 | With a positive contribution, at least two months and a positive rate, the value exceeds principal + contribution × months. |
| GapAnalyzer.FutureValueBelowSimple | app/services/gap_analyzer.py:8-21 | With a positive contribution, at least two months and a rate in (−12, 0), the value is below principal + contribution × months. |
| GapAnalyzer.FutureValueMonotoneInPrincipal | app/services/gap_analyzer.py:8-21 | A larger principal gives a strictly larger future value, for every rate above −12. |
| GapAnalyzer.FutureValueAtLeastSimple | app/services/gap_analyzer.py:8-21 | At a non-negative rate the value is at least the amount paid in, which is non-negative. |
| GapAnalyzer.SafeRate | app/services/gap_analyzer.py:28-29 | Definition (no contract): the caller's safe rate, or the configured 3.5%. |
| GapAnalyzer.FvDiff | app/services/gap_analyzer.py:43-52 | Definition (no contract) of the function searched for the required return: the future value at a trial rate minus the goal. |
| GapAnalyzer.AnalyzeGap | app/services/gap_analyzer.py:24-65 | The safe rate defaults to 3.5%. Within rounding, the result reports the safe future value and the gap max(0, goal − FV). Optimisation is needed iff the goal exceeds the safe value; otherwise the gap is 0 and there is no required return. When it is needed, the required return is absent iff the search function has the same strict sign at 0 and 1. A present required return lies in [0, 1] within 1e-8 of a sign change. |
| GapAnalyzer.RequiredReturnAbsentIffUnreachable | app/services/gap_analyzer.py:41-57 | For a non-negative safe rate, when optimisation is needed the goal is not reached at rate 0. The required return is then absent iff even a 100% return falls short of the goal. |
| GapAnalyzer.RequiredReturnMeetsGoal | app/services/gap_analyzer.py:54-57 | A present required return lies in a bracket of width ≤ 1e-8 whose future values straddle the goal; the future value at the required return lies between them. When the safe rate is non-negative, it lies below the bracket's top. |
| RootFinder.Bisect | app/services/gap_analyzer.py:55 | Bisection of a sign-changing bracket returns a sub-bracket that still changes sign and is at most the tolerance wide. |
| RootFinder.Brentq | app/services/gap_analyzer.py:54-57 | The search fails (the `ValueError` path, giving `None`) iff the function has the same strict sign at both ends. Otherwise it returns a point of the interval within the tolerance of a sign change. |
| Optimizer.Returns | app/services/optimizer.py:83 | One after-tax return per asset, in universe order. Each is at most the asset's gross return, is positive iff the gross return is positive, and equals the gross return for a tax-free asset. |
| Optimizer.Epsilon | app/services/optimizer.py:63-64 | Definition (no contract): the caller's tolerance, or the configured 0.5 years when none is given. |
| Optimizer.UpperRows | app/services/optimizer.py:90-120 | Definition (no contract) of A_ub with b_ub, in append order: the two duration rows, the return row when a required return is given, the youth caps, then the ISA caps. Its shape and meaning are stated by InequalityShape and UpperSystemMeaning. |
| Optimizer.Program | app/services/optimizer.py:122-137 | The linprog arguments: objective −R, the inequality system, the single equality row Σw = 1 and the bounds [0, 1]. The objective has one entry per asset. |
| Optimizer.InequalityShape | app/services/optimizer.py:90-120 | The inequality system has exactly 2 duration rows, plus 1 return row iff a required return is given, plus one row per youth-savings asset and one per ISA asset. Every row has one coefficient per asset. The first rows are (D, T + ε), (−D, −(T − ε)) and (−R, −r). |
| Optimizer.CapRowsShape | app/services/optimizer.py:106-120 | The cap block for a class has one row per asset of that class, each of length n, with the configured bound. |
| Optimizer.CapRowMeaning | app/services/optimizer.py:109-112 | A cap row with the coefficient at index i holds iff coefficient × w_i ≤ limit. |
| Optimizer.CapBlockMeaning | app/services/optimizer.py:106-120 | A cap block holds iff coefficient × w_i ≤ limit for every asset whose class is the capped one; the asset's own limit fields play no part. |
| Optimizer.BandMeaning | app/services/optimizer.py:93-99 | The two duration rows hold iff T − ε ≤ Σ w·D ≤ T + ε. |
| Optimizer.ReturnRowsMeaning | app/services/optimizer.py:101-104 | The return row holds iff Σ w·R ≥ the required return, and is absent without one. |
| Optimizer.UpperSystemMeaning | app/services/optimizer.py:90-120 | The whole inequality system holds iff the duration band, the return floor, the youth cap (C·w ≤ 700,000) and the ISA cap (12C·w ≤ 20,000,000) all hold. |
| Optimizer.FeasibleWeights | app/services/optimizer.py:122-127 | A feasible point of the programme has one weight per asset, each in [0, 1], summing to 1. |
| Optimizer.Diagnosis | app/services/optimizer.py:12-53 | The reasons in append order. There are between one and three of them; their contents are stated by DiagnosisContents and DiagnosisOrder. |
| Optimizer.DiagnosisContents | app/services/optimizer.py:12-53 | The diagnosis is never empty. It lists "max duration too short" iff max D < T − ε, "min duration too long" iff min D > T + ε, and "return too low" iff a required return is given and max R is below it. It is the generic reason alone iff none of these apply. |
| Optimizer.DiagnosisOrder | app/services/optimizer.py:29-51 | Every reason is one of the four above, and they appear in the source's order (duration short, duration long, return, generic). |
| Optimizer.DiagnoseInfeasibility | app/services/optimizer.py:12-53 | The method that appends the reasons returns exactly the diagnosis. |
| Optimizer.DiagnosisSound | app/services/optimizer.py:23-51 | Whenever the programme has a feasible point, none of the specific reasons applies, so only the generic reason is given. |
| Optimizer.WeightedRange | app/services/optimizer.py:23-48 | A weight vector on the simplex that meets the duration band and the return floor forces max D ≥ T − ε, min D ≤ T + ε and max R ≥ r. |
| Optimizer.KeptIndices | app/services/optimizer.py:156-159 | The kept indices are increasing (so universe order is kept). They are exactly the indices whose weight is at least 1e-6. |
| Optimizer.Allocations | app/services/optimizer.py:155-169 | Definition (no contract) of the filtered allocation list over the first k assets. Its properties are stated by AllocationsFollowKept, AllocationsValid, WeightsSumNearOne and AllocationsWithinYouthCap. |
| Optimizer.AllocationsFollowKept | app/services/optimizer.py:155-169 | The allocation list has one entry per kept index, in order. Each entry carries class, name, round(w,4), round(w·C,0), round(w·D,4) and round(R,6) of its asset. |
| Optimizer.AllocationsValid | app/services/optimizer.py:160-168 | For weights in [0, 1] and C ≥ 0, every allocation entry satisfies the record's bounds (weight in [0, 1], monthly amount ≥ 0). |
| Optimizer.WeightsSumNearOne | app/services/optimizer.py:155-169 | For non-negative weights summing to 1, the rounded weights of the kept entries sum to 1 within n × 0.000051. This covers both the dropped sub-1e-6 weights and the rounding. |
| Optimizer.WeightTotalError | app/services/optimizer.py:155-169 | The rounded kept weights over the first k assets differ from the first k raw weights' sum by at most k × 0.000051. |
| Optimizer.FeasiblePassesDurationCheck | app/services/optimizer.py:174-176 | Any weights that satisfy the two duration rows pass the post-solve check abs(Σ w·D − T) ≤ ε + 0.01. |
| Optimizer.AllocationsWithinYouthCap | app/services/optimizer.py:106-165 | When every youth asset's weight meets the youth cap (C·w ≤ 700,000), every youth entry's rounded monthly amount is at most 700,000. |
| Optimizer.FeasibleAllocations | app/services/optimizer.py:122-169 | For a feasible point of the programme, the kept rounded weights sum to 1 within n × 0.000051. Every entry is a valid allocation, and every youth entry's monthly amount is at most 700,000. |
| Optimizer.FeasibleSolutionAccepted | app/services/optimizer.py:152-200 | A result shaped from a feasible point passes the post-solve check, so it reports success. Its allocations are as in FeasibleAllocations. With a required return r, the reported (6-place rounded) return is at least r − 0.0000005. |
| Optimizer.FeasibleMeetsRequiredReturn | app/services/optimizer.py:101-104 | A feasible point reaches the required return. Its expected future value is at least the future value at the required return. |
| Optimizer.BuildUpperRows | app/services/optimizer.py:90-120 | The method that appends the rows builds exactly the specified inequality system. |
| Optimizer.AppendCapRows | app/services/optimizer.py:107-120 | The loop that appends cap rows adds exactly the cap block of the class. |
| Optimizer.BuildAllocations | app/services/optimizer.py:155-169 | The filtering loop builds exactly the specified allocation list. |
| Optimizer.ShapeSolution | app/services/optimizer.py:152-200 | From solved weights, the result has the following properties:<br>• The allocations are the filtered list.<br>• Duration and return are round(Σ w·D, 4) and round(Σ w·R, 6) over the full weight vector.<br>• Success holds iff the post-solve check passes.<br>• On success the expected value is round(FV(P, C, return, months), 0) with the completion message.<br>• Otherwise the expected value is 0 and the message carries the gap and ε. |
| Optimizer.OptimizePortfolio | app/services/optimizer.py:56-200 | ε defaults to 0.5 years.<br>• An empty universe gives failure, no allocations, zeros and the "no assets" message.<br>• When the solver fails on the programme, the result is failure, no allocations, zeros and the diagnosis.<br>• Otherwise the result is as in ShapeSolution.<br>• Since a returned solution is feasible for the programme, that result reports success; its kept weights sum to 1 within n × 0.000051; every entry is valid; youth entries stay within 700,000 a month; and the reported return is at least the required return minus 0.0000005. |
| Simulator.DefaultScenarios | app/services/simulator.py:13-18 | Four scenarios with strictly increasing shifts: two falls, no change, then a rise, none beyond 1.5 points. |
| Simulator.ImmunizationFactor | app/services/simulator.py:60-64 | The factor 1 − abs(D − T)·abs(shift)/2 clamped to [0.8, 1.2] always lies in [0.8, 1.0], so the upper clamp never binds. |
| Simulator.ImmunizationFactorRange | app/services/simulator.py:60-64 | The clamped factor lies in [0.8, 1.0]. It is exactly 1 when there is no shift or the duration equals the horizon in years. |
| Simulator.ShiftedRate | app/services/simulator.py:44-45 | The shifted gross return is floored at 0 before tax, so the rate used is between 0 and max(gross + shift, 0). |
| Simulator.AssetMap | app/services/simulator.py:35 | Definition (no contract) of the class-to-asset dictionary; its lookups are stated by AssetMapLookup. |
| Simulator.AssetMapLookup | app/services/simulator.py:35-39 | A class is in the asset map iff some asset has it. Its entry is the last asset of that class, as in a dict comprehension. |
| Simulator.ShiftedPortfolioFv | app/services/simulator.py:21-68 | Definition (no contract) of the portfolio leg: the allocations' contributions accumulated in order. Its bounds are stated by UnknownClassesContributeNothing and ImmunizationDiscount. |
| Simulator.UnknownClassesContributeNothing | app/services/simulator.py:38-68 | When no allocation's class is in the universe (in particular with no allocations), the portfolio value is 0. |
| Simulator.RawContributionAtLeastPaidIn | app/services/simulator.py:44-55 | Before the immunization factor, an allocation's value is at least its paid-in amount (weight × principal + monthly amount × months), which is non-negative. |
| Simulator.ContributionDiscount | app/services/simulator.py:50-66 | An allocation contributes between 80% and 100% of its unadjusted future value, which is non-negative. |
| Simulator.ImmunizationDiscount | app/services/simulator.py:21-68 | The portfolio value under a shift is non-negative and between 80% and 100% of the sum of the unadjusted legs. |
| Simulator.BuildAssetMap | app/services/simulator.py:35 | The dict comprehension builds exactly the specified class-to-asset map. |
| Simulator.AssetLeg | app/services/simulator.py:43-66 | One loop step adds the allocation's future value at the floored, taxed, shifted rate, times the immunization factor. |
| Simulator.PortfolioFvUnderShift | app/services/simulator.py:21-68 | The accumulating loop returns exactly the specified portfolio value. Allocations whose class is missing from the universe are skipped. |
| Simulator.ContributionOfEntry | app/services/simulator.py:39-66 | An allocation's contribution depends only on the map entry for its own class. |
| Simulator.SimpleSavingsFv | app/services/simulator.py:89-96 | The baseline leg at new_rate × (1 − 0.154), with no floor. At a zero new rate it is exactly principal + contribution × months. |
| Simulator.SimpleSavingsAgainstPaidIn | app/services/simulator.py:89-96 | For a valid goal of at least 2 months and a new rate above −1 (−100%): the baseline uses new_rate × (1 − 0.154) with no floor, so a negative new rate leaves the savings below the amount paid in and a positive one above it. |
| Simulator.ScenarioOutcome | app/services/simulator.py:86-111 | Definition (no contract) of one scenario's result record; its fields are stated by ScenarioOutcomeBounds. |
| Simulator.ScenarioOutcomeBounds | app/services/simulator.py:86-111 | A scenario result copies the label and shift. Its new rate is base + shift to 4 decimals. The baseline value, the portfolio value and their difference are each within 0.5 of the unrounded values; the difference is computed from unrounded values. |
| Simulator.RunScenario | app/services/simulator.py:86-112 | One loop step produces exactly the specified scenario result. |
| Simulator.ScenarioOutcomesIndex | app/services/simulator.py:84-112 | There is exactly one result per scenario, and result i is scenario i's outcome. |
| Simulator.SimulateScenarios | app/services/simulator.py:71-114 | The base rate defaults to 3.5% and is echoed. With no scenarios given, the four defaults (−1.5%, −0.5%, 0, +1.0%) are used. The results are the scenarios' outcomes in input order. |
| AssetUniverse.DefaultUniverse | app/services/asset_universe.py:5-59 | Without eligibility, the five assets are parking, ISA, time deposit, 3-year and 10-year bond ETF. With eligibility, the youth account is at index 1 and the other five keep their order. The youth entry has gross 0.12, duration 2.5, tax free and a 700,000 monthly limit. Classes are pairwise distinct. Durations lie in [0, 7.8]. Only the ISA has an annual limit (20,000,000) and only the youth account a monthly limit. |
| Duration.PresentValueSign | app/services/duration.py:34-35 | Discounting at ytm > −1 keeps a positive cash flow positive and a nonzero one nonzero. |
| Duration.MacaulayDuration | app/services/duration.py:4-41 | Definition (no contract) of macaulay_duration with its guards in source order; its cases are stated by MacaulayDurationCases. |
| Duration.MacaulayDurationCases | app/services/duration.py:4-41 | The guards, in source order:<br>• an empty list gives 0, ahead of the length check;<br>• unequal lengths give the length error;<br>• equal non-empty lengths with ytm ≤ −1 give the yield error.<br>Otherwise the result is a value: 0 when the present values sum to 0, else the value times Σ pv equals Σ t·pv. |
| Duration.DurationBetweenPeriods | app/services/duration.py:34-41 | With all cash flows positive the duration exists and lies between the earliest and the latest period. |
| Duration.PositiveWeightsAverage | app/services/duration.py:37-41 | An average of times with positive weights has a positive total weight and lies between the smallest and largest time. |
| Duration.SingleCashFlow | app/services/duration.py:34-41 | A single nonzero cash flow has its own period as its duration. |
| Numeric.Round | app/services/optimizer.py:164-167 | Definition (no contract) of round(x, d) as round-half-to-even to d decimals. Its facts are stated by RoundError, RoundNonnegative and RoundAtMostOne. |
| Numeric.RoundError | app/services/optimizer.py:164-167 | Rounding to d decimals moves a value by at most half a unit in the last place. |
| Numeric.RoundNonnegative | app/services/optimizer.py:164-165 | Rounding a non-negative value gives a non-negative value. |
| Numeric.RoundAtMostOne | app/services/optimizer.py:164 | Rounding a value at most 1 gives a value at most 1. |
| Numeric.MaxOf | app/services/optimizer.py:25 | The maximum is an element of the vector and bounds every element from above. |
| Numeric.MinOf | app/services/optimizer.py:24 | The minimum is an element of the vector and bounds every element from below. |

## Left out

- **Floating point:** IEEE-754 arithmetic, overflow and precision loss are not modelled; all quantities are exact reals. The tolerances 1e-6 (weight filter) and 1e-8 (root search) are kept as exact constants.
- **Rounding:** `round` is modelled as exact round-half-to-even on reals. Rounding of a binary float's decimal expansion is not modelled.
- **The LP solver** (`linprog` with the HiGHS method) is a parameter of `Optimizer.OptimizePortfolio`. The model assumes that a returned solution has one weight per asset and is feasible for the programme it was given (it meets every row and bound). Optimality of the returned weights is not modelled. Bounds and the equality row are part of the programme handed to it.
- **The library root finder** (Brent's method) is replaced by bisection on the same bracket. It has the same failure rule (the same strict sign at both ends) and the same 1e-8 width. Brent's iteration may return a different point in the final bracket.
- **Duration.MacaulayDuration:** the real power (1 + ytm)^t with a real exponent is a parameter `pow`. The only assumption is that it is positive on positive bases, so the model does not compute numerical values of the discount factors.
- **Messages:** user-facing message texts are represented as datatype values carrying their numbers. The Korean wording and the number formatting (`:.1f`, `:.2%`, `:.2f`) are left out.
- **Configuration loading:** settings are fixed at their defaults (`GBI_` environment overrides are not modelled).
- **Validation and transport:** record validation is modelled by `Valid()` preconditions. The HTTP endpoints, the router, the application entry point and the browser front end are not part of this model. The endpoint glue in app/api/v1/endpoints/simulate.py:29 reads a `goal_achievable` field that the gap result record does not define.
- **Future value guards:** there is no guard for a negative month count or for a monthly rate at or below −1, since the code has none. Months are a `nat`, and the monotonicity lemmas assume rates above −12 (a monthly factor above 0).
- **Baseline rate in the simulator:** not clamped at zero, following the code (app/services/simulator.py:90).
- **Optimizer caps:** cap rows are chosen by asset class, with the configured limits, following the code (app/services/optimizer.py:106-120). An asset's own `monthly_limit`/`annual_limit` fields are not consulted.
- **Simulator.ImmunizationFactorRange:** the upper clamp at 1.2 is kept in the model but can never bind, as the lemma shows.
- **Simulator with an empty portfolio:** the portfolio value is 0, as the code returns; no positive value is claimed.
- **Duration scale invariance** (scaling every cash flow leaves the duration unchanged) is not stated. The code does not promise it.
