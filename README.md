# AI-Q premium calculator: a verified model

This project models, in Dafny, the premium pipeline of the AI-Q
Premium Predictor. The predictor is an educational calculator for a
hypothetical insurance against losing one's job to AI. It is a chain of
pure arithmetic over static lookup tables:

- **Idiosyncratic risk V_i.** The human-capital factor F_HC comes from the
  role, education level, education field, school tier and years of
  experience. The company-risk factor F_CR comes from the company type.
  The upskilling factor F_US comes from general and firm-specific
  progress. They are combined into a raw vulnerability, shifted down by
  50 and clamped to [5, 100].
- **Systematic risk H_i.** The base occupational hazard H_base blends the
  current and the target industry's hazard over a time-to-value horizon.
  It is then scaled by the economic-climate and AI-innovation modifiers.
- **Premium.** These give a payout, an annual claim probability, an
  expected loss, and a monthly premium floored at a minimum.

The model is over exact `real` numbers. Each stage is a function, and its
properties are function postconditions and lemmas.

Modules, one per source file plus two supporting ones:

- `DataLookups` (`data_lookups.dfy`) holds the six lookup tables as `map`
  constants and the six default weights. Industry hazards stay `int`, as
  in the source, and become reals where they are read.
- `Calculations` (`calculations.dfy`) holds the dashboard's stage
  functions. Every lookup there is lenient: an unknown key gives the
  neutral default (1.0, or 50 for a hazard) and never fails.
- `Definitions` (`definitions.dfy`) holds the strict alternative
  human-capital factor. It has its own tables, with different keys and
  values. It returns a `Result` that carries a `KeyError` or `ValueError`
  with the source's message, and it runs its checks in the source's order.
- `Pipeline` (`pipeline.dfy`) composes the stages in the dashboard's call
  order, with the default weights and a twelve-month horizon.
- `RealArith` (`real_arith.dfy`) holds monotonicity facts about real
  products and quotients, used by the proofs.

The lenient `calculate_base_occupational_hazard` tests `k >= ttv` before
`k <= 0` (application_pages/calculations.py:90-93), so when `ttv <= 0`
the first test wins. `Calculations.ZeroHorizonGivesTarget` shows this case:
with `ttv = 0` and `k = 0` the result is the target's hazard, not the
current one.

One consequence of the constants is proved, not just observed: for
non-negative experience and progress the idiosyncratic risk V_i is always
exactly its floor of 5, whatever the keys and however large the inputs
(`Pipeline.IdiosyncraticRiskOnFloor`). F_HC is at most about 2.05 and the weighted
company/upskilling term at most 1.1, so V_raw stays below 55, and V_raw - 50
falls below the floor of `max(5, ...)`. So within the widgets' ranges, the
job role, the education, the school, the years of experience, the company
type and both upskilling sliders never change the claim probability, the
expected loss or the premium (`Pipeline.PremiumIgnoresPersonalInputs`).
This holds even though the dashboard's closing text says that upskilling,
education and experience lower the premium (app.py:219-221). Only the
policy, the environment and the career-transition inputs move it.

## Model

| member | source | states |
|---|---|---|
| DataLookups.RoleRange | application_pages/data_lookups.py:6-15 | every role multiplier is positive and in [0.30, 1.35]; both ends are attained ("Senior Research Scientist", "Paralegal") |
| DataLookups.LevelRange | application_pages/data_lookups.py:17-23 | every education-level factor is positive and in [0.80, 1.20]; both ends are attained |
| DataLookups.FieldRange | application_pages/data_lookups.py:25-31 | every education-field factor is positive and in [0.90, 1.15]; both ends are attained |
| DataLookups.TierRange | application_pages/data_lookups.py:33-37 | every school-tier factor is positive and in [0.90, 1.10]; both ends are attained |
| DataLookups.CompanyRange | application_pages/data_lookups.py:45-50 | every company-risk factor is positive and in [0.75, 1.25]; both ends are attained |
| DataLookups.HazardTableRange | application_pages/data_lookups.py:54-65 | every industry hazard is a score in [0, 100], and the values run from 45 (Healthcare) to 90 (Customer Service) |
| DataLookups.WeightPairsSumToOne | application_pages/data_lookups.py:67-77 | W_CR + W_US, W_ECON + W_INNO and GAMMA_GEN + GAMMA_SPEC each equal 1 |
| DataLookups.RoleVocabulary | application_pages/data_lookups.py:6-15 | the role vocabulary is closed, with exactly 8 roles |
| DataLookups.EducationVocabularies | application_pages/data_lookups.py:17-31 | exactly 5 education levels and 5 education fields |
| DataLookups.TierAndCompanyVocabularies | application_pages/data_lookups.py:33-50 | exactly 3 school tiers and 4 company types |
| DataLookups.IndustryVocabulary | application_pages/data_lookups.py:54-65 | exactly 10 industries |
| DataLookups.DefaultSelections | app.py:51-56 | the dashboard's default entries: Mid-level 1.00, Bachelor's Degree 1.00, Engineering 0.90, Tier 2 1.00, Big Firm 0.85 |
| Calculations.Min | application_pages/calculations.py:17 | Python's built-in `min` on two values: at most both, equal to one of them, the first on a tie |
| Calculations.Max | application_pages/calculations.py:71 | Python's built-in `max` on two values: at least both, equal to one of them, the first on a tie |
| Calculations.Get | application_pages/calculations.py:30-33 | the lenient `dict.get` behind every lookup (also lines 41 and 87-88): the table's entry for a present key and the supplied default for any other key; it never fails |
| Calculations.ExperienceFactor | application_pages/calculations.py:12-17 | f_exp is 1 - 0.015*years up to 20 years and exactly 0.7 from 20 on; it lies in [0.7, 1] for non-negative years; negative years are accepted and give a factor above 1 |
| Calculations.RoleFactor | application_pages/calculations.py:30 | the role's multiplier when the role is known, exactly 1.0 otherwise, and always within the role table's range |
| Calculations.LevelFactor | application_pages/calculations.py:31 | the level's factor when known, exactly 1.0 otherwise, always within the level table's range |
| Calculations.FieldFactor | application_pages/calculations.py:32 | the field's factor when known, exactly 1.0 otherwise, always within the field table's range |
| Calculations.SchoolFactor | application_pages/calculations.py:33 | the tier's factor when known, exactly 1.0 otherwise, always within the tier table's range |
| Calculations.HumanCapitalFactor | application_pages/calculations.py:19-35 | for non-negative years, F_HC lies between the product of the tables' minima times 0.7 and the product of their maxima (about 2.05), whatever the keys; with all four keys unknown it is exactly the experience factor |
| Calculations.HumanCapitalProduct | application_pages/calculations.py:35 | the product of the five factors: within [HumanCapitalMin, HumanCapitalMax] when each factor is in its table's range and f_exp in [0.7, 1]; exactly f_exp when the four category factors are neutral |
| Calculations.UnknownKeyNeutral | application_pages/calculations.py:30-35 | an unknown role, level, field or tier contributes exactly 1.0 in its place in the product, whatever the other inputs |
| Calculations.UnknownRolesAgree | application_pages/calculations.py:30 | two unknown roles give the same F_HC when the other inputs agree |
| Calculations.CompanyRiskFactor | application_pages/calculations.py:37-41 | F_CR is the table's value for a known company type and 1.0 otherwise; it never fails and lies in [0.75, 1.25] |
| Calculations.UpskillingFactor | application_pages/calculations.py:43-56 | with non-negative gammas and progress, F_US is at most 1; if the gammas also total at most 1 (as the defaults do) and progress is in [0, 100], F_US lies in [0, 1] |
| Calculations.UpskillingNonIncreasing | application_pages/calculations.py:54-56 | with non-negative gammas, more progress of either kind never raises F_US |
| Calculations.RawVulnerability | application_pages/calculations.py:70 | V_raw = F_HC * (w_CR * F_CR + w_US * F_US); it has no contract of its own, and its cases are stated by `IdiosyncraticRisk` and bounded by `IdiosyncraticRiskAlwaysFloor` |
| Calculations.IdiosyncraticRisk | application_pages/calculations.py:58-72 | V_i always lies in [5, 100]; it is exactly 5 when V_raw <= 55, exactly 100 when V_raw >= 150, and V_raw - 50 in between |
| Calculations.IdiosyncraticRiskAlwaysFloor | application_pages/calculations.py:70-71 | with F_HC within its bounds, a table-drawn F_CR and F_US at most 1, V_raw < 55, so V_i is exactly its floor of 5 |
| Calculations.DefaultScenario | application_pages/calculations.py:17-71 | the default selection gives F_HC = 0.765, F_CR = 0.85, F_US = 0.62, V_raw = 0.54468 and V_i = 5 |
| Calculations.ExperienceCapped | application_pages/calculations.py:17 | every experience of 20 years or more gives the factor at 20 years, 0.7 |
| Calculations.ExperienceNonIncreasing | application_pages/calculations.py:17 | more experience never raises the experience factor |
| Calculations.IndustryHazard | application_pages/calculations.py:87-88 | the industry's hazard as a real when the industry is known, exactly 50 otherwise, always in [45, 90] |
| Calculations.BaseOccupationalHazard | application_pages/calculations.py:76-97 | H_base is exactly the target's hazard when k >= ttv (tested first), exactly the current hazard when k < ttv and k <= 0; it always lies between the two hazards and in [45, 90] |
| Calculations.BlendedHazard | application_pages/calculations.py:90-97 | the three-way branch: the target when k >= ttv, the current when k <= 0, otherwise a blend between them; the division is reached only with ttv > 0; in every case the result equals the current hazard moved the share Progress(k, ttv) of the way to the target |
| Calculations.Progress | application_pages/calculations.py:90-97 | the completed share of the transition lies in [0, 1]: 1 once k >= ttv, 0 for k <= 0, and for 0 < k < ttv a fraction t strictly inside (0, 1) with t * ttv = k |
| Calculations.ProgressMonotone | application_pages/calculations.py:90-97 | the completed share never falls as months pass |
| Calculations.HazardApproachesTarget | application_pages/calculations.py:90-97 | for any two hazards and k1 <= k2, the hazard at k2 lies between the hazard at k1 and the target's: it never moves away from the target |
| Calculations.UnknownIndustryNeutral | application_pages/calculations.py:87-97 | an industry outside the table has hazard 50, and a transition between any two such industries gives 50 for every month and every horizon |
| Calculations.ZeroHorizonGivesTarget | application_pages/calculations.py:90-93 | with ttv = 0 and k = 0 the k >= ttv branch wins, which gives the target's hazard (Customer Service to Healthcare: 45); with the default ttv the same call gives the current 90 |
| Calculations.SystematicRisk | application_pages/calculations.py:99-110 | H_i = H_base * (w_econ * M_econ + w_inno * I_AI); it has no contract of its own, and its properties are in `SystematicRiskNeutral`, `SystematicRiskUncapped` and `SystematicRiskBounds` |
| Calculations.SystematicRiskNeutral | application_pages/calculations.py:99-110 | with the default weights and neutral modifiers H_i equals H_base; in general it is H_base times the mean of the two modifiers |
| Calculations.SystematicRiskUncapped | application_pages/calculations.py:110 | H_i is not clamped: hazard 90 with both modifiers at 1.5 gives 135 > 100 |
| Calculations.SystematicRiskBounds | application_pages/calculations.py:110 | with the default weights and both modifiers in [lo, hi] (lo >= 0), H_i lies in [lo * H_base, hi * H_base] |
| Calculations.TotalPayout | application_pages/calculations.py:114-123 | L_payout = salary / 12 * months * percentage / 100; it has no contract of its own, and its properties are in `PayoutBounds`, `PayoutExample` and `Pipeline.WidgetPayoutBound` |
| Calculations.PayoutBounds | application_pages/calculations.py:114-123 | for a percentage in [0, 100] the payout lies between 0 and the monthly salary times the covered months |
| Calculations.PayoutExample | application_pages/calculations.py:123 | 90000 a year at 25% for 6 months pays 11250 |
| Calculations.AnnualClaimProbability | application_pages/calculations.py:125-135 | P_claim = (H_i / 100 * beta_systemic) * (V_i / 100 * beta_individual); it has no contract of its own, and its properties are in `ClaimProbabilityInUnit` and `Pipeline.WidgetClaimBound` |
| Calculations.ClaimProbabilityInUnit | application_pages/calculations.py:125-135 | for scores in [0, 100] and base probabilities in [0, 1] the claim probability lies in [0, 1] |
| Calculations.ExpectedLoss | application_pages/calculations.py:137-142 | E[Loss] = P_claim * L_payout; it has no contract of its own, and its property is in `ExpectedLossBounds` |
| Calculations.ExpectedLossBounds | application_pages/calculations.py:137-142 | a probability times a non-negative payout lies between 0 and the payout |
| Calculations.FinalMonthlyPremium | application_pages/calculations.py:144-153 | the premium is at least p_min and at least e_loss*lambda/12, is one of the two, and equals p_min exactly when e_loss*lambda/12 <= p_min |
| Calculations.PremiumFloorExample | application_pages/calculations.py:153 | zero expected loss with lambda 1.5 and p_min 20 gives 20 |
| Definitions.StrictTablesPositive | definitions/definitions.py:28-58 | every entry of the four strict tables is positive: roles in [0.192, 1.262], levels and fields in [1.0, 1.10], tiers in [0.95, 1.05] |
| Definitions.ExperienceAdjustment | definitions/definitions.py:82-84 | 1 - 0.015*years up to 20 years, exactly 0.7 from 20 on, and in [0.7, 1] for non-negative years |
| Definitions.HumanCapitalFactor | definitions/definitions.py:60-89 | an unknown role gives KeyError "Unknown job role: <role>" before any other check; then an unknown level, field or tier gives the matching ValueError, in that order; then negative years give the ValueError about experience; it succeeds exactly when all four keys are in the strict tables and years >= 0, and the value is then StrictProduct |
| Definitions.StrictProduct | definitions/definitions.py:76-87 | the success value is strictly positive |
| Definitions.StrictExperienceCapped | definitions/definitions.py:83-84 | any two experiences of 20 years or more give the same result |
| Definitions.StrictParalegal | definitions/definitions.py:29 | Paralegal with neutral entries and no experience gives Ok(1.262), where the dashboard's table has 1.35 |
| Definitions.StrictRejectsDashboardRole | definitions/definitions.py:61-62 | the dashboard's neutral role "Mid-level Professional" is rejected with a KeyError; there is no fallback |
| Definitions.LevelNamesDisjoint | definitions/definitions.py:37-42 | "Bachelor's" is a strict level only, and the dashboard's "Bachelor's Degree" is unknown to the strict factor |
| Definitions.StrictCheckOrderExample | definitions/definitions.py:60-74 | a call wrong in every argument reports the role; with a known role it reports the level; with all keys known it reports negative years |
| Pipeline.ComputeQuote | app.py:81-94 | for any inputs: V_i in [5, 100], H_base in [45, 90], and a premium of at least p_min and at least the loaded monthly loss; within the widgets' ranges: V_i = 5, H_i in [22.5, 135], claim probability in [0, 0.0675], payout in [0, 0.75 * salary] and expected loss in [0, payout] |
| Pipeline.Assemble | app.py:84-94 | the stages after the table-fed factors keep F_HC, F_CR, F_US and H_base as given, keep V_i in [5, 100] and the premium at least p_min, and give the widget bounds whenever the factors are in their ranges |
| Pipeline.IdiosyncraticRiskOnFloor | app.py:81-84 | for any inputs with non-negative experience and progress, with no upper bound, the quote's V_i is exactly 5 |
| Pipeline.PremiumIgnoresPersonalInputs | app.py:81-94 | within the widgets' ranges, two inputs that agree on the policy, environment and transition inputs give the same V_i (5), H_i, claim probability, expected loss and monthly premium, whatever their role, education, school, experience, company and upskilling |
| Pipeline.WidgetClaimBound | application_pages/calculations.py:125-135 | with V_i = 5, H_i in [0, 135] and base probabilities in [0, 1], the claim probability lies in [0, 0.0675] |
| Pipeline.WidgetPayoutBound | application_pages/calculations.py:114-123 | coverage of at most 75% for at most 12 months pays at most three quarters of the annual salary |
| Pipeline.DefaultQuote | app.py:51-94 | the dashboard's default inputs (Finance to Healthcare at month 0, neutral modifiers) give V_i = 5, H_base = H_i = 60, payout 11250, claim probability 0.0015, expected loss 16.875 and a premium of 20 |

## Left out

- The Streamlit page, its widgets, the Plotly charts, the pandas tables and the explanatory text (app.py) are not modelled. Only the call order and the widget ranges are kept, in `Pipeline`.
- IEEE-754 floating point is not modelled. Every value is an exact real, so rounding and the two- and four-decimal display formats are not modelled either.
- The `isinstance` test on the years in the strict factor is not modelled. Dafny's types make it vacuous, so only the negative-years branch is kept. The strict years are a `real`, which covers the source's int and float.
- The expected values in tests/test_0.py are not modelled. That file imports a module that is not part of this model, and its numbers disagree with definitions/definitions.py (for example, it applies 0.95 to "Bachelor's", where the strict table gives 1.00).
- The unused imports (`math`, `pandas`) are not modelled.
- The order of the tables' keys is not modelled. Dafny maps are unordered, and the dashboard's menus use that order only to pick their default entries. `Pipeline.DefaultQuote` names those entries directly.
- Calculations.HazardApproachesTarget, ProgressMonotone and BlendedHazard are stated for any two hazard values rather than for two industries. The industry version is the instance at `IndustryHazard(current)` and `IndustryHazard(target)`.
- Calculations.IdiosyncraticRiskAlwaysFloor assumes its factors lie in the ranges that `HumanCapitalFactor`, `CompanyRiskFactor` and `UpskillingFactor` guarantee. `Pipeline.ComputeQuote` combines the three with it for the dashboard's inputs.
