/** The live premium pipeline: each stage function of the dashboard, with
    the lenient table lookups it is built on, stated over exact reals. */
module Calculations {
  import opened DataLookups
  import opened RealArith

  /** The smaller of two values; the first one on a tie, like Python's
      built-in min. */
  function Min(a: real, b: real): (r: real)
    ensures r <= a && r <= b && (r == a || r == b)
  {
    if b < a then b else a
  }

  /** The larger of two values; the first one on a tie, like Python's
      built-in max. */
  function Max(a: real, b: real): (r: real)
    ensures r >= a && r >= b && (r == a || r == b)
  {
    if b > a then b else a
  }

  /** Lenient table lookup: the table's entry for a known key and the
      supplied neutral default for any other key. It never fails. */
  function Get<V>(m: map<string, V>, key: string, default: V): (r: V)
    ensures key in m ==> r == m[key]
    ensures key !in m ==> r == default
  {
    if key in m then m[key] else default
  }

  // ---------------------------------------------------------------------
  // Idiosyncratic risk V_i(t)
  // ---------------------------------------------------------------------

  /** f_exp: falls by 1.5 points per year of experience, and stops falling
      at 20 years. Negative years are not rejected. */
  function ExperienceFactor(years: real): (r: real)
    ensures years <= 20.0 ==> r == 1.0 - 0.015 * years
    ensures years >= 20.0 ==> r == 0.7
    ensures 0.0 <= years ==> 0.7 <= r <= 1.0
    ensures years < 0.0 ==> r > 1.0
  {
    1.0 - 0.015 * Min(years, 20.0)
  }

  /** The four lenient category lookups feeding F_HC: the table's entry
      for a known key, 1.0 for any other. */
  function RoleFactor(role: string): (r: real)
    ensures role in RoleMultipliers ==> r == RoleMultipliers[role]
    ensures role !in RoleMultipliers ==> r == 1.0
    ensures RoleMin <= r <= RoleMax
  {
    RoleRange();
    Get(RoleMultipliers, role, 1.0)
  }

  function LevelFactor(level: string): (r: real)
    ensures level in EducationLevelFactors ==> r == EducationLevelFactors[level]
    ensures level !in EducationLevelFactors ==> r == 1.0
    ensures LevelMin <= r <= LevelMax
  {
    LevelRange();
    Get(EducationLevelFactors, level, 1.0)
  }

  function FieldFactor(field: string): (r: real)
    ensures field in EducationFieldFactors ==> r == EducationFieldFactors[field]
    ensures field !in EducationFieldFactors ==> r == 1.0
    ensures FieldMin <= r <= FieldMax
  {
    FieldRange();
    Get(EducationFieldFactors, field, 1.0)
  }

  function SchoolFactor(school: string): (r: real)
    ensures school in SchoolTierFactors ==> r == SchoolTierFactors[school]
    ensures school !in SchoolTierFactors ==> r == 1.0
    ensures TierMin <= r <= TierMax
  {
    TierRange();
    Get(SchoolTierFactors, school, 1.0)
  }

  /** F_HC: the four lenient category lookups times the experience factor.
      For non-negative experience it lies within the product of the tables'
      extremes (see HumanCapitalMin and HumanCapitalMax), whatever the keys,
      since an unknown key's 1.0 lies inside every table's range. */
  function HumanCapitalFactor(role: string, level: string, field: string, school: string, years: real): (r: real)
    ensures years >= 0.0 ==> 0.0 < HumanCapitalMin <= r <= HumanCapitalMax
    ensures role !in RoleMultipliers && level !in EducationLevelFactors
            && field !in EducationFieldFactors && school !in SchoolTierFactors
            ==> r == ExperienceFactor(years)
  {
    HumanCapitalProduct(RoleFactor(role), LevelFactor(level), FieldFactor(field), SchoolFactor(school),
                        ExperienceFactor(years))
  }

  /** f_role * f_level * f_field * f_school * f_exp on the five values.
      With each factor in its table's range and f_exp in [0.7, 1] the
      product lies within [HumanCapitalMin, HumanCapitalMax]; with four
      neutral factors it is f_exp. */
  function HumanCapitalProduct(fRole: real, fLevel: real, fField: real, fSchool: real, fExp: real): (r: real)
    ensures RoleMin <= fRole <= RoleMax && LevelMin <= fLevel <= LevelMax
            && FieldMin <= fField <= FieldMax && TierMin <= fSchool <= TierMax && 0.7 <= fExp <= 1.0
            ==> 0.0 < HumanCapitalMin <= r <= HumanCapitalMax
    ensures fRole == 1.0 && fLevel == 1.0 && fField == 1.0 && fSchool == 1.0 ==> r == fExp
  {
    ProductBounds(fRole, fLevel, fField, fSchool, fExp);
    fRole * fLevel * fField * fSchool * fExp
  }

  /** F_CR: the company table's entry, or 1.0 for an unknown company type. */
  function CompanyRiskFactor(companyType: string): (r: real)
    ensures companyType in CompanyRiskFactors ==> r == CompanyRiskFactors[companyType]
    ensures companyType !in CompanyRiskFactors ==> r == 1.0
    ensures CompanyMin <= r <= CompanyMax
  {
    CompanyRange();
    Get(CompanyRiskFactors, companyType, 1.0)
  }

  /** F_US: one minus the gamma-weighted upskilling progress, where each
      progress is a percentage. For non-negative gammas of total at most 1
      (the defaults among them) and progress in [0, 100] it lies in [0, 1]. */
  function UpskillingFactor(pGeneral: real, pSpecific: real,
                            gammaGen: real := GammaGenDefault,
                            gammaSpec: real := GammaSpecDefault): (r: real)
    ensures 0.0 <= gammaGen && 0.0 <= gammaSpec && 0.0 <= pGeneral && 0.0 <= pSpecific ==> r <= 1.0
    ensures 0.0 <= gammaGen && 0.0 <= gammaSpec && gammaGen + gammaSpec <= 1.0
            && 0.0 <= pGeneral <= 100.0 && 0.0 <= pSpecific <= 100.0
            ==> 0.0 <= r <= 1.0
  {
    WeightedProgressBounds(gammaGen, gammaSpec, pGeneral, pSpecific);
    1.0 - (gammaGen * (pGeneral / 100.0) + gammaSpec * (pSpecific / 100.0))
  }

  /** The gamma-weighted progress is non-negative for non-negative inputs,
      and at most the sum of the gammas for progress up to 100. */
  lemma WeightedProgressBounds(gammaGen: real, gammaSpec: real, pGeneral: real, pSpecific: real)
    ensures 0.0 <= gammaGen && 0.0 <= gammaSpec && 0.0 <= pGeneral && 0.0 <= pSpecific
            ==> 0.0 <= gammaGen * (pGeneral / 100.0) + gammaSpec * (pSpecific / 100.0)
    ensures 0.0 <= gammaGen && 0.0 <= gammaSpec && 0.0 <= pGeneral <= 100.0 && 0.0 <= pSpecific <= 100.0
            ==> gammaGen * (pGeneral / 100.0) + gammaSpec * (pSpecific / 100.0) <= gammaGen + gammaSpec
  {
    var x, y := pGeneral / 100.0, pSpecific / 100.0;
    if 0.0 <= gammaGen && 0.0 <= gammaSpec && 0.0 <= x && 0.0 <= y {
      assert 0.0 <= gammaGen * x;
      assert 0.0 <= gammaSpec * y;
      if x <= 1.0 && y <= 1.0 {
        assert gammaGen * x <= gammaGen;
        assert gammaSpec * y <= gammaSpec;
      }
    }
  }

  /** V_raw = F_HC * (w_CR * F_CR + w_US * F_US). */
  function RawVulnerability(fHc: real, fCr: real, fUs: real, wCr: real, wUs: real): real
  {
    fHc * (wCr * fCr + wUs * fUs)
  }

  /** V_i(t): the raw score shifted down by 50 and clamped to [5, 100]. */
  function IdiosyncraticRisk(fHc: real, fCr: real, fUs: real,
                             wCr: real := WCrDefault, wUs: real := WUsDefault): (r: real)
    ensures 5.0 <= r <= 100.0
    ensures RawVulnerability(fHc, fCr, fUs, wCr, wUs) <= 55.0 ==> r == 5.0
    ensures RawVulnerability(fHc, fCr, fUs, wCr, wUs) >= 150.0 ==> r == 100.0
    ensures 55.0 <= RawVulnerability(fHc, fCr, fUs, wCr, wUs) <= 150.0 ==>
              r == RawVulnerability(fHc, fCr, fUs, wCr, wUs) - 50.0
  {
    var vRaw := RawVulnerability(fHc, fCr, fUs, wCr, wUs);
    Min(100.0, Max(5.0, vRaw - 50.0))
  }

  // ---------------------------------------------------------------------
  // Systematic risk H_i
  // ---------------------------------------------------------------------

  /** The hazard of an industry as a real, 50 for an unknown industry. */
  function IndustryHazard(industry: string): (h: real)
    ensures industry in IndustryHazards ==> h == IndustryHazards[industry] as real
    ensures industry !in IndustryHazards ==> h == 50.0
    ensures 45.0 <= h <= 90.0
  {
    HazardTableRange();
    Get(IndustryHazards, industry, 50) as real
  }

  /** r lies between a and b, whichever of the two is smaller. */
  predicate Between(r: real, a: real, b: real)
  {
    (a <= r <= b) || (b <= r <= a)
  }

  /** H_base(k): the current and target industries' hazards (50 for an
      unknown industry) blended by BlendedHazard. */
  function BaseOccupationalHazard(currentIndustry: string, targetIndustry: string,
                                  monthsElapsed: int, ttvPeriod: int := 12): (r: real)
    ensures monthsElapsed >= ttvPeriod ==> r == IndustryHazard(targetIndustry)
    ensures monthsElapsed < ttvPeriod && monthsElapsed <= 0 ==> r == IndustryHazard(currentIndustry)
    ensures Between(r, IndustryHazard(currentIndustry), IndustryHazard(targetIndustry))
    ensures 45.0 <= r <= 90.0
  {
    BlendedHazard(IndustryHazard(currentIndustry), IndustryHazard(targetIndustry), monthsElapsed, ttvPeriod)
  }

  /** The three-way branch of H_base on the two hazards: the target's
      hazard once k >= ttv, the current one for k <= 0, and the linear
      blend (1 - k/ttv) * hCurrent + (k/ttv) * hTarget strictly inside the
      horizon. The test k >= ttv comes first, so it decides even when
      ttv <= 0; the blend is reached only when 0 < k < ttv, so ttv is then
      positive and the division is defined. In every case the result is
      hCurrent moved the share Progress(k, ttv) of the way to hTarget. */
  function BlendedHazard(hCurrent: real, hTarget: real, monthsElapsed: int, ttvPeriod: int): (r: real)
    ensures monthsElapsed >= ttvPeriod ==> r == hTarget
    ensures monthsElapsed < ttvPeriod && monthsElapsed <= 0 ==> r == hCurrent
    ensures Between(r, hCurrent, hTarget)
    ensures r == hCurrent + Progress(monthsElapsed, ttvPeriod) * (hTarget - hCurrent)
  {
    if monthsElapsed >= ttvPeriod then
      assert hTarget == hCurrent + 1.0 * (hTarget - hCurrent);
      hTarget
    else if monthsElapsed <= 0 then
      assert hCurrent == hCurrent + 0.0 * (hTarget - hCurrent);
      hCurrent
    else
      var t := monthsElapsed as real / ttvPeriod as real;
      Fraction(monthsElapsed as real, ttvPeriod as real);
      Blend(hCurrent, hTarget, t);
      (1.0 - t) * hCurrent + t * hTarget
  }

  /** The share of the transition completed after k months of a horizon
      ttv: 1 once k >= ttv, 0 before the transition starts, k/ttv strictly
      inside. The same tests in the same order as BlendedHazard. */
  function Progress(k: int, ttvPeriod: int): (t: real)
    ensures 0.0 <= t <= 1.0
    ensures k >= ttvPeriod ==> t == 1.0
    ensures k < ttvPeriod && k <= 0 ==> t == 0.0
    ensures 0 < k < ttvPeriod ==> 0.0 < t < 1.0 && t * ttvPeriod as real == k as real
  {
    if k >= ttvPeriod then 1.0
    else if k <= 0 then 0.0
    else
      Fraction(k as real, ttvPeriod as real);
      k as real / ttvPeriod as real
  }

  /** H_i = H_base * (w_econ * M_econ + w_inno * I_AI); not clamped. */
  function SystematicRisk(hBase: real, mEcon: real, iAi: real,
                          wEcon: real := WEconDefault, wInno: real := WInnoDefault): real
  {
    hBase * (wEcon * mEcon + wInno * iAi)
  }

  // ---------------------------------------------------------------------
  // Premium determination
  // ---------------------------------------------------------------------

  /** L_payout: the covered share of the monthly salary over the covered
      months. */
  function TotalPayout(annualSalary: real, coveragePercentage: real, coverageMonths: int): real
  {
    (annualSalary / 12.0) * (coverageMonths as real) * (coveragePercentage / 100.0)
  }

  /** P_claim: the product of the scaled systematic and idiosyncratic
      contributions. */
  function AnnualClaimProbability(hI: real, vI: real, betaSystemic: real, betaIndividual: real): real
  {
    (hI / 100.0 * betaSystemic) * (vI / 100.0 * betaIndividual)
  }

  /** E[Loss] = P_claim * L_payout. */
  function ExpectedLoss(pClaim: real, lPayout: real): real
  {
    pClaim * lPayout
  }

  /** P_monthly: the loaded monthly expected loss, floored at p_min. */
  function FinalMonthlyPremium(eLoss: real, lambdaFactor: real, pMin: real): (r: real)
    ensures r >= pMin && r >= eLoss * lambdaFactor / 12.0
    ensures r == pMin || r == eLoss * lambdaFactor / 12.0
    ensures r == pMin <==> eLoss * lambdaFactor / 12.0 <= pMin
  {
    Max((eLoss * lambdaFactor) / 12.0, pMin)
  }

  /** A convex combination of a and b lies between them. */
  lemma Blend(a: real, b: real, t: real)
    requires 0.0 <= t <= 1.0
    ensures Between((1.0 - t) * a + t * b, a, b)
    ensures (1.0 - t) * a + t * b == a + t * (b - a)
  {
    if a <= b {
      assert a <= (1.0 - t) * a + t * b;
      assert (1.0 - t) * a + t * b <= b;
    } else {
      assert b <= (1.0 - t) * a + t * b;
      assert (1.0 - t) * a + t * b <= a;
    }
  }

  // ---------------------------------------------------------------------
  // Properties of the stages
  // ---------------------------------------------------------------------

  /** All experience beyond 20 years leaves the factor where it was at 20. */
  lemma ExperienceCapped(years: real)
    requires years >= 20.0
    ensures ExperienceFactor(years) == ExperienceFactor(20.0) == 0.7
  {
  }

  /** More experience never raises the factor. */
  lemma ExperienceNonIncreasing(y1: real, y2: real)
    requires y1 <= y2
    ensures ExperienceFactor(y2) <= ExperienceFactor(y1)
  {
  }

  /** The largest and smallest F_HC any choice of keys gives for
      non-negative experience. */
  const HumanCapitalMax: real := RoleMax * LevelMax * FieldMax * TierMax
  const HumanCapitalMin: real := RoleMin * LevelMin * FieldMin * TierMin * 0.7

  /** The arithmetic behind the bounds of HumanCapitalProduct: a product
      of five non-negative factors, each within its range. */
  lemma ProductBounds(a: real, b: real, c: real, d: real, e: real)
    ensures RoleMin <= a <= RoleMax && LevelMin <= b <= LevelMax
            && FieldMin <= c <= FieldMax && TierMin <= d <= TierMax && 0.7 <= e <= 1.0
            ==> 0.0 < HumanCapitalMin <= a * b * c * d * e <= HumanCapitalMax
  {
    if RoleMin <= a <= RoleMax && LevelMin <= b <= LevelMax
       && FieldMin <= c <= FieldMax && TierMin <= d <= TierMax && 0.7 <= e <= 1.0 {
      MulMono(RoleMin, a, LevelMin, b);
      MulMono(RoleMin * LevelMin, a * b, FieldMin, c);
      MulMono(RoleMin * LevelMin * FieldMin, a * b * c, TierMin, d);
      MulMono(RoleMin * LevelMin * FieldMin * TierMin, a * b * c * d, 0.7, e);
      MulMono(a, RoleMax, b, LevelMax);
      MulMono(a * b, RoleMax * LevelMax, c, FieldMax);
      MulMono(a * b * c, RoleMax * LevelMax * FieldMax, d, TierMax);
      MulMono(a * b * c * d, HumanCapitalMax, e, 1.0);
    }
  }

  /** An unknown key of any of the four categories contributes exactly the
      neutral 1.0 to F_HC, whatever the other inputs. */
  lemma UnknownKeyNeutral(role: string, level: string, field: string, school: string, years: real)
    ensures role !in RoleMultipliers ==>
              HumanCapitalFactor(role, level, field, school, years)
              == HumanCapitalProduct(1.0, LevelFactor(level), FieldFactor(field), SchoolFactor(school),
                                     ExperienceFactor(years))
    ensures level !in EducationLevelFactors ==>
              HumanCapitalFactor(role, level, field, school, years)
              == HumanCapitalProduct(RoleFactor(role), 1.0, FieldFactor(field), SchoolFactor(school),
                                     ExperienceFactor(years))
    ensures field !in EducationFieldFactors ==>
              HumanCapitalFactor(role, level, field, school, years)
              == HumanCapitalProduct(RoleFactor(role), LevelFactor(level), 1.0, SchoolFactor(school),
                                     ExperienceFactor(years))
    ensures school !in SchoolTierFactors ==>
              HumanCapitalFactor(role, level, field, school, years)
              == HumanCapitalProduct(RoleFactor(role), LevelFactor(level), FieldFactor(field), 1.0,
                                     ExperienceFactor(years))
  {
  }

  /** Two unknown roles are indistinguishable: with the other inputs equal
      they give the same F_HC. */
  lemma UnknownRolesAgree(role1: string, role2: string, level: string, field: string, school: string, years: real)
    requires role1 !in RoleMultipliers && role2 !in RoleMultipliers
    ensures HumanCapitalFactor(role1, level, field, school, years)
            == HumanCapitalFactor(role2, level, field, school, years)
  {
  }

  /** More progress of either kind never raises F_US, for non-negative
      gammas. */
  lemma UpskillingNonIncreasing(pg1: real, ps1: real, pg2: real, ps2: real, gammaGen: real, gammaSpec: real)
    requires 0.0 <= gammaGen && 0.0 <= gammaSpec
    requires pg1 <= pg2 && ps1 <= ps2
    ensures UpskillingFactor(pg2, ps2, gammaGen, gammaSpec) <= UpskillingFactor(pg1, ps1, gammaGen, gammaSpec)
  {
    MulMono(gammaGen, gammaGen, 0.0, pg2 / 100.0 - pg1 / 100.0);
    MulMono(gammaSpec, gammaSpec, 0.0, ps2 / 100.0 - ps1 / 100.0);
    assert gammaGen * (pg2 / 100.0 - pg1 / 100.0) == gammaGen * (pg2 / 100.0) - gammaGen * (pg1 / 100.0);
    assert gammaSpec * (ps2 / 100.0 - ps1 / 100.0) == gammaSpec * (ps2 / 100.0) - gammaSpec * (ps1 / 100.0);
  }

  /** The default dashboard selection: F_HC = 0.765 at 10 years and
      F_US = 0.62 at 50% general and 20% firm-specific progress, which puts
      V_i on its floor of 5.0. */
  lemma DefaultScenario()
    ensures HumanCapitalFactor("Mid-level Professional", "Bachelor's Degree",
                               "Engineering/Computer Science/Quant",
                               "Tier 2 (National/Reputable)", 10.0) == 0.765
    ensures CompanyRiskFactor("Big Firm (Lower Risk)") == 0.85
    ensures UpskillingFactor(50.0, 20.0) == 0.62
    ensures RawVulnerability(0.765, 0.85, 0.62, WCrDefault, WUsDefault) == 0.54468
    ensures IdiosyncraticRisk(0.765, 0.85, 0.62) == 5.0
  {
    DefaultSelections();
  }

  /** With F_HC within its bounds, a table-drawn F_CR and F_US at most 1
      (non-negative progress), V_raw stays below 55: F_HC is at most about
      2.05 and the weighted inner term at most 1.1. So the idiosyncratic risk
      is always exactly its floor of 5.0. */
  lemma IdiosyncraticRiskAlwaysFloor(fHc: real, fCr: real, fUs: real)
    requires 0.0 <= fHc <= HumanCapitalMax && CompanyMin <= fCr <= CompanyMax && fUs <= 1.0
    ensures RawVulnerability(fHc, fCr, fUs, WCrDefault, WUsDefault) < 55.0
    ensures IdiosyncraticRisk(fHc, fCr, fUs) == 5.0
  {
    var inner := WCrDefault * fCr + WUsDefault * fUs;
    assert inner <= 1.1;
    if inner >= 0.0 {
      MulMono(fHc, HumanCapitalMax, inner, 1.1);
    } else {
      assert fHc * inner <= 0.0;
    }
  }

  /** Any industry outside the table has the neutral hazard 50, so a
      transition between two such industries stays at 50 in every month and
      for every horizon. */
  lemma UnknownIndustryNeutral(currentIndustry: string, targetIndustry: string, monthsElapsed: int, ttvPeriod: int)
    requires currentIndustry !in IndustryHazards && targetIndustry !in IndustryHazards
    ensures IndustryHazard(currentIndustry) == IndustryHazard(targetIndustry) == 50.0
    ensures BaseOccupationalHazard(currentIndustry, targetIndustry, monthsElapsed, ttvPeriod) == 50.0
  {
  }

  /** The completed share never falls as months pass. */
  lemma ProgressMonotone(k1: int, k2: int, ttvPeriod: int)
    requires k1 <= k2
    ensures Progress(k1, ttvPeriod) <= Progress(k2, ttvPeriod)
  {
    if 0 < k1 && k2 < ttvPeriod {
      DivMono(k1 as real, k2 as real, ttvPeriod as real);
    }
  }

  /** Moving a larger share of the way from a to b lands between the
      smaller move and b. */
  lemma Approach(a: real, b: real, t1: real, t2: real)
    ensures 0.0 <= t1 <= t2 <= 1.0 ==> Between(a + t2 * (b - a), a + t1 * (b - a), b)
  {
    if 0.0 <= t1 <= t2 <= 1.0 {
      if a <= b {
        assert t1 * (b - a) <= t2 * (b - a);
        assert t2 * (b - a) <= b - a;
      } else {
        assert t2 * (b - a) <= t1 * (b - a);
        assert b - a <= t2 * (b - a);
      }
    }
  }

  /** More elapsed months never move H_base away from the target hazard:
      the later hazard lies between the earlier one and the target's. This
      holds for any pair of hazards, so for any pair of industries. */
  lemma HazardApproachesTarget(hCurrent: real, hTarget: real, k1: int, k2: int, ttvPeriod: int)
    requires k1 <= k2
    ensures Between(BlendedHazard(hCurrent, hTarget, k2, ttvPeriod),
                    BlendedHazard(hCurrent, hTarget, k1, ttvPeriod), hTarget)
  {
    ProgressMonotone(k1, k2, ttvPeriod);
    Approach(hCurrent, hTarget, Progress(k1, ttvPeriod), Progress(k2, ttvPeriod));
  }

  /** The k >= ttv test wins over k <= 0: with a zero horizon the start of
      a transition already gives the target's hazard. */
  lemma ZeroHorizonGivesTarget(currentIndustry: string, targetIndustry: string)
    ensures BaseOccupationalHazard(currentIndustry, targetIndustry, 0, 0) == IndustryHazard(targetIndustry)
    ensures BaseOccupationalHazard("Customer Service (AI Bots)", "Healthcare (AI Diagnostics/Robotics)", 0, 0) == 45.0
    ensures BaseOccupationalHazard("Customer Service (AI Bots)", "Healthcare (AI Diagnostics/Robotics)", 0) == 90.0
  {
    HazardTableRange();
  }

  /** With the default weights and neutral modifiers H_i is H_base; with
      the default weights it is H_base times the mean modifier. */
  lemma SystematicRiskNeutral(hBase: real, mEcon: real, iAi: real)
    ensures SystematicRisk(hBase, 1.0, 1.0) == hBase
    ensures SystematicRisk(hBase, mEcon, iAi) == hBase * (mEcon + iAi) / 2.0
  {
  }

  /** H_i is not clamped: the highest hazard with both modifiers at the top
      of their range gives 135. */
  lemma SystematicRiskUncapped()
    ensures SystematicRisk(90.0, 1.5, 1.5) == 135.0 > 100.0
  {
  }

  /** With the default weights and modifiers in [lo, hi] (lo >= 0), H_i
      lies between lo * H_base and hi * H_base for a non-negative H_base. */
  lemma SystematicRiskBounds(hBase: real, mEcon: real, iAi: real, lo: real, hi: real)
    requires 0.0 <= hBase && 0.0 <= lo
    requires lo <= mEcon <= hi && lo <= iAi <= hi
    ensures lo * hBase <= SystematicRisk(hBase, mEcon, iAi) <= hi * hBase
  {
    var m := WEconDefault * mEcon + WInnoDefault * iAi;
    assert lo <= m <= hi;
    MulMono(hBase, hBase, lo, m);
    MulMono(hBase, hBase, m, hi);
  }

  /** The payout never goes below zero nor above the full salary for the
      covered months, for a percentage in [0, 100]. */
  lemma PayoutBounds(annualSalary: real, coveragePercentage: real, coverageMonths: int)
    requires 0.0 <= annualSalary && 0.0 <= coveragePercentage <= 100.0 && 0 <= coverageMonths
    ensures 0.0 <= TotalPayout(annualSalary, coveragePercentage, coverageMonths)
                <= annualSalary / 12.0 * coverageMonths as real
  {
    var full := annualSalary / 12.0 * coverageMonths as real;
    MulMono(0.0, annualSalary / 12.0, 0.0, coverageMonths as real);
    MulMono(full, full, coveragePercentage / 100.0, 1.0);
  }

  /** 90000 a year at 25% for 6 months pays 11250. */
  lemma PayoutExample()
    ensures TotalPayout(90000.0, 25.0, 6) == 11250.0
  {
  }

  /** For scores in [0, 100] and base probabilities in [0, 1] the claim
      probability is a probability. */
  lemma ClaimProbabilityInUnit(hI: real, vI: real, betaSystemic: real, betaIndividual: real)
    requires 0.0 <= hI <= 100.0 && 0.0 <= vI <= 100.0
    requires 0.0 <= betaSystemic <= 1.0 && 0.0 <= betaIndividual <= 1.0
    ensures 0.0 <= AnnualClaimProbability(hI, vI, betaSystemic, betaIndividual) <= 1.0
  {
    MulMono(0.0, hI / 100.0, 0.0, betaSystemic);
    MulMono(hI / 100.0, 1.0, betaSystemic, 1.0);
    MulMono(0.0, vI / 100.0, 0.0, betaIndividual);
    MulMono(vI / 100.0, 1.0, betaIndividual, 1.0);
    MulMono(hI / 100.0 * betaSystemic, 1.0, vI / 100.0 * betaIndividual, 1.0);
  }

  /** A probability times a non-negative payout lies between 0 and the
      payout. */
  lemma ExpectedLossBounds(pClaim: real, lPayout: real)
    requires 0.0 <= pClaim <= 1.0 && 0.0 <= lPayout
    ensures 0.0 <= ExpectedLoss(pClaim, lPayout) <= lPayout
  {
    MulMono(pClaim, 1.0, lPayout, lPayout);
  }

  /** The minimum premium wins when the expected loss is zero. */
  lemma PremiumFloorExample()
    ensures FinalMonthlyPremium(0.0, 1.5, 20.0) == 20.0
  {
  }
}
