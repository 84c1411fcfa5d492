/** The dashboard's composition of the stages into one quote: the same
    calls in the same order as the dashboard, with every weight, gamma and
    the time-to-value horizon at their defaults. */
module Pipeline {
  import opened DataLookups
  import opened RealArith
  import opened Calculations

  /** Everything the dashboard's sidebar asks for. */
  datatype Inputs = Inputs(
    jobRole: string, educationLevel: string, educationField: string, schoolTier: string,
    yearsExperience: real, companyType: string,
    generalProgress: real, specificProgress: real,
    annualSalary: real, coveragePercentage: real, coverageMonths: int,
    betaSystemic: real, betaIndividual: real, lambdaFactor: real, pMin: real,
    economicModifier: real, aiInnovation: real,
    currentIndustry: string, targetIndustry: string, monthsElapsed: int)

  /** Every intermediate value of one quote and the premium. */
  datatype Quote = Quote(
    fHc: real, fCr: real, fUs: real, vI: real,
    hBase: real, hI: real,
    lPayout: real, pClaim: real, eLoss: real, pMonthly: real)

  /** The ranges the sidebar's widgets allow. */
  predicate WithinWidgetRanges(i: Inputs)
  {
    && 0.0 <= i.yearsExperience <= 30.0
    && 0.0 <= i.generalProgress <= 100.0 && 0.0 <= i.specificProgress <= 100.0
    && 10000.0 <= i.annualSalary <= 500000.0
    && 10.0 <= i.coveragePercentage <= 75.0 && 1 <= i.coverageMonths <= 12
    && 0.01 <= i.betaSystemic <= 1.0 && 0.01 <= i.betaIndividual <= 1.0
    && 1.0 <= i.lambdaFactor <= 3.0 && 0.0 <= i.pMin <= 100.0
    && 0.5 <= i.economicModifier <= 1.5 && 0.5 <= i.aiInnovation <= 1.5
    && 0 <= i.monthsElapsed <= 24
  }

  /** One quote: the four factors the tables feed, then the stages that
      only combine numbers. Whatever the inputs, V_i lies in [5, 100],
      H_base in [45, 90] and the premium is at least p_min; within the
      widgets' ranges V_i is exactly 5, H_i lies in [22.5, 135], the claim
      probability is at most 0.0675, the payout at most three quarters of
      the salary and the expected loss at most the payout. */
  function ComputeQuote(i: Inputs): (q: Quote)
    ensures 5.0 <= q.vI <= 100.0
    ensures 45.0 <= q.hBase <= 90.0
    ensures q.pMonthly >= i.pMin && q.pMonthly >= q.eLoss * i.lambdaFactor / 12.0
    ensures WithinWidgetRanges(i) ==> WidgetBounds(i, q)
  {
    Assemble(i,
             HumanCapitalFactor(i.jobRole, i.educationLevel, i.educationField, i.schoolTier, i.yearsExperience),
             CompanyRiskFactor(i.companyType),
             UpskillingFactor(i.generalProgress, i.specificProgress),
             BaseOccupationalHazard(i.currentIndustry, i.targetIndustry, i.monthsElapsed))
  }

  /** What the widgets' ranges guarantee about a quote. */
  predicate WidgetBounds(i: Inputs, q: Quote)
  {
    && q.vI == 5.0
    && 22.5 <= q.hI <= 135.0
    && 0.0 <= q.pClaim <= 0.0675
    && 0.0 <= q.lPayout <= 0.75 * i.annualSalary
    && 0.0 <= q.eLoss <= q.lPayout
  }

  /** The stages after the four table-fed factors, in the dashboard's
      order: V_i from the three idiosyncratic factors, H_i from H_base, then
      payout, claim probability, expected loss and premium. */
  function Assemble(i: Inputs, fHc: real, fCr: real, fUs: real, hBase: real): (q: Quote)
    ensures q.fHc == fHc && q.fCr == fCr && q.fUs == fUs && q.hBase == hBase
    ensures 5.0 <= q.vI <= 100.0
    ensures q.pMonthly >= i.pMin && q.pMonthly >= q.eLoss * i.lambdaFactor / 12.0
    ensures WithinWidgetRanges(i) && 0.0 <= fHc <= HumanCapitalMax && CompanyMin <= fCr <= CompanyMax
            && fUs <= 1.0 && 45.0 <= hBase <= 90.0
            ==> WidgetBounds(i, q)
  {
    var vI := IdiosyncraticRisk(fHc, fCr, fUs);
    var hI := SystematicRisk(hBase, i.economicModifier, i.aiInnovation);
    var lPayout := TotalPayout(i.annualSalary, i.coveragePercentage, i.coverageMonths);
    var pClaim := AnnualClaimProbability(hI, vI, i.betaSystemic, i.betaIndividual);
    var eLoss := ExpectedLoss(pClaim, lPayout);
    var pMonthly := FinalMonthlyPremium(eLoss, i.lambdaFactor, i.pMin);
    var q := Quote(fHc, fCr, fUs, vI, hBase, hI, lPayout, pClaim, eLoss, pMonthly);
    if WithinWidgetRanges(i) && 0.0 <= fHc <= HumanCapitalMax && CompanyMin <= fCr <= CompanyMax
       && fUs <= 1.0 && 45.0 <= hBase <= 90.0 then
      IdiosyncraticRiskAlwaysFloor(fHc, fCr, fUs);
      SystematicRiskBounds(hBase, i.economicModifier, i.aiInnovation, 0.5, 1.5);
      WidgetClaimBound(hI, i.betaSystemic, i.betaIndividual);
      WidgetPayoutBound(i.annualSalary, i.coveragePercentage, i.coverageMonths);
      ExpectedLossBounds(pClaim, lPayout);
      q
    else
      q
  }

  /** i and j agree on every input except the eight personal ones (role,
      education, school, experience, company and upskilling). */
  predicate SamePolicyAndEnvironment(i: Inputs, j: Inputs)
  {
    && i.annualSalary == j.annualSalary && i.coveragePercentage == j.coveragePercentage
    && i.coverageMonths == j.coverageMonths
    && i.betaSystemic == j.betaSystemic && i.betaIndividual == j.betaIndividual
    && i.lambdaFactor == j.lambdaFactor && i.pMin == j.pMin
    && i.economicModifier == j.economicModifier && i.aiInnovation == j.aiInnovation
    && i.currentIndustry == j.currentIndustry && i.targetIndustry == j.targetIndustry
    && i.monthsElapsed == j.monthsElapsed
  }

  /** Within the widgets' ranges V_i is always on its floor, so the personal
      inputs never change the quote's risk, loss or premium: two inputs that
      agree on the policy, the environment and the transition give the same
      V_i, H_i, claim probability, expected loss and monthly premium. */
  lemma PremiumIgnoresPersonalInputs(i: Inputs, j: Inputs)
    requires WithinWidgetRanges(i) && WithinWidgetRanges(j) && SamePolicyAndEnvironment(i, j)
    ensures ComputeQuote(i).vI == ComputeQuote(j).vI == 5.0
    ensures ComputeQuote(i).hI == ComputeQuote(j).hI
    ensures ComputeQuote(i).pClaim == ComputeQuote(j).pClaim
    ensures ComputeQuote(i).eLoss == ComputeQuote(j).eLoss
    ensures ComputeQuote(i).pMonthly == ComputeQuote(j).pMonthly
  {
  }

  /** For non-negative experience and progress, whatever the keys and
      however large the inputs, V_i is exactly its floor of 5. */
  lemma IdiosyncraticRiskOnFloor(i: Inputs)
    requires 0.0 <= i.yearsExperience && 0.0 <= i.generalProgress && 0.0 <= i.specificProgress
    ensures ComputeQuote(i).vI == 5.0
  {
    IdiosyncraticRiskAlwaysFloor(
      HumanCapitalFactor(i.jobRole, i.educationLevel, i.educationField, i.schoolTier, i.yearsExperience),
      CompanyRiskFactor(i.companyType),
      UpskillingFactor(i.generalProgress, i.specificProgress));
  }

  /** With V_i on its floor, H_i at most 135 and both base probabilities
      at most 1, the claim probability is at most 1.35 * 0.05. */
  lemma WidgetClaimBound(hI: real, betaSystemic: real, betaIndividual: real)
    requires 0.0 <= hI <= 135.0 && 0.0 <= betaSystemic <= 1.0 && 0.0 <= betaIndividual <= 1.0
    ensures 0.0 <= AnnualClaimProbability(hI, 5.0, betaSystemic, betaIndividual) <= 0.0675
  {
    var s := hI / 100.0 * betaSystemic;
    var v := 5.0 / 100.0 * betaIndividual;
    MulMono(0.0, hI / 100.0, 0.0, betaSystemic);
    MulMono(hI / 100.0, 1.35, betaSystemic, 1.0);
    MulMono(s, 1.35, v, 0.05);
  }

  /** Coverage of at most 75% for at most 12 months pays at most three
      quarters of the annual salary. */
  lemma WidgetPayoutBound(annualSalary: real, coveragePercentage: real, coverageMonths: int)
    requires 0.0 <= annualSalary && 0.0 <= coveragePercentage <= 75.0 && 0 <= coverageMonths <= 12
    ensures 0.0 <= TotalPayout(annualSalary, coveragePercentage, coverageMonths) <= 0.75 * annualSalary
  {
    var m := annualSalary / 12.0;
    MulMono(m, m, coverageMonths as real, 12.0);
    MulMono(m * coverageMonths as real, m * 12.0, coveragePercentage / 100.0, 0.75);
  }

  /** The dashboard's default selection, at the start of a transition from
      Finance/Banking to Healthcare with neutral modifiers: V_i is 5, H_base
      is Finance's 60, the claim probability 0.0015, the yearly expected
      loss 16.875 and the premium the 20.00 floor. */
  lemma DefaultQuote()
    ensures var q := ComputeQuote(Inputs(
              "Mid-level Professional", "Bachelor's Degree", "Engineering/Computer Science/Quant",
              "Tier 2 (National/Reputable)", 10.0, "Big Firm (Lower Risk)", 50.0, 20.0,
              90000.0, 25.0, 6, 0.10, 0.50, 1.5, 20.0, 1.0, 1.0,
              "Finance/Banking (Algorithmic Trading/AI)", "Healthcare (AI Diagnostics/Robotics)", 0));
            q.vI == 5.0 && q.hBase == 60.0 && q.hI == 60.0 && q.lPayout == 11250.0
            && q.pClaim == 0.0015 && q.eLoss == 16.875 && q.pMonthly == 20.0
  {
    DefaultScenario();
    assert IndustryHazard("Finance/Banking (Algorithmic Trading/AI)") == 60.0;
  }
}
