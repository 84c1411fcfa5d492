/** Static configuration of the premium calculator: six closed lookup tables
    (five multiplier tables and one industry hazard table) and the six default
    weights used by the risk formulas. Nothing here is ever updated. */
module DataLookups {

  /** Job role multipliers for the human-capital factor. */
  const RoleMultipliers: map<string, real> := map[
    "Entry-level Analyst" := 1.10,
    "Junior Specialist" := 1.05,
    "Mid-level Professional" := 1.00,
    "Senior Professional/Manager" := 0.95,
    "Lead/Principal/Director" := 0.90,
    "Executive/C-suite" := 0.85,
    "Paralegal" := 1.35,
    "Senior Research Scientist" := 0.30
  ]

  const EducationLevelFactors: map<string, real> := map[
    "High School" := 1.20,
    "Associate's Degree" := 1.15,
    "Bachelor's Degree" := 1.00,
    "Master's Degree" := 0.90,
    "PhD/Doctorate" := 0.80
  ]

  const EducationFieldFactors: map<string, real> := map[
    "Liberal Arts/Humanities" := 1.15,
    "Business/Management" := 1.05,
    "Science/Research" := 1.00,
    "Engineering/Computer Science/Quant" := 0.90,
    "Healthcare/Medicine" := 0.90
  ]

  const SchoolTierFactors: map<string, real> := map[
    "Tier 3 (Local/Regional)" := 1.10,
    "Tier 2 (National/Reputable)" := 1.00,
    "Tier 1 (Ivy/Top Global)" := 0.90
  ]

  /** Company risk factors F_CR. */
  const CompanyRiskFactors: map<string, real> := map[
    "Startup (High Risk)" := 1.25,
    "Mid-size Firm (Medium Risk)" := 1.00,
    "Big Firm (Lower Risk)" := 0.85,
    "Government/Non-profit (Stable)" := 0.75
  ]

  /** Base hazard scores per industry; integers, as in the source. */
  const IndustryHazards: map<string, int> := map[
    "Manufacturing (Automation Risk)" := 80,
    "Retail (E-commerce Shift)" := 75,
    "Transportation/Logistics (Autonomous Tech)" := 70,
    "Customer Service (AI Bots)" := 90,
    "Finance/Banking (Algorithmic Trading/AI)" := 60,
    "IT/Software Development (Low-code/No-code/AI Dev)" := 55,
    "Healthcare (AI Diagnostics/Robotics)" := 45,
    "Education (Online Learning/AI Tutors)" := 50,
    "Arts/Entertainment (AI Content Creation)" := 65,
    "Legal (AI Legal Research)" := 85
  ]

  /** Weights of F_CR and F_US in the raw vulnerability score. */
  const WCrDefault: real := 0.4
  const WUsDefault: real := 0.6

  /** Weights of the economic climate and AI innovation modifiers. */
  const WEconDefault: real := 0.5
  const WInnoDefault: real := 0.5

  /** Weights of general and firm-specific upskilling progress. */
  const GammaGenDefault: real := 0.6
  const GammaSpecDefault: real := 0.4

  /** Smallest and largest value of each multiplier table. Each bound is
      attained by some key, so none of them can be tightened. */
  const RoleMin: real := 0.30
  const RoleMax: real := 1.35
  const LevelMin: real := 0.80
  const LevelMax: real := 1.20
  const FieldMin: real := 0.90
  const FieldMax: real := 1.15
  const TierMin: real := 0.90
  const TierMax: real := 1.10
  const CompanyMin: real := 0.75
  const CompanyMax: real := 1.25

  /** Every multiplier of each table lies strictly above zero and within
      that table's range, and both extremes are attained. */
  lemma RoleRange()
    ensures forall k :: k in RoleMultipliers ==> 0.0 < RoleMin <= RoleMultipliers[k] <= RoleMax
    ensures RoleMultipliers["Senior Research Scientist"] == RoleMin && RoleMultipliers["Paralegal"] == RoleMax
  {
  }

  lemma LevelRange()
    ensures forall k :: k in EducationLevelFactors ==> 0.0 < LevelMin <= EducationLevelFactors[k] <= LevelMax
    ensures EducationLevelFactors["PhD/Doctorate"] == LevelMin && EducationLevelFactors["High School"] == LevelMax
  {
  }

  lemma FieldRange()
    ensures forall k :: k in EducationFieldFactors ==> 0.0 < FieldMin <= EducationFieldFactors[k] <= FieldMax
    ensures EducationFieldFactors["Healthcare/Medicine"] == FieldMin
    ensures EducationFieldFactors["Liberal Arts/Humanities"] == FieldMax
  {
  }

  lemma TierRange()
    ensures forall k :: k in SchoolTierFactors ==> 0.0 < TierMin <= SchoolTierFactors[k] <= TierMax
    ensures SchoolTierFactors["Tier 1 (Ivy/Top Global)"] == TierMin
    ensures SchoolTierFactors["Tier 3 (Local/Regional)"] == TierMax
  {
  }

  lemma CompanyRange()
    ensures forall k :: k in CompanyRiskFactors ==> 0.0 < CompanyMin <= CompanyRiskFactors[k] <= CompanyMax
    ensures CompanyRiskFactors["Government/Non-profit (Stable)"] == CompanyMin
    ensures CompanyRiskFactors["Startup (High Risk)"] == CompanyMax
  {
  }

  /** Every industry hazard is a score in [0, 100]; the values actually
      used run from 45 to 90. */
  lemma HazardTableRange()
    ensures forall k :: k in IndustryHazards ==> 0 <= 45 <= IndustryHazards[k] <= 90 <= 100
    ensures IndustryHazards["Healthcare (AI Diagnostics/Robotics)"] == 45
    ensures IndustryHazards["Customer Service (AI Bots)"] == 90
  {
  }

  /** Each pair of default weights used in one weighted sum adds up to 1. */
  lemma WeightPairsSumToOne()
    ensures WCrDefault + WUsDefault == 1.0
    ensures WEconDefault + WInnoDefault == 1.0
    ensures GammaGenDefault + GammaSpecDefault == 1.0
  {
  }

  /** The vocabularies are closed: 8 roles, 5 levels, 5 fields, 3 tiers,
      4 company types and 10 industries. */
  lemma RoleVocabulary()
    ensures |RoleMultipliers| == 8
  {
  }

  lemma EducationVocabularies()
    ensures |EducationLevelFactors| == 5
    ensures |EducationFieldFactors| == 5
  {
  }

  lemma TierAndCompanyVocabularies()
    ensures |SchoolTierFactors| == 3
    ensures |CompanyRiskFactors| == 4
  {
  }

  lemma IndustryVocabulary()
    ensures |IndustryHazards| == 10
  {
  }

  /** The entries selected by default in the dashboard. */
  lemma DefaultSelections()
    ensures RoleMultipliers["Mid-level Professional"] == 1.00
    ensures EducationLevelFactors["Bachelor's Degree"] == 1.00
    ensures EducationFieldFactors["Engineering/Computer Science/Quant"] == 0.90
    ensures SchoolTierFactors["Tier 2 (National/Reputable)"] == 1.00
    ensures CompanyRiskFactors["Big Firm (Lower Risk)"] == 0.85
  {
  }
}
