/** The strict variant of the human-capital factor. It keeps its own four
    tables, whose keys and values differ from the dashboard's, and instead
    of falling back to a neutral 1.0 it rejects any unknown key and any
    negative experience with an exception. */
module Definitions {
  import DataLookups

  /** The two exception kinds the strict factor raises, with their messages. */
  datatype Exception = KeyError(message: string) | ValueError(message: string)

  /** Either the computed factor or the exception raised. */
  datatype Result = Ok(value: real) | Err(error: Exception)

  const JobRoleFactors: map<string, real> := map[
    "Paralegal" := 1.262,
    "Senior Research Scientist" := 0.192,
    "Analyst" := 1.10,
    "Architect" := 1.0
  ]

  const EducationLevels: map<string, real> := map[
    "PhD" := 1.10,
    "Master's" := 1.05,
    "Bachelor's" := 1.00
  ]

  const FieldOfStudyFactors: map<string, real> := map[
    "Tech/Engineering/Quantitative Science" := 1.00,
    "Liberal Arts/Humanities" := 1.10,
    "Business/Finance" := 1.00
  ]

  const SchoolTierFactors: map<string, real> := map[
    "Tier 1" := 0.95,
    "Tier 2" := 1.00,
    "Tier 3" := 1.05
  ]

  const NegativeYearsMessage: string := "Years of experience must be a non-negative number."

  /** Every entry of the four strict tables is strictly positive. */
  lemma StrictTablesPositive()
    ensures forall k :: k in JobRoleFactors ==> 0.192 <= JobRoleFactors[k] <= 1.262
    ensures forall k :: k in EducationLevels ==> 1.0 <= EducationLevels[k] <= 1.10
    ensures forall k :: k in FieldOfStudyFactors ==> 1.0 <= FieldOfStudyFactors[k] <= 1.10
    ensures forall k :: k in SchoolTierFactors ==> 0.95 <= SchoolTierFactors[k] <= 1.05
  {
  }

  /** The experience adjustment: 1 - 0.015 * min(years, 20). Python's min
      returns its first argument unless the second is smaller. */
  function ExperienceAdjustment(years: real): (r: real)
    ensures years <= 20.0 ==> r == 1.0 - 0.015 * years
    ensures years >= 20.0 ==> r == 0.7
    ensures 0.0 <= years ==> 0.7 <= r <= 1.0
  {
    1.0 - 0.015 * (if 20.0 < years then 20.0 else years)
  }

  /** The strict F_HC. The checks run in the source's order: the role
      (KeyError), then the education level, the field of study, the school
      tier and the sign of the experience (each a ValueError). Only when all
      pass is the product of the four table entries and the experience
      adjustment returned; it is then strictly positive. */
  function HumanCapitalFactor(jobRole: string, educationLevel: string, fieldOfStudy: string,
                              schoolTier: string, yearsExperience: real): (r: Result)
    ensures jobRole !in JobRoleFactors ==> r == Err(KeyError("Unknown job role: " + jobRole))
    ensures jobRole in JobRoleFactors && educationLevel !in EducationLevels ==>
              r == Err(ValueError("Unknown education level: " + educationLevel))
    ensures jobRole in JobRoleFactors && educationLevel in EducationLevels
            && fieldOfStudy !in FieldOfStudyFactors ==>
              r == Err(ValueError("Unknown field of study: " + fieldOfStudy))
    ensures jobRole in JobRoleFactors && educationLevel in EducationLevels
            && fieldOfStudy in FieldOfStudyFactors && schoolTier !in SchoolTierFactors ==>
              r == Err(ValueError("Unknown school tier: " + schoolTier))
    ensures jobRole in JobRoleFactors && educationLevel in EducationLevels
            && fieldOfStudy in FieldOfStudyFactors && schoolTier in SchoolTierFactors
            && yearsExperience < 0.0 ==>
              r == Err(ValueError(NegativeYearsMessage))
    ensures r.Ok? <==> jobRole in JobRoleFactors && educationLevel in EducationLevels
                       && fieldOfStudy in FieldOfStudyFactors && schoolTier in SchoolTierFactors
                       && yearsExperience >= 0.0
    ensures r.Ok? ==> r.value == StrictProduct(jobRole, educationLevel, fieldOfStudy, schoolTier, yearsExperience)
  {
    if jobRole !in JobRoleFactors then
      Err(KeyError("Unknown job role: " + jobRole))
    else if educationLevel !in EducationLevels then
      Err(ValueError("Unknown education level: " + educationLevel))
    else if fieldOfStudy !in FieldOfStudyFactors then
      Err(ValueError("Unknown field of study: " + fieldOfStudy))
    else if schoolTier !in SchoolTierFactors then
      Err(ValueError("Unknown school tier: " + schoolTier))
    else if yearsExperience < 0.0 then
      Err(ValueError(NegativeYearsMessage))
    else
      Ok(StrictProduct(jobRole, educationLevel, fieldOfStudy, schoolTier, yearsExperience))
  }

  /** The value returned once every check has passed: the four table
      entries times the experience adjustment. All entries are positive and
      the adjustment is at least 0.7, so the value is strictly positive. */
  function StrictProduct(jobRole: string, educationLevel: string, fieldOfStudy: string,
                         schoolTier: string, yearsExperience: real): (v: real)
    requires jobRole in JobRoleFactors && educationLevel in EducationLevels
    requires fieldOfStudy in FieldOfStudyFactors && schoolTier in SchoolTierFactors
    requires yearsExperience >= 0.0
    ensures 0.0 < v
  {
    var a, b := JobRoleFactors[jobRole], EducationLevels[educationLevel];
    var c, d := FieldOfStudyFactors[fieldOfStudy], SchoolTierFactors[schoolTier];
    var e := ExperienceAdjustment(yearsExperience);
    StrictTablesPositive();
    PositiveProduct(a, b, c, d, e);
    a * b * c * d * e
  }

  /** Experience beyond 20 years changes nothing: any two such values give
      the same strict factor. */
  lemma StrictExperienceCapped(jobRole: string, educationLevel: string, fieldOfStudy: string,
                               schoolTier: string, y1: real, y2: real)
    requires y1 >= 20.0 && y2 >= 20.0
    ensures HumanCapitalFactor(jobRole, educationLevel, fieldOfStudy, schoolTier, y1)
            == HumanCapitalFactor(jobRole, educationLevel, fieldOfStudy, schoolTier, y2)
  {
    assert ExperienceAdjustment(y1) == ExperienceAdjustment(y2);
  }

  /** "Paralegal" weighs 1.262 in the strict factor, where the dashboard's
      table has 1.35 (DataLookups.RoleRange); with neutral entries and no
      experience the factor is that weight. */
  lemma StrictParalegal()
    ensures HumanCapitalFactor("Paralegal", "Bachelor's", "Business/Finance", "Tier 2", 0.0) == Ok(1.262)
  {
  }

  /** The dashboard's neutral role "Mid-level Professional"
      (DataLookups.DefaultSelections) is rejected by the strict factor. */
  lemma StrictRejectsDashboardRole()
    ensures HumanCapitalFactor("Mid-level Professional", "Bachelor's", "Business/Finance", "Tier 2", 0.0)
            == Err(KeyError("Unknown job role: Mid-level Professional"))
  {
    assert "Unknown job role: " + "Mid-level Professional" == "Unknown job role: Mid-level Professional";
  }

  /** The level names do not overlap either: "Bachelor's" is a strict
      level only, and the dashboard's "Bachelor's Degree" is unknown here. */
  lemma LevelNamesDisjoint()
    ensures "Bachelor's" in EducationLevels && "Bachelor's" !in DataLookups.EducationLevelFactors
    ensures "Bachelor's Degree" in DataLookups.EducationLevelFactors && "Bachelor's Degree" !in EducationLevels
  {
  }

  /** The role is checked before everything else, and the education level
      before the rest: a call wrong in every argument reports the role, and
      one with a known role reports the level. */
  lemma StrictCheckOrderExample()
    ensures HumanCapitalFactor("Pilot", "High School", "Art", "Tier 9", -1.0)
            == Err(KeyError("Unknown job role: Pilot"))
    ensures HumanCapitalFactor("Analyst", "High School", "Art", "Tier 9", -1.0)
            == Err(ValueError("Unknown education level: High School"))
    ensures HumanCapitalFactor("Analyst", "PhD", "Business/Finance", "Tier 1", -1.0)
            == Err(ValueError(NegativeYearsMessage))
  {
    assert "Unknown job role: " + "Pilot" == "Unknown job role: Pilot";
    assert "Unknown education level: " + "High School" == "Unknown education level: High School";
  }

  /** A product of five strictly positive values is strictly positive. */
  lemma PositiveProduct(a: real, b: real, c: real, d: real, e: real)
    requires 0.0 < a && 0.0 < b && 0.0 < c && 0.0 < d && 0.0 < e
    ensures 0.0 < a * b * c * d * e
  {
    assert 0.0 < a * b;
    assert 0.0 < a * b * c;
    assert 0.0 < a * b * c * d;
  }
}
