/** The lifestyle predictors (`backend/predictors/lifestyle_predictors.py`):
  * the integer risk scores of the sleep-apnea, cholesterol, mental-health,
  * hypertension and diet helpers, the blood-pressure, sleep and cholesterol
  * classifiers, and the derived features of the obesity `preprocess_data`.
  *
  * The cholesterol and mental-health classes at lines 318 and 546 are
  * replaced at module level by the classes of the same name at lines 1076 and
  * 1179; their helpers are modelled as the functions of a record they are.
  * Every helper reads its fields with `data[key]`, so each takes the values of
  * those fields as a readings record; a flag field holds its truthiness. */
module LifestylePredictors {
  import opened Wrappers
  import opened Records
  import Features

  // ---------------------------------------------------------------------
  // Obesity: preprocess_data
  // ---------------------------------------------------------------------

  /** `weight / (height / 100) ** 2`, the BMI from a height in centimetres. */
  function BodyMassIndex(weight: real, heightCm: real): (bmi: real)
    requires heightCm != 0.0
    ensures bmi * ((heightCm / 100.0) * (heightCm / 100.0)) == weight
  {
    var metres := heightCm / 100.0;
    assert metres * metres != 0.0;
    weight / (metres * metres)
  }

  /** `waist / hip`. */
  function WaistHipRatio(waist: real, hip: real): (whr: real)
    requires hip != 0.0
    ensures whr * hip == waist
  {
    waist / hip
  }

  /** The obesity table; entry 2 (`bmi / 50`) reads `height` and entry 3
    * (`whr`) reads `hip_circumference`, and both are then replaced by the
    * derived values. */
  const ObesityFeatures: Features.FeatureTable :=
    [("age", 100.0), ("gender", 1.0), ("height", 1.0), ("hip_circumference", 1.0),
     ("body_fat_percentage", 100.0), ("muscle_mass", 100.0), ("metabolic_rate", 3000.0),
     ("physical_activity_level", 4.0), ("sedentary_hours_per_day", 24.0),
     ("calories_consumed_daily", 4000.0), ("fast_food_frequency", 7.0), ("vegetable_servings_daily", 10.0),
     ("fruit_servings_daily", 10.0), ("water_intake_liters", 5.0), ("sleep_hours_per_night", 12.0),
     ("stress_level", 10.0), ("family_history_obesity", 1.0), ("diabetes", 1.0), ("hypertension", 1.0),
     ("thyroid_disorder", 1.0), ("medications_weight_gain", 1.0), ("smoking_status", 2.0),
     ("alcohol_consumption", 4.0)]

  /** Entries 2 and 3 are the only ones reading height and hip, and no scale
    * is zero. */
  lemma ObesityTableFacts()
    ensures Features.ScalesNonZero(ObesityFeatures)
    ensures |ObesityFeatures| == 23 && ObesityFeatures[2].0 == "height" && ObesityFeatures[3].0 == "hip_circumference"
  {
  }

  /** Every key `preprocess_data` reads: the two that only feed the derived
    * values, and those of the table. */
  predicate ObesityKeysPresent(data: Record)
  {
    && "height" in data && "weight" in data && "waist_circumference" in data && "hip_circumference" in data
    && forall k :: 0 <= k < |ObesityFeatures| ==> ObesityFeatures[k].0 in data
  }

  /** Obesity `preprocess_data`: None is the exception it raises, a KeyError
    * for a missing field or a ZeroDivisionError for a height or hip of 0
    * (any other value, negative included, yields a vector). */
  function ObesityFeatureVector(data: Record): (v: Option<seq<real>>)
    ensures Features.ScalesNonZero(ObesityFeatures)
    ensures v.None? <==> !ObesityKeysPresent(data) || data["height"] == 0.0 || data["hip_circumference"] == 0.0
    ensures v.Some? ==> |v.value| == |ObesityFeatures|
    ensures v.Some? ==> forall k :: 0 <= k < |ObesityFeatures| ==>
              v.value[k] == if ObesityFeatures[k].0 == "height" then BodyMassIndex(data["weight"], data["height"]) / 50.0
                            else if ObesityFeatures[k].0 == "hip_circumference"
                            then WaistHipRatio(data["waist_circumference"], data["hip_circumference"])
                            else data[ObesityFeatures[k].0] / ObesityFeatures[k].1
  {
    ObesityTableFacts();
    if !ObesityKeysPresent(data) || data["height"] == 0.0 || data["hip_circumference"] == 0.0 then None
    else
      var bmi := BodyMassIndex(data["weight"], data["height"]);
      var whr := WaistHipRatio(data["waist_circumference"], data["hip_circumference"]);
      Features.WithDerived(ObesityFeatures, data, map["height" := bmi / 50.0, "hip_circumference" := whr])
  }

  // ---------------------------------------------------------------------
  // Obesity (sleep-apnea helpers): _calculate_health_risk_score,
  // _calculate_sleep_apnea_risk_score
  // ---------------------------------------------------------------------

  datatype SleepApneaReadings = SleepApneaReadings(
    bmi: real, age: real, gender: real, snoring: real, witnessedApneas: real, daytimeSleepiness: real,
    neck: real, hypertension: bool, diabetes: bool, heartDisease: bool)

  /** The five conditions `_calculate_health_risk_score` counts. */
  function HealthConditions(r: SleepApneaReadings): seq<bool>
  {
    [r.hypertension, r.diabetes, r.heartDisease, r.bmi >= 30.0, r.age >= 65.0]
  }

  /** `_calculate_health_risk_score`: how many of the five conditions hold. */
  function HealthRiskScore(r: SleepApneaReadings): (s: int)
    ensures 0 <= s <= 5
    ensures s == CountTrue(HealthConditions(r))
    ensures s == 0 <==> !r.hypertension && !r.diabetes && !r.heartDisease && r.bmi < 30.0 && r.age < 65.0
  {
    var c := HealthConditions(r);
    assert CountTrue(c[4..]) == (if c[4] then 1 else 0) by {
      assert c[4..][1..] == [];
    }
    assert CountTrue(c[3..]) == (if c[3] then 1 else 0) + CountTrue(c[4..]) by {
      assert c[3..][1..] == c[4..];
    }
    assert CountTrue(c[2..]) == (if c[2] then 1 else 0) + CountTrue(c[3..]) by {
      assert c[2..][1..] == c[3..];
    }
    assert CountTrue(c[1..]) == (if c[1] then 1 else 0) + CountTrue(c[2..]) by {
      assert c[1..][1..] == c[2..];
    }
    (if r.hypertension then 1 else 0) + (if r.diabetes then 1 else 0) + (if r.heartDisease then 1 else 0) +
    (if r.bmi >= 30.0 then 1 else 0) + (if r.age >= 65.0 then 1 else 0)
  }

  method CalculateHealthRiskScore(r: SleepApneaReadings) returns (score: int)
    ensures score == HealthRiskScore(r) && 0 <= score <= 5
  {
    score := 0;
    score := score + if r.hypertension then 1 else 0;
    score := score + if r.diabetes then 1 else 0;
    score := score + if r.heartDisease then 1 else 0;
    score := score + if r.bmi >= 30.0 then 1 else 0;
    score := score + if r.age >= 65.0 then 1 else 0;
  }

  function BmiApneaPoints(bmi: real): real
  {
    if bmi >= 35.0 then 3.0 else if bmi >= 30.0 then 2.0 else if bmi >= 25.0 then 1.0 else 0.0
  }

  function AgeApneaPoints(age: real): real
  {
    if age >= 65.0 then 2.0 else if age >= 40.0 then 1.0 else 0.0
  }

  /** A large neck: 17 or more for gender 1, 16 or more for gender 0, and
    * never for any other gender code. */
  predicate LargeNeck(r: SleepApneaReadings)
  {
    (r.gender == 1.0 && r.neck >= 17.0) || (r.gender == 0.0 && r.neck >= 16.0)
  }

  /** The symptom readings; the score is bounded below only when they are
    * not negative. */
  predicate SymptomsNonNegative(r: SleepApneaReadings)
  {
    r.snoring >= 0.0 && r.witnessedApneas >= 0.0 && r.daytimeSleepiness >= 0.0
  }

  /** The sum before `min(20, score)`. */
  function SleepApneaRaw(r: SleepApneaReadings): real
  {
    BmiApneaPoints(r.bmi) + AgeApneaPoints(r.age) + (if r.gender == 1.0 then 1.0 else 0.0) +
    Min(3.0, r.snoring) + Min(2.0, r.witnessedApneas) + Min(2.0, r.daytimeSleepiness) +
    (if LargeNeck(r) then 2.0 else 0.0) + (if r.hypertension then 1.0 else 0.0) + (if r.diabetes then 1.0 else 0.0)
  }

  /** `_calculate_sleep_apnea_risk_score`: every term is capped, so the score
    * never exceeds 17 and the final `min(20, score)` never changes it; with
    * non-negative symptoms it is at least 0. */
  function SleepApneaScore(r: SleepApneaReadings): (s: real)
    ensures s <= 17.0
    ensures SymptomsNonNegative(r) ==> 0.0 <= s
    ensures s == SleepApneaRaw(r)
  {
    Min(20.0, SleepApneaRaw(r))
  }

  method CalculateSleepApneaRiskScore(r: SleepApneaReadings) returns (score: real)
    ensures score == SleepApneaScore(r)
  {
    score := 0.0;
    if r.bmi >= 35.0 {
      score := score + 3.0;
    } else if r.bmi >= 30.0 {
      score := score + 2.0;
    } else if r.bmi >= 25.0 {
      score := score + 1.0;
    }
    if r.age >= 65.0 {
      score := score + 2.0;
    } else if r.age >= 40.0 {
      score := score + 1.0;
    }
    if r.gender == 1.0 {
      score := score + 1.0;
    }
    ghost var basic := BmiApneaPoints(r.bmi) + AgeApneaPoints(r.age) + (if r.gender == 1.0 then 1.0 else 0.0);
    assert score == basic;
    score := score + Min(3.0, r.snoring);
    score := score + Min(2.0, r.witnessedApneas);
    score := score + Min(2.0, r.daytimeSleepiness);
    if (r.gender == 1.0 && r.neck >= 17.0) || (r.gender == 0.0 && r.neck >= 16.0) {
      score := score + 2.0;
    }
    score := score + if r.hypertension then 1.0 else 0.0;
    score := score + if r.diabetes then 1.0 else 0.0;
    score := Min(20.0, score);
  }

  /** More snoring, more witnessed apneas or more daytime sleepiness never
    * lowers the sleep-apnea score. */
  lemma SleepApneaMonotoneInSymptoms(r: SleepApneaReadings, s: SleepApneaReadings)
    requires s == r.(snoring := s.snoring, witnessedApneas := s.witnessedApneas, daytimeSleepiness := s.daytimeSleepiness)
    requires r.snoring <= s.snoring && r.witnessedApneas <= s.witnessedApneas && r.daytimeSleepiness <= s.daytimeSleepiness
    ensures SleepApneaScore(r) <= SleepApneaScore(s)
  {
  }

  // ---------------------------------------------------------------------
  // Cholesterol: _get_cholesterol_category, _calculate_cv_risk_score
  // ---------------------------------------------------------------------

  datatype CholesterolCategory =
    | Desirable | Optimal | NearOptimal | BorderlineHigh | HighLevel
    | LowHdl | NormalHdl | ProtectiveHdl | NormalLevel | UnknownKind

  /** `_get_cholesterol_category`: the category of a reading of the named
    * kind ("total", "ldl", "hdl" or "triglycerides"); any other kind name is
    * Unknown. */
  function CholesterolCategoryOf(value: real, kind: string): (c: CholesterolCategory)
    ensures c == UnknownKind <==> kind !in {"total", "ldl", "hdl", "triglycerides"}
    ensures kind == "total" ==> (c == Desirable <==> value < 200.0) && (c == HighLevel <==> value >= 240.0)
    ensures kind == "ldl" ==> (c == Optimal <==> value < 100.0) && (c == NearOptimal <==> 100.0 <= value < 130.0) && (c == HighLevel <==> value >= 160.0)
    ensures kind == "hdl" ==> (c == LowHdl <==> value < 40.0) && (c == ProtectiveHdl <==> value >= 60.0) && (c == NormalHdl <==> 40.0 <= value < 60.0)
    ensures kind == "triglycerides" ==> (c == NormalLevel <==> value < 150.0) && (c == HighLevel <==> value >= 200.0)
    ensures c == BorderlineHigh ==> kind in {"total", "ldl", "triglycerides"}
  {
    if kind == "total" then
      if value < 200.0 then Desirable else if value < 240.0 then BorderlineHigh else HighLevel
    else if kind == "ldl" then
      if value < 100.0 then Optimal else if value < 130.0 then NearOptimal else if value < 160.0 then BorderlineHigh else HighLevel
    else if kind == "hdl" then
      if value < 40.0 then LowHdl else if value >= 60.0 then ProtectiveHdl else NormalHdl
    else if kind == "triglycerides" then
      if value < 150.0 then NormalLevel else if value < 200.0 then BorderlineHigh else HighLevel
    else UnknownKind
  }

  /** How far up its scale a category lies (for HDL, higher is better). */
  function CategoryRank(c: CholesterolCategory): nat
  {
    match c
    case Desirable => 0
    case Optimal => 0
    case NormalLevel => 0
    case LowHdl => 0
    case NearOptimal => 1
    case NormalHdl => 1
    case BorderlineHigh => 2
    case ProtectiveHdl => 2
    case HighLevel => 3
    case UnknownKind => 0
  }

  /** A higher reading never moves a category down its scale. */
  lemma CholesterolCategoryMonotone(x: real, y: real, kind: string)
    requires x <= y
    ensures CategoryRank(CholesterolCategoryOf(x, kind)) <= CategoryRank(CholesterolCategoryOf(y, kind))
  {
  }

  datatype CholesterolReadings = CholesterolReadings(
    totalCholesterol: real, ldl: real, hdl: real, triglycerides: real, smokingStatus: real,
    diabetes: bool, familyHistory: bool, bmi: real)

  /** The points of `_calculate_cv_risk_score` before `min(10, score)`. */
  function CvRaw(r: CholesterolReadings): int
  {
    (if r.totalCholesterol >= 240.0 then 2 else if r.totalCholesterol >= 200.0 then 1 else 0) +
    (if r.ldl >= 160.0 then 2 else if r.ldl >= 130.0 then 1 else 0) +
    (if r.hdl < 40.0 then 1 else 0) + (if r.triglycerides >= 200.0 then 1 else 0) +
    (if r.smokingStatus == 2.0 then 2 else 0) + (if r.diabetes then 1 else 0) +
    (if r.familyHistory then 1 else 0) + (if r.bmi >= 30.0 then 1 else 0)
  }

  /** Every factor at its worst: the only case where the cap of 10 bites. */
  predicate CvAllFactorsWorst(r: CholesterolReadings)
  {
    r.totalCholesterol >= 240.0 && r.ldl >= 160.0 && r.hdl < 40.0 && r.triglycerides >= 200.0 &&
    r.smokingStatus == 2.0 && r.diabetes && r.familyHistory && r.bmi >= 30.0
  }

  /** `_calculate_cv_risk_score`: in [0, 10]; the raw points reach 11 only
    * with every factor at its worst, and that is the one case the cap lowers. */
  function CvRiskScore(r: CholesterolReadings): (s: int)
    ensures 0 <= s <= 10
    ensures s < CvRaw(r) <==> CvAllFactorsWorst(r)
    ensures !CvAllFactorsWorst(r) ==> s == CvRaw(r)
  {
    MinInt(10, CvRaw(r))
  }

  method CalculateCvRiskScore(r: CholesterolReadings) returns (score: int)
    ensures score == CvRiskScore(r)
  {
    score := 0;
    score := score + if r.totalCholesterol >= 240.0 then 2 else if r.totalCholesterol >= 200.0 then 1 else 0;
    score := score + if r.ldl >= 160.0 then 2 else if r.ldl >= 130.0 then 1 else 0;
    score := score + if r.hdl < 40.0 then 1 else 0;
    score := score + if r.triglycerides >= 200.0 then 1 else 0;
    score := score + if r.smokingStatus == 2.0 then 2 else 0;
    score := score + if r.diabetes then 1 else 0;
    score := score + if r.familyHistory then 1 else 0;
    score := score + if r.bmi >= 30.0 then 1 else 0;
    score := MinInt(10, score);
  }

  // ---------------------------------------------------------------------
  // Mental health: _assess_sleep_adequacy, _calculate_mental_health_risk_score
  // ---------------------------------------------------------------------

  datatype SleepAdequacy = Insufficient | Excessive | OptimalSleep | AdequateSleep

  /** `_assess_sleep_adequacy`: under 6 hours is Insufficient, over 9
    * Excessive, 7 to 8 Optimal, and the rest (6 to 7, 8 to 9) Adequate. */
  function SleepAdequacyOf(hours: real): (a: SleepAdequacy)
    ensures a == Insufficient <==> hours < 6.0
    ensures a == Excessive <==> hours > 9.0
    ensures a == OptimalSleep <==> 7.0 <= hours <= 8.0
    ensures a == AdequateSleep <==> (6.0 <= hours < 7.0 || 8.0 < hours <= 9.0)
  {
    if hours < 6.0 then Insufficient
    else if hours > 9.0 then Excessive
    else if 7.0 <= hours <= 8.0 then OptimalSleep
    else AdequateSleep
  }

  datatype MentalReadings = MentalReadings(
    stress: real, financialStress: real, workSatisfaction: real, sleepHours: real, socialSupport: real,
    alcohol: real, smokingStatus: real, chronicIllness: bool, trauma: bool, familyHistory: bool,
    therapySessions: real, exerciseFrequency: real)

  /** The sum before `max(0, min(20, score))`. */
  function MentalRaw(r: MentalReadings): real
  {
    r.stress + r.financialStress + (4.0 - r.workSatisfaction) +
    (if r.sleepHours < 6.0 || r.sleepHours > 9.0 then 2.0 else 0.0) + (4.0 - r.socialSupport) +
    (if r.alcohol >= 3.0 then 1.0 else 0.0) + (if r.smokingStatus == 2.0 then 1.0 else 0.0) +
    (if r.chronicIllness then 1.0 else 0.0) + (if r.trauma then 2.0 else 0.0) +
    (if r.familyHistory then 1.0 else 0.0) - (if r.therapySessions > 0.0 then 1.0 else 0.0) -
    (if r.exerciseFrequency >= 3.0 then 1.0 else 0.0)
  }

  /** `_calculate_mental_health_risk_score`: the raw sum clamped to [0, 20]. */
  function MentalHealthRiskScore(r: MentalReadings): (s: real)
    ensures 0.0 <= s <= 20.0
    ensures 0.0 <= MentalRaw(r) <= 20.0 ==> s == MentalRaw(r)
    ensures s == 0.0 <==> MentalRaw(r) <= 0.0
    ensures s == 20.0 <==> MentalRaw(r) >= 20.0
  {
    Max(0.0, Min(20.0, MentalRaw(r)))
  }

  method CalculateMentalHealthRiskScore(r: MentalReadings) returns (score: real)
    ensures score == MentalHealthRiskScore(r)
  {
    score := 0.0;
    score := score + r.stress;
    score := score + r.financialStress;
    score := score + (4.0 - r.workSatisfaction);
    score := score + if r.sleepHours < 6.0 || r.sleepHours > 9.0 then 2.0 else 0.0;
    score := score + (4.0 - r.socialSupport);
    score := score + if r.alcohol >= 3.0 then 1.0 else 0.0;
    score := score + if r.smokingStatus == 2.0 then 1.0 else 0.0;
    score := score + if r.chronicIllness then 1.0 else 0.0;
    score := score + if r.trauma then 2.0 else 0.0;
    score := score + if r.familyHistory then 1.0 else 0.0;
    score := score - if r.therapySessions > 0.0 then 1.0 else 0.0;
    score := score - if r.exerciseFrequency >= 3.0 then 1.0 else 0.0;
    score := Max(0.0, Min(20.0, score));
  }

  /** More stress or less social support never lowers the mental-health
    * score. */
  lemma MentalScoreMonotone(r: MentalReadings, s: MentalReadings)
    requires s == r.(stress := s.stress, socialSupport := s.socialSupport)
    requires r.stress <= s.stress && s.socialSupport <= r.socialSupport
    ensures MentalHealthRiskScore(r) <= MentalHealthRiskScore(s)
  {
  }

  // ---------------------------------------------------------------------
  // Hypertension: _get_bp_category, _assess_bp_risk,
  // _calculate_hypertension_risk_score
  // ---------------------------------------------------------------------

  datatype BpCategory = NormalBp | ElevatedBp | Stage1 | Stage2

  datatype BpRisk = LowBpRisk | ModerateBpRisk | HighBpRisk

  /** `_assess_bp_risk`. */
  function BpRiskOf(systolic: real, diastolic: real): (risk: BpRisk)
    ensures risk == HighBpRisk <==> systolic >= 140.0 || diastolic >= 90.0
    ensures risk == LowBpRisk <==> systolic < 130.0 && diastolic < 80.0
  {
    if systolic >= 140.0 || diastolic >= 90.0 then HighBpRisk
    else if systolic >= 130.0 || diastolic >= 80.0 then ModerateBpRisk
    else LowBpRisk
  }

  /** `_get_bp_category` as written: the third test is
    * `systolic < 140 or diastolic < 90`, so Stage 2 needs BOTH readings at
    * or above their thresholds. */
  function BpCategoryOf(systolic: real, diastolic: real): (c: BpCategory)
    ensures c == NormalBp <==> systolic < 120.0 && diastolic < 80.0
    ensures c == ElevatedBp <==> 120.0 <= systolic < 130.0 && diastolic < 80.0
    ensures c == Stage2 <==> systolic >= 140.0 && diastolic >= 90.0
  {
    if systolic < 120.0 && diastolic < 80.0 then NormalBp
    else if systolic < 130.0 && diastolic < 80.0 then ElevatedBp
    else if systolic < 140.0 || diastolic < 90.0 then Stage1
    else Stage2
  }

  /** As written, a systolic reading of 150 with a diastolic of 70 is
    * "Stage 1 Hypertension" while `_assess_bp_risk` rates it High. */
  lemma Stage1AtHighRisk()
    ensures BpCategoryOf(150.0, 70.0) == Stage1 && BpRiskOf(150.0, 70.0) == HighBpRisk
  {
  }

  /** The category with Stage 2 reached by either reading (the third test
    * `systolic < 140 and diastolic < 90`). */
  function IntendedBpCategoryOf(systolic: real, diastolic: real): (c: BpCategory)
    ensures c == NormalBp <==> systolic < 120.0 && diastolic < 80.0
    ensures c == ElevatedBp <==> 120.0 <= systolic < 130.0 && diastolic < 80.0
    ensures c == Stage2 <==> systolic >= 140.0 || diastolic >= 90.0
  {
    if systolic < 120.0 && diastolic < 80.0 then NormalBp
    else if systolic < 130.0 && diastolic < 80.0 then ElevatedBp
    else if systolic < 140.0 && diastolic < 90.0 then Stage1
    else Stage2
  }

  /** The corrected category and the risk level tell the same story: Normal
    * or Elevated is Low risk, Stage 1 is Moderate and Stage 2 is High. */
  lemma IntendedCategoryMatchesRisk(systolic: real, diastolic: real)
    ensures IntendedBpCategoryOf(systolic, diastolic) == Stage2 <==> BpRiskOf(systolic, diastolic) == HighBpRisk
    ensures IntendedBpCategoryOf(systolic, diastolic) == Stage1 <==> BpRiskOf(systolic, diastolic) == ModerateBpRisk
    ensures IntendedBpCategoryOf(systolic, diastolic) in {NormalBp, ElevatedBp} <==> BpRiskOf(systolic, diastolic) == LowBpRisk
  {
  }

  datatype HypertensionReadings = HypertensionReadings(
    familyHistory: bool, bmi: real, smokingStatus: real, alcoholDrinksPerWeek: real, activityMinutes: real,
    sodium: real, stress: real, diabetes: bool)

  /** The points of `_calculate_hypertension_risk_score` before `min(10, score)`. */
  function HypertensionRaw(r: HypertensionReadings): int
  {
    (if r.familyHistory then 2 else 0) + (if r.bmi >= 25.0 then 1 else 0) + (if r.smokingStatus == 2.0 then 2 else 0) +
    (if r.alcoholDrinksPerWeek > 14.0 then 1 else 0) + (if r.activityMinutes < 150.0 then 1 else 0) +
    (if r.sodium > 2300.0 then 1 else 0) + (if r.stress >= 7.0 then 1 else 0) + (if r.diabetes then 2 else 0)
  }

  predicate HypertensionAllFactors(r: HypertensionReadings)
  {
    r.familyHistory && r.bmi >= 25.0 && r.smokingStatus == 2.0 && r.alcoholDrinksPerWeek > 14.0 &&
    r.activityMinutes < 150.0 && r.sodium > 2300.0 && r.stress >= 7.0 && r.diabetes
  }

  /** `_calculate_hypertension_risk_score`: in [0, 10]; the raw points reach
    * 11 only when all eight factors hold, the one case the cap lowers. */
  function HypertensionRiskScore(r: HypertensionReadings): (s: int)
    ensures 0 <= s <= 10
    ensures s < HypertensionRaw(r) <==> HypertensionAllFactors(r)
    ensures !HypertensionAllFactors(r) ==> s == HypertensionRaw(r)
  {
    MinInt(10, HypertensionRaw(r))
  }

  method CalculateHypertensionRiskScore(r: HypertensionReadings) returns (score: int)
    ensures score == HypertensionRiskScore(r)
  {
    score := 0;
    score := score + if r.familyHistory then 2 else 0;
    score := score + if r.bmi >= 25.0 then 1 else 0;
    score := score + if r.smokingStatus == 2.0 then 2 else 0;
    score := score + if r.alcoholDrinksPerWeek > 14.0 then 1 else 0;
    score := score + if r.activityMinutes < 150.0 then 1 else 0;
    score := score + if r.sodium > 2300.0 then 1 else 0;
    score := score + if r.stress >= 7.0 then 1 else 0;
    score := score + if r.diabetes then 2 else 0;
    score := MinInt(10, score);
  }

  // ---------------------------------------------------------------------
  // Obesity lifestyle score: _calculate_diet_score
  // ---------------------------------------------------------------------

  datatype DietReadings = DietReadings(vegetables: real, fruit: real, water: real, fastFood: real)

  function DietRaw(r: DietReadings): real
  {
    Min(3.0, r.vegetables) + Min(2.0, r.fruit) + Min(2.0, r.water) - Min(3.0, r.fastFood)
  }

  /** `_calculate_diet_score`: in [0, 10]. With a fast-food frequency that
    * is not negative the capped terms keep the raw sum at 7 or below, so the
    * `min(10, ·)` never changes it. */
  function DietScore(r: DietReadings): (s: real)
    ensures 0.0 <= s <= 10.0
    ensures r.fastFood >= 0.0 ==> s <= 7.0 && s == Max(0.0, DietRaw(r))
    ensures s == 0.0 <==> DietRaw(r) <= 0.0
  {
    Max(0.0, Min(10.0, DietRaw(r)))
  }

  method CalculateDietScore(r: DietReadings) returns (score: real)
    ensures score == DietScore(r)
  {
    score := 0.0;
    score := score + Min(3.0, r.vegetables);
    score := score + Min(2.0, r.fruit);
    score := score + Min(2.0, r.water);
    score := score - Min(3.0, r.fastFood);
    score := Max(0.0, Min(10.0, score));
  }

  /** More vegetables or fruit never lowers the diet score, more fast food
    * never raises it. */
  lemma DietScoreMonotone(r: DietReadings, s: DietReadings)
    requires r.vegetables <= s.vegetables && r.fruit <= s.fruit && r.water <= s.water && s.fastFood <= r.fastFood
    ensures DietScore(r) <= DietScore(s)
  {
  }
}
