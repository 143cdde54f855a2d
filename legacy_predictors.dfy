/** The rule-based predictors of the single-file predictor module
  * (`backend/predictors.py`): each `predict` reads a handful of fields with
  * defaults, accumulates a risk score term by term and collects
  * recommendations. The module is shadowed at run time by the predictor
  * package, but its formulas stand on their own. */
module LegacyPredictors {
  import opened Wrappers
  import opened Records
  import BasePredictor

  type RiskLevel = BasePredictor.RiskLevel

  /** The dictionary every legacy `predict` returns (the score is not rounded here). */
  datatype Prediction = Prediction(riskScore: real, riskLevel: RiskLevel, recommendations: seq<string>, confidence: real)

  /** `calculate_risk_level` of the module's own base class. */
  function CalculateRiskLevel(score: real): (level: RiskLevel)
    ensures level == BasePredictor.Low <==> score < 0.3
    ensures level == BasePredictor.Moderate <==> 0.3 <= score < 0.6
    ensures level == BasePredictor.High <==> 0.6 <= score < 0.8
    ensures level == BasePredictor.VeryHigh <==> 0.8 <= score
  {
    if score < 0.3 then BasePredictor.Low
    else if score < 0.6 then BasePredictor.Moderate
    else if score < 0.8 then BasePredictor.High
    else BasePredictor.VeryHigh
  }

  /** The module's classification uses the package base class's thresholds. */
  lemma SameThresholdsAsPackage(score: real)
    ensures CalculateRiskLevel(score) == BasePredictor.CalculateRiskLevel(score)
  {
  }

  /** `0.15 if smoking else 0`: a fixed increment for a truthy flag. */
  function IfFlag(data: Record, key: string, default: real, weight: real): (r: real)
    ensures Get(data, key, default) != 0.0 ==> r == weight
    ensures Get(data, key, default) == 0.0 ==> r == 0.0
  {
    if Get(data, key, default) != 0.0 then weight else 0.0
  }

  // ---------------------------------------------------------------------
  // Heart disease
  // ---------------------------------------------------------------------

  const QuitSmoking := "Quit smoking immediately"
  const ExerciseAndDiet := "Regular exercise and healthy diet"

  /** The reference heart score: three capped ratios and two flag weights. */
  function HeartScore(data: Record): real
  {
    Min(Get(data, "age", 50.0) / 100.0, 0.3) + Min(Get(data, "cholesterol", 200.0) / 400.0, 0.25) +
    Min(Get(data, "systolic_bp", 120.0) / 200.0, 0.2) + IfFlag(data, "smoking", 0.0, 0.15) +
    IfFlag(data, "diabetes", 0.0, 0.1)
  }

  function HeartRecommendations(data: Record): seq<string>
  {
    (if Get(data, "cholesterol", 200.0) > 240.0 then ["Consider cholesterol-lowering medication"] else []) +
    (if Get(data, "systolic_bp", 120.0) > 140.0 then ["Monitor blood pressure regularly"] else []) +
    (if Flag(data, "smoking") then [QuitSmoking] else []) +
    [ExerciseAndDiet]
  }

  /** `HeartDiseasePredictor.predict`. */
  method HeartPredict(data: Record) returns (p: Prediction)
    ensures p == Prediction(HeartScore(data), CalculateRiskLevel(HeartScore(data)), HeartRecommendations(data), 0.85)
  {
    var age := Get(data, "age", 50.0);
    var cholesterol := Get(data, "cholesterol", 200.0);
    var bloodPressure := Get(data, "systolic_bp", 120.0);
    var score := 0.0;
    score := score + Min(age / 100.0, 0.3);
    score := score + Min(cholesterol / 400.0, 0.25);
    score := score + Min(bloodPressure / 200.0, 0.2);
    score := score + (if Flag(data, "smoking") then 0.15 else 0.0);
    score := score + (if Flag(data, "diabetes") then 0.1 else 0.0);
    var recs: seq<string> := [];
    if cholesterol > 240.0 {
      recs := recs + ["Consider cholesterol-lowering medication"];
    }
    if bloodPressure > 140.0 {
      recs := recs + ["Monitor blood pressure regularly"];
    }
    if Flag(data, "smoking") {
      recs := recs + [QuitSmoking];
    }
    recs := recs + [ExerciseAndDiet];
    p := Prediction(score, CalculateRiskLevel(score), recs, 0.85);
  }

  /** With non-negative readings the heart score lies in [0, 1], and the
    * general advice always comes last. */
  lemma HeartScoreBounds(data: Record)
    requires Get(data, "age", 50.0) >= 0.0 && Get(data, "cholesterol", 200.0) >= 0.0 && Get(data, "systolic_bp", 120.0) >= 0.0
    ensures 0.0 <= HeartScore(data) <= 1.0
    ensures |HeartRecommendations(data)| >= 1 && HeartRecommendations(data)[|HeartRecommendations(data)| - 1] == ExerciseAndDiet
    ensures QuitSmoking in HeartRecommendations(data) <==> Flag(data, "smoking")
  {
  }

  /** A 70-year-old smoker with diabetes, cholesterol 260 and systolic 150
    * reaches the full score of 1.0 and is told to quit smoking. */
  lemma HeartScenario()
    ensures var data := map["age" := 70.0, "cholesterol" := 260.0, "systolic_bp" := 150.0, "smoking" := 1.0, "diabetes" := 1.0];
            HeartScore(data) == 1.0 &&
            CalculateRiskLevel(HeartScore(data)) == BasePredictor.VeryHigh &&
            QuitSmoking in HeartRecommendations(data)
  {
    var data := map["age" := 70.0, "cholesterol" := 260.0, "systolic_bp" := 150.0, "smoking" := 1.0, "diabetes" := 1.0];
    assert Get(data, "age", 50.0) == 70.0;
    assert Get(data, "cholesterol", 200.0) == 260.0;
    assert Get(data, "systolic_bp", 120.0) == 150.0;
    assert Get(data, "smoking", 0.0) == 1.0 && Get(data, "diabetes", 0.0) == 1.0;
  }

  /** The heart predictor's per-field weights (`risk_weights.get(field, 0.1)`). */
  function HeartWeight(field: string): (w: real)
    ensures 0.1 <= w <= 0.25
  {
    if field == "age" then 0.25
    else if field == "cholesterol" then 0.20
    else if field == "systolic_bp" then 0.20
    else if field == "smoking" then 0.20
    else if field == "diabetes" then 0.15
    else 0.1
  }

  /** Heart `calculate_field_risk_contribution` on a numeric value. It never
    * exceeds the field's weight (for other fields, while the normalised
    * feature stays within [-1, 1]); the two flags contribute all or nothing. */
  function HeartContribution(field: string, value: real, normalized: real): (c: real)
    ensures field in {"age", "cholesterol", "systolic_bp", "smoking", "diabetes"} || -1.0 <= normalized <= 1.0 ==>
              c <= HeartWeight(field)
    ensures field in {"smoking", "diabetes"} ==> (c == HeartWeight(field) <==> value != 0.0) && (c == 0.0 <==> value == 0.0)
    ensures field in {"cholesterol", "systolic_bp", "smoking", "diabetes"} ==> c >= 0.0
    ensures field == "age" && value >= 0.0 ==> c >= 0.0
    ensures field !in {"age", "cholesterol", "systolic_bp", "smoking", "diabetes"} ==> c >= 0.0
  {
    var w := HeartWeight(field);
    if field == "age" then w * Min(value / 80.0, 1.0)
    else if field == "cholesterol" then w * Min(Max(0.0, value - 150.0) / 200.0, 1.0)
    else if field == "systolic_bp" then w * Min(Max(0.0, value - 90.0) / 100.0, 1.0)
    else if field == "smoking" || field == "diabetes" then (if value != 0.0 then w else 0.0)
    else w * Abs(normalized)
  }

  /** `_calculate_framingham_risk`: increments above age 40, cholesterol 200
    * and systolic 120, plus two flags, capped at 1. */
  method FraminghamRisk(data: Record) returns (risk: real)
    ensures risk == FraminghamSpec(data)
    ensures risk <= 1.0
    ensures Get(data, "age", 0.0) > 90.0 ==> risk == 1.0
  {
    risk := 0.0;
    var age := Get(data, "age", 0.0);
    if age > 40.0 {
      risk := risk + (age - 40.0) * 0.02;
    }
    if Flag(data, "smoking") {
      risk := risk + 0.15;
    }
    if Flag(data, "diabetes") {
      risk := risk + 0.12;
    }
    var cholesterol := Get(data, "cholesterol", 0.0);
    if cholesterol > 200.0 {
      risk := risk + (cholesterol - 200.0) / 1000.0;
    }
    var bp := Get(data, "systolic_bp", 0.0);
    if bp > 120.0 {
      risk := risk + (bp - 120.0) / 500.0;
    }
    risk := Min(risk, 1.0);
  }

  /** The uncapped Framingham-style sum: every term is non-negative. */
  function FraminghamSum(data: Record): (s: real)
    ensures s >= 0.0
  {
    (if Get(data, "age", 0.0) > 40.0 then (Get(data, "age", 0.0) - 40.0) * 0.02 else 0.0) +
    IfFlag(data, "smoking", 0.0, 0.15) + IfFlag(data, "diabetes", 0.0, 0.12) +
    (if Get(data, "cholesterol", 0.0) > 200.0 then (Get(data, "cholesterol", 0.0) - 200.0) / 1000.0 else 0.0) +
    (if Get(data, "systolic_bp", 0.0) > 120.0 then (Get(data, "systolic_bp", 0.0) - 120.0) / 500.0 else 0.0)
  }

  function FraminghamSpec(data: Record): (r: real)
    ensures 0.0 <= r <= 1.0
  {
    Min(FraminghamSum(data), 1.0)
  }

  const LowCvRisk := "Low risk (<10% 10-year risk)"
  const IntermediateCvRisk := "Intermediate risk (10-20% 10-year risk)"
  const HighCvRisk := "High risk (>20% 10-year risk)"

  /** `_categorize_overall_risk`: bands at 0.1 and 0.2 of the Framingham risk. */
  function CategorizeOverallRisk(data: Record): (category: string)
    ensures category == LowCvRisk <==> FraminghamSpec(data) < 0.1
    ensures category == IntermediateCvRisk <==> 0.1 <= FraminghamSpec(data) < 0.2
    ensures category == HighCvRisk <==> FraminghamSpec(data) >= 0.2
  {
    var risk := FraminghamSpec(data);
    assert |LowCvRisk| != |IntermediateCvRisk| && |LowCvRisk| != |HighCvRisk| && |IntermediateCvRisk| != |HighCvRisk|;
    if risk < 0.1 then LowCvRisk
    else if risk < 0.2 then IntermediateCvRisk
    else HighCvRisk
  }

  /** A smoker alone is already past the low band. */
  lemma SmokerIsNotLowRisk(data: Record)
    requires Flag(data, "smoking")
    ensures CategorizeOverallRisk(data) != LowCvRisk
  {
    assert FraminghamSum(data) >= 0.15;
  }

  // ---------------------------------------------------------------------
  // Stroke
  // ---------------------------------------------------------------------

  /** Why a table lookup fails: a non-integer index (TypeError) or one past
    * either end (IndexError). */
  datatype LookupError = NotAnIndex(field: string) | OutOfRange(field: string)

  /** Python's `table[i]`, where a negative `i` counts from the end. */
  function PyIndex(table: seq<real>, i: int): (r: Option<real>)
    ensures r.Some? <==> -|table| <= i < |table|
    ensures r.Some? ==> r.value in table
  {
    if 0 <= i < |table| then Some(table[i])
    else if -|table| <= i < 0 then Some(table[|table| + i])
    else None
  }

  /** `table[min(level, 3)]` for a four-entry table; a whole number stands
    * for a Python `int`. */
  function Lookup(table: seq<real>, field: string, level: real): (r: Result<real, LookupError>)
    requires |table| == 4
    ensures level >= 3.0 ==> r == Ok(table[3])
    ensures r.Ok? ==> r.value in table
  {
    var i := Min(level, 3.0);
    if i != i.Floor as real then Err(NotAnIndex(field))
    else match PyIndex(table, i.Floor)
      case None => Err(OutOfRange(field))
      case Some(x) => Ok(x)
  }

  const SmokingRisk := [0.0, 0.05, 0.15, 0.1]
  const AlcoholRisk := [0.0, 0.02, 0.05, 0.12]
  const ActivityRisk := [0.08, 0.04, 0.02, 0.0]

  const StrokeExercise := "Regular cardiovascular exercise"
  const StrokeDiet := "Maintain healthy diet low in sodium and saturated fats"
  const StrokeQuitSmoking := "Quit smoking immediately - single most important change"

  /** The stroke score before the cap, given the three table entries. */
  function StrokeSum(data: Record, smoking: real, alcohol: real, activity: real): real
  {
    Min(Get(data, "age", 50.0) / 100.0, 0.35) +
    IfFlag(data, "hypertension", 0.0, 0.25) + IfFlag(data, "heart_disease", 0.0, 0.2) +
    Min(Get(data, "avg_glucose_level", 100.0) / 300.0, 0.15) +
    Max(0.0, (Get(data, "bmi", 25.0) - 25.0) / 50.0) * 0.1 +
    smoking + alcohol + activity +
    IfFlag(data, "family_history_stroke", 0.0, 0.1) +
    (if Get(data, "gender", 0.0) == 1.0 then 0.02 else 0.0) +
    (if Get(data, "ever_married", 1.0) == 0.0 then 0.01 else 0.0) +
    (if Get(data, "work_type", 0.0) == 4.0 then 0.01 else 0.0)
  }

  const ManageBloodPressure := "Manage blood pressure with medication and lifestyle changes"
  const ControlGlucose := "Monitor and control blood glucose levels"
  const ManageWeight := "Weight management through diet and exercise"
  const ReduceAlcohol := "Reduce alcohol consumption to moderate levels"
  const IncreaseActivity := "Increase physical activity - aim for 150 minutes/week"
  const FamilyScreening := "Regular screening due to family history"

  function StrokeRecommendations(data: Record): seq<string>
  {
    (if Flag(data, "hypertension") then [ManageBloodPressure] else []) +
    (if Get(data, "avg_glucose_level", 100.0) > 126.0 then [ControlGlucose] else []) +
    (if Get(data, "bmi", 25.0) > 30.0 then [ManageWeight] else []) +
    (if Get(data, "smoking_status", 0.0) == 2.0 then [StrokeQuitSmoking] else []) +
    (if Get(data, "alcohol_consumption", 0.0) >= 3.0 then [ReduceAlcohol] else []) +
    (if Get(data, "physical_activity", 1.0) == 0.0 then [IncreaseActivity] else []) +
    (if Flag(data, "family_history_stroke") then [FamilyScreening] else []) +
    [StrokeExercise, StrokeDiet]
  }

  /** The reference stroke prediction: the three table lookups may fail. */
  function StrokePrediction(data: Record): Result<Prediction, LookupError>
  {
    var smoking := Lookup(SmokingRisk, "smoking_status", Get(data, "smoking_status", 0.0));
    var alcohol := Lookup(AlcoholRisk, "alcohol_consumption", Get(data, "alcohol_consumption", 0.0));
    var activity := Lookup(ActivityRisk, "physical_activity", Get(data, "physical_activity", 1.0));
    if smoking.Err? then Err(smoking.error)
    else if alcohol.Err? then Err(alcohol.error)
    else if activity.Err? then Err(activity.error)
    else
      var score := Min(StrokeSum(data, smoking.value, alcohol.value, activity.value), 1.0);
      Ok(Prediction(score, CalculateRiskLevel(score), StrokeRecommendations(data), 0.87))
  }

  /** `StrokeRiskPredictor.predict`. */
  method StrokePredict(data: Record) returns (r: Result<Prediction, LookupError>)
    ensures r == StrokePrediction(data)
  {
    var age := Get(data, "age", 50.0);
    var glucose := Get(data, "avg_glucose_level", 100.0);
    var bmi := Get(data, "bmi", 25.0);
    var score := 0.0;
    score := score + Min(age / 100.0, 0.35);
    score := score + IfFlag(data, "hypertension", 0.0, 0.25);
    score := score + IfFlag(data, "heart_disease", 0.0, 0.2);
    score := score + Min(glucose / 300.0, 0.15);
    score := score + Max(0.0, (bmi - 25.0) / 50.0) * 0.1;
    var smoking := Lookup(SmokingRisk, "smoking_status", Get(data, "smoking_status", 0.0));
    if smoking.Err? {
      return Err(smoking.error);
    }
    score := score + smoking.value;
    var alcohol := Lookup(AlcoholRisk, "alcohol_consumption", Get(data, "alcohol_consumption", 0.0));
    if alcohol.Err? {
      return Err(alcohol.error);
    }
    score := score + alcohol.value;
    var activity := Lookup(ActivityRisk, "physical_activity", Get(data, "physical_activity", 1.0));
    if activity.Err? {
      return Err(activity.error);
    }
    score := score + activity.value;
    score := score + IfFlag(data, "family_history_stroke", 0.0, 0.1);
    score := score + (if Get(data, "gender", 0.0) == 1.0 then 0.02 else 0.0);
    score := score + (if Get(data, "ever_married", 1.0) == 0.0 then 0.01 else 0.0);
    score := score + (if Get(data, "work_type", 0.0) == 4.0 then 0.01 else 0.0);
    score := Min(score, 1.0);
    var recs := StrokeRecommendations(data);
    r := Ok(Prediction(score, CalculateRiskLevel(score), recs, 0.87));
  }

  /** The stroke score is capped at 1, and with non-negative age and glucose
    * it is non-negative. */
  lemma StrokeScoreBounds(data: Record)
    ensures StrokePrediction(data).Ok? ==> StrokePrediction(data).value.riskScore <= 1.0
    ensures StrokePrediction(data).Ok? && Get(data, "age", 50.0) >= 0.0 && Get(data, "avg_glucose_level", 100.0) >= 0.0 ==>
              StrokePrediction(data).value.riskScore >= 0.0
  {
  }

  /** Every stroke recommendation list ends with the two general items. */
  lemma StrokeRecommendationsEnd(data: Record)
    ensures var recs := StrokeRecommendations(data);
            |recs| >= 2 && recs[|recs| - 2..] == [StrokeExercise, StrokeDiet]
  {
  }

  /** The table lookups fail only for a fractional or very negative level. */
  lemma StrokeLookupsSucceed(data: Record)
    ensures (forall key :: key in {"smoking_status", "alcohol_consumption", "physical_activity"} && key in data ==>
               data[key] == data[key].Floor as real && data[key] >= 0.0) ==>
              StrokePrediction(data).Ok?
  {
  }

  /** Any level of 3 or more reads the last table entry, and -1 reads it too. */
  lemma StrokeTablesSaturate(level: real)
    ensures level >= 3.0 ==> Lookup(SmokingRisk, "smoking_status", level) == Ok(0.1)
    ensures level >= 3.0 ==> Lookup(AlcoholRisk, "alcohol_consumption", level) == Ok(0.12)
    ensures level >= 3.0 ==> Lookup(ActivityRisk, "physical_activity", level) == Ok(0.0)
    ensures Lookup(SmokingRisk, "smoking_status", -1.0) == Ok(0.1)
  {
  }

  // ---------------------------------------------------------------------
  // Kidney disease
  // ---------------------------------------------------------------------

  const KidneyRecommendations := ["Regular kidney function monitoring", "Maintain healthy blood pressure",
                                  "Stay hydrated", "Limit sodium intake"]

  function KidneyScore(data: Record): real
  {
    Min(Get(data, "age", 50.0) / 100.0, 0.25) + Min(Get(data, "blood_pressure", 120.0) / 200.0, 0.3) +
    Abs(Get(data, "specific_gravity", 1.020) - 1.020) * 10.0 +
    Get(data, "albumin", 0.0) * 0.2 + Get(data, "sugar", 0.0) * 0.15
  }

  /** `KidneyDiseasePredictor.predict`. */
  method KidneyPredict(data: Record) returns (p: Prediction)
    ensures p == Prediction(KidneyScore(data), CalculateRiskLevel(KidneyScore(data)), KidneyRecommendations, 0.80)
  {
    var score := 0.0;
    score := score + Min(Get(data, "age", 50.0) / 100.0, 0.25);
    score := score + Min(Get(data, "blood_pressure", 120.0) / 200.0, 0.3);
    score := score + Abs(Get(data, "specific_gravity", 1.020) - 1.020) * 10.0;
    score := score + Get(data, "albumin", 0.0) * 0.2;
    score := score + Get(data, "sugar", 0.0) * 0.15;
    p := Prediction(score, CalculateRiskLevel(score), KidneyRecommendations, 0.80);
  }

  /** The kidney score has no cap: with non-negative readings it is
    * non-negative, and an albumin grade of 4 alone makes it Very High. */
  lemma KidneyScoreUncapped(data: Record)
    requires Get(data, "age", 50.0) >= 0.0 && Get(data, "blood_pressure", 120.0) >= 0.0
    requires Get(data, "albumin", 0.0) >= 0.0 && Get(data, "sugar", 0.0) >= 0.0
    ensures KidneyScore(data) >= 0.0
    ensures Get(data, "albumin", 0.0) >= 4.0 ==> CalculateRiskLevel(KidneyScore(data)) == BasePredictor.VeryHigh
    ensures Get(data, "albumin", 0.0) >= 5.0 ==> KidneyScore(data) >= 1.0
  {
  }

  // ---------------------------------------------------------------------
  // Sepsis
  // ---------------------------------------------------------------------

  const SepsisRecommendations := ["Immediate medical evaluation if high risk", "Monitor vital signs closely",
                                  "Blood culture if indicated", "Consider antibiotic therapy"]

  /** The four screening criteria, temperature in Fahrenheit and WBC per microlitre. */
  function SepsisCriteria(data: Record): seq<bool>
  {
    var temperature := Get(data, "temperature", 98.6);
    var wbc := Get(data, "white_blood_cells", 7000.0);
    [temperature > 100.4 || temperature < 96.8,
     Get(data, "heart_rate", 70.0) > 90.0,
     Get(data, "respiratory_rate", 16.0) > 20.0,
     wbc > 12000.0 || wbc < 4000.0]
  }

  /** How many of the criteria hold. */
  function SepsisCount(data: Record): (n: nat)
    ensures n <= 4
    ensures n == 0 <==> forall k :: 0 <= k < 4 ==> !SepsisCriteria(data)[k]
    ensures n == 4 <==> forall k :: 0 <= k < 4 ==> SepsisCriteria(data)[k]
  {
    var c := SepsisCriteria(data);
    (if c[0] then 1 else 0) + (if c[1] then 1 else 0) + (if c[2] then 1 else 0) + (if c[3] then 1 else 0)
  }

  /** `SepsisPredictor.predict`. */
  method SepsisPredict(data: Record) returns (p: Prediction)
    ensures p.riskScore == 0.25 * SepsisCount(data) as real
    ensures p.riskLevel == CalculateRiskLevel(p.riskScore)
    ensures p.recommendations == SepsisRecommendations && p.confidence == 0.88
  {
    var temperature := Get(data, "temperature", 98.6);
    var heartRate := Get(data, "heart_rate", 70.0);
    var respiratoryRate := Get(data, "respiratory_rate", 16.0);
    var wbc := Get(data, "white_blood_cells", 7000.0);
    var score := 0.0;
    if temperature > 100.4 || temperature < 96.8 {
      score := score + 0.25;
    }
    if heartRate > 90.0 {
      score := score + 0.25;
    }
    if respiratoryRate > 20.0 {
      score := score + 0.25;
    }
    if wbc > 12000.0 || wbc < 4000.0 {
      score := score + 0.25;
    }
    p := Prediction(score, CalculateRiskLevel(score), SepsisRecommendations, 0.88);
  }

  /** The sepsis score takes one of five values, and its level is fixed by how
    * many criteria hold: none or one Low, two Moderate, three High, four Very High. */
  lemma SepsisLevels(n: nat)
    requires n <= 4
    ensures 0.25 * n as real in {0.0, 0.25, 0.5, 0.75, 1.0}
    ensures CalculateRiskLevel(0.25 * n as real) ==
              if n <= 1 then BasePredictor.Low
              else if n == 2 then BasePredictor.Moderate
              else if n == 3 then BasePredictor.High
              else BasePredictor.VeryHigh
  {
  }

  // ---------------------------------------------------------------------
  // Pregnancy complications
  // ---------------------------------------------------------------------

  const PregnancyRecommendations := ["Regular prenatal care", "Nutritional counseling", "Fetal monitoring", "Delivery planning"]

  function PregnancyScore(data: Record): real
  {
    var maternalAge := Get(data, "maternal_age", 28.0);
    (if maternalAge < 18.0 || maternalAge > 35.0 then 0.2 else 0.0) +
    (if Get(data, "gestational_age", 38.0) < 37.0 then 0.3 else 0.0) +
    IfFlag(data, "previous_complications", 0.0, 0.25) + IfFlag(data, "multiple_pregnancy", 0.0, 0.25)
  }

  /** `PregnancyComplicationPredictor.predict`. */
  method PregnancyPredict(data: Record) returns (p: Prediction)
    ensures p == Prediction(PregnancyScore(data), CalculateRiskLevel(PregnancyScore(data)), PregnancyRecommendations, 0.83)
  {
    var maternalAge := Get(data, "maternal_age", 28.0);
    var gestationalAge := Get(data, "gestational_age", 38.0);
    var score := 0.0;
    if maternalAge < 18.0 || maternalAge > 35.0 {
      score := score + 0.2;
    }
    if gestationalAge < 37.0 {
      score := score + 0.3;
    }
    score := score + IfFlag(data, "previous_complications", 0.0, 0.25);
    score := score + IfFlag(data, "multiple_pregnancy", 0.0, 0.25);
    p := Prediction(score, CalculateRiskLevel(score), PregnancyRecommendations, 0.83);
  }

  /** Four fixed increments summing to 1, so the score lies in [0, 1]; a
    * pre-term multiple pregnancy with prior complications is Very High. */
  lemma PregnancyScoreBounds(data: Record)
    ensures 0.0 <= PregnancyScore(data) <= 1.0
    ensures Get(data, "gestational_age", 38.0) < 37.0 && Flag(data, "previous_complications") && Flag(data, "multiple_pregnancy") ==>
              CalculateRiskLevel(PregnancyScore(data)) == BasePredictor.VeryHigh
  {
  }

  // ---------------------------------------------------------------------
  // Anemia
  // ---------------------------------------------------------------------

  const AnemiaRecommendations := ["Iron-rich diet", "Vitamin C to enhance iron absorption", "Address underlying causes", "Regular blood tests"]

  function AnemiaScore(data: Record): real
  {
    var hemoglobin := Get(data, "hemoglobin", 14.0);
    var iron := Get(data, "serum_iron", 100.0);
    (if hemoglobin < 12.0 then (12.0 - hemoglobin) / 12.0 * 0.4 else 0.0) +
    (if iron < 60.0 then (60.0 - iron) / 60.0 * 0.3 else 0.0) +
    IfFlag(data, "heavy_menstrual_bleeding", 0.0, 0.2) +
    (if Get(data, "dietary_iron_adequate", 1.0) == 0.0 then 0.1 else 0.0)
  }

  /** `AnemiaPredictor.predict` (the legacy one). */
  method AnemiaPredict(data: Record) returns (p: Prediction)
    ensures p == Prediction(AnemiaScore(data), CalculateRiskLevel(AnemiaScore(data)), AnemiaRecommendations, 0.85)
  {
    var hemoglobin := Get(data, "hemoglobin", 14.0);
    var iron := Get(data, "serum_iron", 100.0);
    var score := 0.0;
    if hemoglobin < 12.0 {
      score := score + (12.0 - hemoglobin) / 12.0 * 0.4;
    }
    if iron < 60.0 {
      score := score + (60.0 - iron) / 60.0 * 0.3;
    }
    score := score + IfFlag(data, "heavy_menstrual_bleeding", 0.0, 0.2);
    score := score + (if Get(data, "dietary_iron_adequate", 1.0) == 0.0 then 0.1 else 0.0);
    p := Prediction(score, CalculateRiskLevel(score), AnemiaRecommendations, 0.85);
  }

  /** The hemoglobin and iron terms appear only below 12 and 60; with
    * non-negative readings the score lies in [0, 1]; normal labs, no heavy
    * bleeding and an adequate diet give 0. */
  lemma AnemiaScoreFacts(data: Record)
    ensures Get(data, "hemoglobin", 14.0) >= 0.0 && Get(data, "serum_iron", 100.0) >= 0.0 ==> 0.0 <= AnemiaScore(data) <= 1.0
    ensures Get(data, "hemoglobin", 14.0) >= 12.0 && Get(data, "serum_iron", 100.0) >= 60.0 &&
            !Flag(data, "heavy_menstrual_bleeding") && Get(data, "dietary_iron_adequate", 1.0) != 0.0 ==>
              AnemiaScore(data) == 0.0
    ensures Get(data, "hemoglobin", 14.0) < 12.0 && Get(data, "serum_iron", 100.0) >= 60.0 &&
            !Flag(data, "heavy_menstrual_bleeding") && Get(data, "dietary_iron_adequate", 1.0) != 0.0 ==>
              AnemiaScore(data) == (12.0 - Get(data, "hemoglobin", 14.0)) / 12.0 * 0.4 && AnemiaScore(data) > 0.0
  {
  }
}
