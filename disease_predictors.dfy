/** The disease predictors of the predictor package
  * (`backend/predictors/disease_predictors.py`): the diabetes predictor's own
  * `predict`, its input cleaning and risk-factor list, the weighted field
  * contribution, and the clinical scores and bands of the liver, kidney,
  * Parkinson's and dementia helpers, plus the feature tables. */
module DiseasePredictors {
  import opened Wrappers
  import opened Records
  import BasePredictor
  import Features

  // ---------------------------------------------------------------------
  // Diabetes: predict
  // ---------------------------------------------------------------------

  datatype DiabetesLevel = DiabetesLow | DiabetesMedium | DiabetesHigh | Unknown

  /** The response of `DiabetesPredictor.predict`; `failed` marks the
    * dictionary built by the `except` branch. */
  datatype DiabetesResponse = DiabetesResponse(
    failed: bool,
    riskScore: real,
    riskLevel: DiabetesLevel,
    recommendations: seq<DiabetesTip>,
    confidence: real,
    riskFactors: seq<DiabetesFactor>)

  /** The recommendations the diabetes `predict` can list; `TipText` gives
    * their wording. */
  datatype DiabetesTip =
    | MonitorGlucose | HealthyWeight | MoreActivity | FamilyScreening
    | BalancedDiet | Checkups | StressAndSleep | ConsultProvider

  function TipText(t: DiabetesTip): string
  {
    match t
    case MonitorGlucose => "Monitor blood glucose levels regularly"
    case HealthyWeight => "Maintain healthy weight through diet and exercise"
    case MoreActivity => "Increase physical activity to at least 150 minutes per week"
    case FamilyScreening => "Regular screening due to family history"
    case BalancedDiet => "Follow a balanced, low-sugar diet"
    case Checkups => "Regular medical check-ups"
    case StressAndSleep => "Stress management and adequate sleep"
    case ConsultProvider => "Please consult with a healthcare provider"
  }

  /** What the `except` branch returns. */
  const FailureResponse := DiabetesResponse(true, 0.0, Unknown, [ConsultProvider], 0.0, [])

  const FamilyKey := "family_history_diabetes"

  /** The eight inputs the score compares or multiplies, with their defaults.
    * `skin_thickness` is read but never used. */
  const ScoredInputs: seq<(string, Value)> :=
    [("age", Int(30)), ("bmi", Int(25)), ("glucose_level", Int(100)), ("blood_pressure", Int(80)),
     ("insulin_level", Int(80)), ("pregnancies", Int(0)), ("diabetes_pedigree_function", Float(0.5)),
     ("physical_activity", Int(3))]

  /** The input at position `k` of `ScoredInputs`, default applied. */
  function Input(data: map<string, Value>, k: nat): Value
    requires k < |ScoredInputs|
  {
    GetValue(data, ScoredInputs[k].0, ScoredInputs[k].1)
  }

  /** No comparison raises TypeError: every scored input is a number. */
  predicate ScoredInputsNumeric(data: map<string, Value>)
  {
    forall k :: 0 <= k < |ScoredInputs| ==> IsNumber(Input(data, k))
  }

  /** The terms of the diabetes score, one per clinical factor. */
  function AgeTerm(age: real): real { if age >= 45.0 then 0.2 else if age >= 35.0 then 0.1 else 0.0 }
  function BmiTerm(bmi: real): real { if bmi >= 30.0 then 0.25 else if bmi >= 25.0 then 0.15 else 0.0 }
  function GlucoseTerm(glucose: real): real { if glucose >= 126.0 then 0.4 else if glucose >= 100.0 then 0.2 else 0.0 }
  function PregnancyTerm(pregnancies: real): real { if pregnancies > 0.0 then Min(pregnancies * 0.05, 0.15) else 0.0 }
  function ActivityTerm(activity: real): real { if activity < 2.0 then 0.1 else if activity >= 5.0 then -0.05 else 0.0 }

  /** The unclamped diabetes score from the eight numbers and the family flag. */
  function DiabetesSum(age: real, bmi: real, glucose: real, bp: real, insulin: real, pregnancies: real,
                       pedigree: real, activity: real, family: bool): real
  {
    AgeTerm(age) + BmiTerm(bmi) + GlucoseTerm(glucose) +
    (if bp >= 90.0 then 0.1 else 0.0) +
    (if insulin > 120.0 then 0.15 else 0.0) +
    (if family then 0.2 else 0.0) +
    PregnancyTerm(pregnancies) + Min(pedigree * 0.3, 0.2) + ActivityTerm(activity)
  }

  function DiabetesLevelOf(score: real): (level: DiabetesLevel)
    ensures level == DiabetesHigh <==> score >= 0.7
    ensures level == DiabetesMedium <==> 0.4 <= score < 0.7
    ensures level == DiabetesLow <==> score < 0.4
  {
    if score >= 0.7 then DiabetesHigh else if score >= 0.4 then DiabetesMedium else DiabetesLow
  }

  /** The three items every successful response ends with. */
  const FixedDiabetesAdvice := [BalancedDiet, Checkups, StressAndSleep]

  function DiabetesAdvice(bmi: real, glucose: real, activity: real, family: bool): seq<DiabetesTip>
  {
    (if glucose >= 100.0 then [MonitorGlucose] else []) +
    (if bmi >= 25.0 then [HealthyWeight] else []) +
    (if activity < 3.0 then [MoreActivity] else []) +
    (if family then [FamilyScreening] else []) +
    FixedDiabetesAdvice
  }

  /** The reference meaning of the diabetes `predict`, with the family-history
    * test passed in (the code as written uses the raw value's truthiness). */
  function DiabetesResult(data: map<string, Value>, family: bool): DiabetesResponse
  {
    if !ScoredInputsNumeric(data) then FailureResponse
    else
      var bmi := NumberOf(Input(data, 1));
      var glucose := NumberOf(Input(data, 2));
      var activity := NumberOf(Input(data, 7));
      var raw := DiabetesSum(NumberOf(Input(data, 0)), bmi, glucose, NumberOf(Input(data, 3)), NumberOf(Input(data, 4)),
                             NumberOf(Input(data, 5)), NumberOf(Input(data, 6)), activity, family);
      var score := Max(0.0, Min(1.0, raw));
      DiabetesResponse(false, score, DiabetesLevelOf(score), DiabetesAdvice(bmi, glucose, activity, family), 0.87,
                       DiabetesRiskFactors(data))
  }

  /** The score-accumulating statements of `predict`, before the clamp to
    * [0, 1]: each `if` adds its term of `DiabetesSum`. */
  method DiabetesScore(age: real, bmi: real, glucose: real, bloodPressure: real, insulin: real,
                       pregnancies: real, pedigree: real, activity: real, family: bool)
    returns (score: real)
    ensures score == DiabetesSum(age, bmi, glucose, bloodPressure, insulin, pregnancies, pedigree, activity, family)
  {
    score := 0.0;
    if age >= 45.0 {
      score := score + 0.2;
    } else if age >= 35.0 {
      score := score + 0.1;
    }
    if bmi >= 30.0 {
      score := score + 0.25;
    } else if bmi >= 25.0 {
      score := score + 0.15;
    }
    if glucose >= 126.0 {
      score := score + 0.4;
    } else if glucose >= 100.0 {
      score := score + 0.2;
    }
    ghost var partial := AgeTerm(age) + BmiTerm(bmi) + GlucoseTerm(glucose);
    assert score == partial;
    if bloodPressure >= 90.0 {
      score := score + 0.1;
    }
    if insulin > 120.0 {
      score := score + 0.15;
    }
    if family {
      score := score + 0.2;
    }
    partial := partial + (if bloodPressure >= 90.0 then 0.1 else 0.0) + (if insulin > 120.0 then 0.15 else 0.0) +
               (if family then 0.2 else 0.0);
    assert score == partial;
    if pregnancies > 0.0 {
      score := score + Min(pregnancies * 0.05, 0.15);
    }
    score := score + Min(pedigree * 0.3, 0.2);
    if activity < 2.0 {
      score := score + 0.1;
    } else if activity >= 5.0 {
      score := score - 0.05;
    }
  }

  /** The recommendation-building statements of `predict`. */
  method DiabetesRecommendations(bmi: real, glucose: real, activity: real, family: bool)
    returns (recs: seq<DiabetesTip>)
    ensures recs == DiabetesAdvice(bmi, glucose, activity, family)
  {
    recs := [];
    if glucose >= 100.0 {
      recs := recs + [MonitorGlucose];
    }
    if bmi >= 25.0 {
      recs := recs + [HealthyWeight];
    }
    assert recs == (if glucose >= 100.0 then [MonitorGlucose] else []) + (if bmi >= 25.0 then [HealthyWeight] else []);
    if activity < 3.0 {
      recs := recs + [MoreActivity];
    }
    if family {
      recs := recs + [FamilyScreening];
    }
    recs := recs + FixedDiabetesAdvice;
  }

  /** `DiabetesPredictor.predict` as written: the family history counts when
    * the raw value is truthy, and a non-numeric input lands in the `except`. */
  method DiabetesPredict(data: map<string, Value>) returns (r: DiabetesResponse)
    ensures r == DiabetesResult(data, Truthy(GetValue(data, FamilyKey, Bool(false))))
  {
    if !ScoredInputsNumeric(data) {
      return FailureResponse;
    }
    var age := NumberOf(Input(data, 0));
    var bmi := NumberOf(Input(data, 1));
    var glucose := NumberOf(Input(data, 2));
    var bloodPressure := NumberOf(Input(data, 3));
    var insulin := NumberOf(Input(data, 4));
    var pregnancies := NumberOf(Input(data, 5));
    var pedigree := NumberOf(Input(data, 6));
    var activity := NumberOf(Input(data, 7));
    var family := Truthy(GetValue(data, FamilyKey, Bool(false)));
    var score := DiabetesScore(age, bmi, glucose, bloodPressure, insulin, pregnancies, pedigree, activity, family);
    score := Max(0.0, Min(1.0, score));
    var recs := DiabetesRecommendations(bmi, glucose, activity, family);
    r := DiabetesResponse(false, score, DiabetesLevelOf(score), recs, 0.87, DiabetesRiskFactors(data));
  }

  /** A response fails exactly when a scored input is not a number; a
    * successful one has a score in [0, 1], the level of that score, at most
    * seven recommendations ending with the three fixed ones, and a glucose
    * reading of 126 or more, with a non-negative pedigree and under five
    * hours of activity a week, puts it at Medium or above. */
  lemma DiabetesResultFacts(data: map<string, Value>, family: bool)
    ensures DiabetesResult(data, family).failed <==> !ScoredInputsNumeric(data)
    ensures DiabetesResult(data, family).failed ==> DiabetesResult(data, family) == FailureResponse
    ensures var r := DiabetesResult(data, family);
            !r.failed ==> 0.0 <= r.riskScore <= 1.0 && r.riskLevel == DiabetesLevelOf(r.riskScore) &&
                          3 <= |r.recommendations| <= 7 &&
                          r.recommendations[|r.recommendations| - 3..] == FixedDiabetesAdvice
    ensures var r := DiabetesResult(data, family);
            !r.failed && NumberOf(Input(data, 2)) >= 126.0 && NumberOf(Input(data, 6)) >= 0.0 &&
            NumberOf(Input(data, 7)) < 5.0 ==>
              r.riskLevel != DiabetesLow
  {
  }

  /** A higher glucose reading never lowers the diabetes score. */
  lemma DiabetesScoreMonotoneInGlucose(age: real, bmi: real, g1: real, g2: real, bp: real, insulin: real,
                                       pregnancies: real, pedigree: real, activity: real, family: bool)
    requires g1 <= g2
    ensures Max(0.0, Min(1.0, DiabetesSum(age, bmi, g1, bp, insulin, pregnancies, pedigree, activity, family))) <=
            Max(0.0, Min(1.0, DiabetesSum(age, bmi, g2, bp, insulin, pregnancies, pedigree, activity, family)))
  {
  }

  /** ASCII lower-casing, the part of `str.lower` the answers below need. */
  function Lower(s: string): (r: string)
    ensures |r| == |s|
    ensures forall k :: 0 <= k < |s| ==> r[k] == (if 'A' <= s[k] <= 'Z' then (s[k] as int + 32) as char else s[k])
  {
    seq(|s|, k requires 0 <= k < |s| => if 'A' <= s[k] <= 'Z' then (s[k] as int + 32) as char else s[k])
  }

  /** How `preprocess_data` reads the family history: a string counts iff it
    * is "yes", "true" or "1" in any case; any other value by its truthiness. */
  function FamilyHistoryFlag(v: Value): bool
  {
    match v
    case Str(s) => Lower(s) in ["yes", "true", "1"]
    case _ => Truthy(v)
  }

  /** The diabetes prediction with the family history read as `preprocess_data`
    * reads it. */
  function IntendedDiabetesPrediction(data: map<string, Value>): (r: DiabetesResponse)
    ensures GetValue(data, FamilyKey, Bool(false)) == Str("No") ==> r == DiabetesResult(data, false)
    ensures !GetValue(data, FamilyKey, Bool(false)).Str? ==>
              r == DiabetesResult(data, Truthy(GetValue(data, FamilyKey, Bool(false))))
  {
    var v := GetValue(data, FamilyKey, Bool(false));
    assert v == Str("No") ==> Lower("No") == "no";
    DiabetesResult(data, FamilyHistoryFlag(v))
  }

  /** The answer "No" counts as a family history in `predict`: a request with
    * every other input at its default is rated High instead of Medium. */
  lemma FamilyHistoryNoCounts()
    ensures DiabetesResult(map[FamilyKey := Str("No")], Truthy(Str("No"))).riskLevel == DiabetesHigh
    ensures FamilyScreening in DiabetesResult(map[FamilyKey := Str("No")], Truthy(Str("No"))).recommendations
    ensures IntendedDiabetesPrediction(map[FamilyKey := Str("No")]).riskLevel == DiabetesMedium
  {
    var data := map[FamilyKey := Str("No")];
    assert forall k :: 0 <= k < |ScoredInputs| ==> ScoredInputs[k].0 !in data;
    assert forall k :: 0 <= k < |ScoredInputs| ==> Input(data, k) == ScoredInputs[k].1;
    assert ScoredInputsNumeric(data);
    assert DiabetesSum(30.0, 25.0, 100.0, 80.0, 80.0, 0.0, 0.5, 3.0, true) == 0.7;
    assert DiabetesSum(30.0, 25.0, 100.0, 80.0, 80.0, 0.0, 0.5, 3.0, false) == 0.5;
  }

  // ---------------------------------------------------------------------
  // Diabetes: risk factors and input cleaning
  // ---------------------------------------------------------------------

  /** The risk factors `_identify_risk_factors` can list, in the order of its
    * tests; `FactorText` gives their wording. */
  datatype DiabetesFactor =
    | AgeOver45 | Overweight | ElevatedGlucose | FamilyHistoryFactor | Sedentary | HighBloodPressure
  {
    /** The position of the factor's test. */
    function Rank(): nat
    {
      match this
      case AgeOver45 => 0
      case Overweight => 1
      case ElevatedGlucose => 2
      case FamilyHistoryFactor => 3
      case Sedentary => 4
      case HighBloodPressure => 5
    }
  }

  function FactorText(f: DiabetesFactor): string
  {
    match f
    case AgeOver45 => "Age over 45"
    case Overweight => "Overweight or obesity"
    case ElevatedGlucose => "Elevated glucose levels"
    case FamilyHistoryFactor => "Family history of diabetes"
    case Sedentary => "Sedentary lifestyle"
    case HighBloodPressure => "High blood pressure"
  }

  /** `data.get(key, 0)` on a value the caller has checked to be a number. */
  function NumberOr0(data: map<string, Value>, key: string): real
  {
    var v := GetValue(data, key, Int(0));
    if IsNumber(v) then NumberOf(v) else 0.0
  }

  /** The factors in the order of their tests. */
  const FactorsInOrder: seq<DiabetesFactor> :=
    [AgeOver45, Overweight, ElevatedGlucose, FamilyHistoryFactor, Sedentary, HighBloodPressure]

  lemma FactorAtItsRank(f: DiabetesFactor)
    ensures f.Rank() < |FactorsInOrder| && FactorsInOrder[f.Rank()] == f
  {
  }

  /** The factors the first `n` tests append: factor `k` exactly when test
    * `k` holds, in the order of the tests. */
  function Selected(tests: seq<bool>, n: nat): (factors: seq<DiabetesFactor>)
    requires n <= |tests| == |FactorsInOrder|
    ensures |factors| <= n
    ensures forall f :: f in factors <==> f.Rank() < n && tests[f.Rank()]
    ensures forall i, j :: 0 <= i < j < |factors| ==> factors[i].Rank() < factors[j].Rank() < n
    decreases n
  {
    if n == 0 then []
    else
      var prior := Selected(tests, n - 1);
      var last := FactorsInOrder[n - 1];
      assert last.Rank() == n - 1;
      forall f ensures f in prior + [last] <==> f.Rank() < n && (f in prior || f == last) {
        FactorAtItsRank(f);
      }
      forall f ensures f == last <==> f.Rank() == n - 1 {
        FactorAtItsRank(f);
      }
      if tests[n - 1] then prior + [last] else prior
  }

  /** The six tests of `_identify_risk_factors`, in source order. */
  function DiabetesTests(data: map<string, Value>): (tests: seq<bool>)
    ensures |tests| == 6
    ensures tests[0] == (NumberOr0(data, "age") >= 45.0) && tests[1] == (NumberOr0(data, "bmi") >= 25.0) &&
            tests[2] == (NumberOr0(data, "glucose_level") >= 100.0) &&
            tests[3] == Truthy(GetValue(data, FamilyKey, Bool(false))) &&
            tests[4] == (NumberOr0(data, "physical_activity") < 3.0) &&
            tests[5] == (NumberOr0(data, "blood_pressure") >= 90.0)
  {
    [NumberOr0(data, "age") >= 45.0, NumberOr0(data, "bmi") >= 25.0,
     NumberOr0(data, "glucose_level") >= 100.0, Truthy(GetValue(data, FamilyKey, Bool(false))),
     NumberOr0(data, "physical_activity") < 3.0, NumberOr0(data, "blood_pressure") >= 90.0]
  }

  /** `_identify_risk_factors`, which `predict` calls only after every scored
    * input has compared as a number: each factor is listed exactly when its
    * test holds, once, in the order of the tests. */
  function DiabetesRiskFactors(data: map<string, Value>): (factors: seq<DiabetesFactor>)
    ensures |factors| <= 6
    ensures AgeOver45 in factors <==> NumberOr0(data, "age") >= 45.0
    ensures Overweight in factors <==> NumberOr0(data, "bmi") >= 25.0
    ensures ElevatedGlucose in factors <==> NumberOr0(data, "glucose_level") >= 100.0
    ensures FamilyHistoryFactor in factors <==> Truthy(GetValue(data, FamilyKey, Bool(false)))
    ensures Sedentary in factors <==> NumberOr0(data, "physical_activity") < 3.0
    ensures HighBloodPressure in factors <==> NumberOr0(data, "blood_pressure") >= 90.0
    ensures forall i, j :: 0 <= i < j < |factors| ==> factors[i].Rank() < factors[j].Rank()
  {
    var tests := DiabetesTests(data);
    Selected(tests, 6)
  }

  /** The numeric fields `preprocess_data` converts, with the defaults it
    * substitutes for values `float()` rejects. */
  const CleanedFields: seq<(string, Value)> :=
    [("age", Int(30)), ("bmi", Int(25)), ("glucose_level", Int(100)), ("blood_pressure", Int(80)),
     ("insulin_level", Int(80)), ("pregnancies", Int(0)), ("skin_thickness", Int(20)),
     ("diabetes_pedigree_function", Float(0.5)), ("physical_activity", Int(3))]

  predicate IsCleanedField(key: string)
  {
    exists k :: 0 <= k < |CleanedFields| && CleanedFields[k].0 == key
  }

  /** `float(value)`, falling back to `default` on ValueError or TypeError;
    * string parsing is a parameter. */
  function FloatOrDefault(v: Value, default: Value, parseFloat: string -> Option<real>): (r: Value)
    ensures IsNumber(v) ==> r == Float(NumberOf(v))
    ensures v == NoneValue ==> r == default
    ensures v.Str? ==> r == (if parseFloat(v.s).Some? then Float(parseFloat(v.s).value) else default)
  {
    match v
    case Str(s) => (match parseFloat(s) case Some(x) => Float(x) case None => default)
    case NoneValue => default
    case _ => Float(NumberOf(v))
  }

  /** Diabetes `preprocess_data`: a copy of the request in which each numeric
    * field present becomes a float (or its default) and the family history
    * becomes a boolean; the caller's dictionary is a value here and so is
    * never changed. */
  method DiabetesPreprocess(data: map<string, Value>, parseFloat: string -> Option<real>)
    returns (processed: map<string, Value>)
    ensures processed.Keys == data.Keys
    ensures forall k :: 0 <= k < |CleanedFields| && CleanedFields[k].0 in data ==>
              processed[CleanedFields[k].0] == FloatOrDefault(data[CleanedFields[k].0], CleanedFields[k].1, parseFloat)
    ensures FamilyKey in data ==> processed[FamilyKey] == Bool(FamilyHistoryFlag(data[FamilyKey]))
    ensures forall key :: key in data && !IsCleanedField(key) && key != FamilyKey ==> processed[key] == data[key]
  {
    processed := data;
    var i := 0;
    while i < |CleanedFields|
      invariant 0 <= i <= |CleanedFields|
      invariant processed.Keys == data.Keys
      invariant forall k :: 0 <= k < i && CleanedFields[k].0 in data ==>
                  processed[CleanedFields[k].0] == FloatOrDefault(data[CleanedFields[k].0], CleanedFields[k].1, parseFloat)
      invariant forall key :: key in data && (forall k :: 0 <= k < i ==> CleanedFields[k].0 != key) ==> processed[key] == data[key]
    {
      var field := CleanedFields[i].0;
      if field in processed {
        processed := processed[field := FloatOrDefault(processed[field], CleanedFields[i].1, parseFloat)];
      }
      i := i + 1;
    }
    if FamilyKey in processed {
      assert !IsCleanedField(FamilyKey);
      processed := processed[FamilyKey := Bool(FamilyHistoryFlag(processed[FamilyKey]))];
    }
  }

  /** Cleaning leaves every cleaned field a number, so a cleaned request
    * never fails the diabetes score for those fields. */
  lemma CleanedValuesAreNumbers(v: Value, k: nat, parseFloat: string -> Option<real>)
    requires k < |CleanedFields|
    ensures IsNumber(FloatOrDefault(v, CleanedFields[k].1, parseFloat))
    ensures FamilyHistoryFlag(Str("Yes")) && FamilyHistoryFlag(Str("TRUE")) && !FamilyHistoryFlag(Str("No"))
  {
    assert Lower("Yes") == "yes";
    assert Lower("TRUE") == "true";
    assert Lower("No") == "no";
  }

  // ---------------------------------------------------------------------
  // Weighted field contribution
  // ---------------------------------------------------------------------

  /** The per-field weights of the heart-style contribution the diabetes
    * predictor ends up with (`risk_weights.get(field, 0.5)`). */
  function ContributionWeight(field: string): (w: real)
    ensures 0.3 <= w <= 0.9
  {
    if field == "age" then 0.8
    else if field == "cholesterol" then 0.9
    else if field == "resting_bp" then 0.85
    else if field == "max_heart_rate" then 0.7
    else if field == "exercise_angina" then 0.9
    else if field == "st_depression" then 0.8
    else if field == "chest_pain_type" then 0.6
    else if field == "fasting_blood_sugar" then 0.7
    else if field == "resting_ecg" then 0.5
    else if field == "st_slope" then 0.6
    else if field == "ca" then 0.85
    else if field == "thal" then 0.8
    else if field == "sex" then 0.3
    else 0.5
  }

  /** `calculate_field_risk_contribution`: `|n - 0.5| * 2 * w`. It is never
    * negative, at most `w` on [0, 1], zero exactly at the midpoint, and it is
    * the base class's default contribution scaled by the weight. */
  function WeightedContribution(field: string, value: Value, normalized: real): (c: real)
    ensures c >= 0.0
    ensures 0.0 <= normalized <= 1.0 ==> c <= ContributionWeight(field)
    ensures c == 0.0 <==> normalized == 0.5
    ensures c == BasePredictor.DefaultContribution(normalized) * ContributionWeight(field)
  {
    Abs(normalized - 0.5) * 2.0 * ContributionWeight(field)
  }

  // ---------------------------------------------------------------------
  // Parkinson's helpers
  // ---------------------------------------------------------------------

  /** The sum of the four motor item scores. */
  function MotorTotal(data: Record): real
  {
    Get(data, "tremor_severity", 0.0) + Get(data, "rigidity_score", 0.0) +
    Get(data, "bradykinesia_score", 0.0) + Get(data, "postural_instability", 0.0)
  }

  /** The Hoehn and Yahr stage the motor total maps to. */
  function StageOfMotorTotal(total: real): (stage: int)
    ensures 0 <= stage <= 4
    ensures stage == 0 <==> total == 0.0
    ensures stage == 4 <==> total > 12.0
  {
    if total == 0.0 then 0
    else if total <= 4.0 then 1
    else if total <= 8.0 then 2
    else if total <= 12.0 then 3
    else 4
  }

  /** `_estimate_disease_stage`. */
  function EstimateDiseaseStage(data: Record): (stage: int)
    ensures 0 <= stage <= 4
  {
    StageOfMotorTotal(MotorTotal(data))
  }

  /** For non-negative motor totals the stage never decreases as the total grows. */
  lemma StageMonotone(t1: real, t2: real)
    requires 0.0 <= t1 <= t2
    ensures StageOfMotorTotal(t1) <= StageOfMotorTotal(t2)
  {
  }

  /** A negative total (which the 0 to 4 item scales rule out) lands in stage 1. */
  lemma NegativeTotalIsStageOne(total: real)
    requires total < 0.0
    ensures StageOfMotorTotal(total) == 1
  {
  }

  /** `_interpret_motor_score`. */
  function InterpretMotorScore(score: int): (text: string)
    ensures text == "Normal" <==> score == 0
    ensures text == "Severe" <==> score < 0 || score > 3
  {
    if score == 0 then "Normal"
    else if score == 1 then "Slight"
    else if score == 2 then "Mild"
    else if score == 3 then "Moderate"
    else "Severe"
  }

  // ---------------------------------------------------------------------
  // Chronic kidney disease helpers
  // ---------------------------------------------------------------------

  const CkdStageLabels := ["Normal kidney function", "Stage 1 CKD (mild)", "Stage 2 CKD (mild to moderate)",
                           "Stage 3 CKD (moderate to severe)", "Stage 4 CKD (severe)", "Stage 5 CKD (kidney failure)"]

  /** The band `_determine_ckd_stage` picks, 0 for normal function up to 5. */
  function CkdStageIndex(creatinine: real, albumin: real): (n: nat)
    ensures n <= 5
    ensures n == 0 <==> creatinine < 1.2 && albumin == 0.0
    ensures n == 5 <==> creatinine >= 4.0
    ensures creatinine < 1.8 && albumin <= 2.0 ==> n <= 2
  {
    if creatinine < 1.2 && albumin == 0.0 then 0
    else if creatinine < 1.4 && albumin <= 1.0 then 1
    else if creatinine < 1.8 && albumin <= 2.0 then 2
    else if creatinine < 2.5 then 3
    else if creatinine < 4.0 then 4
    else 5
  }

  /** `_determine_ckd_stage`. */
  function DetermineCkdStage(data: Record): (text: string)
    ensures text in CkdStageLabels
  {
    CkdStageLabels[CkdStageIndex(Get(data, "sc", 1.0), Get(data, "al", 0.0))]
  }

  /** A higher creatinine never gives a milder stage, at a fixed
    * non-negative albumin grade. */
  lemma CkdStageMonotoneInCreatinine(c1: real, c2: real, albumin: real)
    requires c1 <= c2 && albumin >= 0.0
    ensures CkdStageIndex(c1, albumin) <= CkdStageIndex(c2, albumin)
  {
  }

  /** How many of the four progression risk factors are present. */
  function ProgressionRiskFactors(data: Record): (n: nat)
    ensures n <= 4
  {
    (if Get(data, "bp", 80.0) > 140.0 then 1 else 0) + (if Get(data, "bgr", 120.0) > 140.0 then 1 else 0) +
    (if Get(data, "al", 0.0) >= 2.0 then 1 else 0) + (if Get(data, "sc", 1.0) > 1.5 then 1 else 0)
  }

  const HighProgression := "High risk of progression"
  const ModerateProgression := "Moderate risk of progression"
  const LowProgression := "Low risk of progression"

  /** `_assess_progression_risk`. */
  method AssessProgressionRisk(data: Record) returns (text: string)
    ensures text == HighProgression <==> ProgressionRiskFactors(data) >= 3
    ensures text == ModerateProgression <==> ProgressionRiskFactors(data) == 2
    ensures text == LowProgression <==> ProgressionRiskFactors(data) <= 1
  {
    var riskFactors := 0;
    if Get(data, "bp", 80.0) > 140.0 {
      riskFactors := riskFactors + 1;
    }
    if Get(data, "bgr", 120.0) > 140.0 {
      riskFactors := riskFactors + 1;
    }
    if Get(data, "al", 0.0) >= 2.0 {
      riskFactors := riskFactors + 1;
    }
    if Get(data, "sc", 1.0) > 1.5 {
      riskFactors := riskFactors + 1;
    }
    assert riskFactors == ProgressionRiskFactors(data);
    if riskFactors >= 3 {
      text := HighProgression;
    } else if riskFactors >= 2 {
      text := ModerateProgression;
    } else {
      text := LowProgression;
    }
  }

  /** With the defaults (no readings at all) progression risk is low. */
  lemma EmptyRecordHasLowProgression()
    ensures ProgressionRiskFactors(map[]) == 0
  {
    assert Get(map[], "bp", 80.0) == 80.0 && Get(map[], "bgr", 120.0) == 120.0;
    assert Get(map[], "al", 0.0) == 0.0 && Get(map[], "sc", 1.0) == 1.0;
  }

  // ---------------------------------------------------------------------
  // Liver helpers
  // ---------------------------------------------------------------------

  /** The two laboratory terms of the Child-Pugh score, each 1 to 3. */
  function BilirubinPoints(bili: real): (p: int)
    ensures 1 <= p <= 3
  {
    if bili < 2.0 then 1 else if bili <= 3.0 then 2 else 3
  }

  function AlbuminPoints(albumin: real): (p: int)
    ensures 1 <= p <= 3
  {
    if albumin > 3.5 then 1 else if albumin >= 2.8 then 2 else 3
  }

  /** `_calculate_child_pugh_score`: two laboratory terms plus 2 each for
    * the unrecorded ascites, encephalopathy and INR. */
  method ChildPughScore(data: Record) returns (score: int)
    ensures score == BilirubinPoints(Get(data, "total_bilirubin", 0.0)) + AlbuminPoints(Get(data, "albumin", 0.0)) + 6
    ensures 8 <= score <= 12
  {
    score := 0;
    var bili := Get(data, "total_bilirubin", 0.0);
    if bili < 2.0 {
      score := score + 1;
    } else if bili <= 3.0 {
      score := score + 2;
    } else {
      score := score + 3;
    }
    var albumin := Get(data, "albumin", 0.0);
    if albumin > 3.5 {
      score := score + 1;
    } else if albumin >= 2.8 {
      score := score + 2;
    } else {
      score := score + 3;
    }
    score := score + 2;
    score := score + 2;
    score := score + 2;
  }

  const ClassA := "Class A (mild)"
  const ClassB := "Class B (moderate)"
  const ClassC := "Class C (severe)"

  /** `_get_child_pugh_class`. */
  function ChildPughClass(score: int): (text: string)
    ensures text == ClassA <==> score <= 6
    ensures text == ClassB <==> 7 <= score <= 9
    ensures text == ClassC <==> score >= 10
  {
    if score <= 6 then ClassA else if score <= 9 then ClassB else ClassC
  }

  /** Every score the calculator can produce is at least 8, so no patient is
    * ever placed in Class A. */
  lemma ChildPughNeverClassA(bili: real, albumin: real)
    ensures ChildPughClass(BilirubinPoints(bili) + AlbuminPoints(albumin) + 6) != ClassA
  {
  }

  /** How many of the three fibrosis markers fire (the platelet test is
    * commented out in the source). */
  function FibrosisMarkers(data: Record): (n: nat)
    ensures n <= 3
  {
    var ast := Get(data, "aspartate_aminotransferase", 0.0);
    var alt := Get(data, "alamine_aminotransferase", 0.0);
    (if Get(data, "age", 0.0) > 50.0 then 1 else 0) +
    (if alt > 0.0 && ast / alt > 1.0 then 1 else 0) +
    (if Get(data, "albumin", 4.0) < 3.5 then 1 else 0)
  }

  /** `_calculate_fibrosis_score`: markers over 4. */
  method FibrosisScore(data: Record) returns (score: real)
    ensures score == FibrosisMarkers(data) as real / 4.0
    ensures score in {0.0, 0.25, 0.5, 0.75}
  {
    var count := 0;
    if Get(data, "age", 0.0) > 50.0 {
      count := count + 1;
    }
    var ast := Get(data, "aspartate_aminotransferase", 0.0);
    var alt := Get(data, "alamine_aminotransferase", 0.0);
    if alt > 0.0 && ast / alt > 1.0 {
      count := count + 1;
    }
    if Get(data, "albumin", 4.0) < 3.5 {
      count := count + 1;
    }
    score := count as real / 4.0;
  }

  const StageF01 := "F0-F1 (minimal fibrosis)"
  const StageF2 := "F2 (moderate fibrosis)"
  const StageF3 := "F3 (advanced fibrosis)"
  const StageF4 := "F4 (cirrhosis)"

  /** `_get_fibrosis_stage`. */
  function FibrosisStage(score: real): (text: string)
    ensures text == StageF4 <==> score >= 0.75
    ensures text == StageF01 <==> score < 0.25
  {
    if score < 0.25 then StageF01 else if score < 0.5 then StageF2 else if score < 0.75 then StageF3 else StageF4
  }

  /** At most three markers fire, so the score stays below 0.75 ... except
    * when all three fire, which gives exactly 0.75 and F4. */
  lemma FibrosisF4OnlyWithAllMarkers(data: Record)
    ensures FibrosisStage(FibrosisMarkers(data) as real / 4.0) == StageF4 <==> FibrosisMarkers(data) == 3
  {
  }

  // ---------------------------------------------------------------------
  // Dementia helpers
  // ---------------------------------------------------------------------

  /** `_count_vascular_factors`. */
  method CountVascularFactors(data: Record) returns (factors: int)
    ensures factors == VascularFactors(data)
    ensures 0 <= factors <= 4
  {
    factors := 0;
    if Flag(data, "cardiovascular_disease") {
      factors := factors + 1;
    }
    if Flag(data, "diabetes") {
      factors := factors + 1;
    }
    if Flag(data, "hypertension") {
      factors := factors + 1;
    }
    if Get(data, "smoking_history", 0.0) >= 2.0 {
      factors := factors + 1;
    }
  }

  function VascularFactors(data: Record): (n: nat)
    ensures n <= 4
    ensures n == 0 <==> !Flag(data, "cardiovascular_disease") && !Flag(data, "diabetes") &&
                        !Flag(data, "hypertension") && Get(data, "smoking_history", 0.0) < 2.0
  {
    (if Flag(data, "cardiovascular_disease") then 1 else 0) + (if Flag(data, "diabetes") then 1 else 0) +
    (if Flag(data, "hypertension") then 1 else 0) + (if Get(data, "smoking_history", 0.0) >= 2.0 then 1 else 0)
  }

  /** The age points of the dementia score. */
  function DementiaAgePoints(age: real): (p: int)
    ensures 0 <= p <= 3
  {
    if age > 85.0 then 3 else if age > 75.0 then 2 else if age > 65.0 then 1 else 0
  }

  /** The cognitive points: a low MMSE, memory complaints, poor function. */
  function CognitivePoints(data: Record): (p: int)
    ensures 0 <= p <= 6
  {
    (if Get(data, "mmse_score", 30.0) < 24.0 then 3 else 0) +
    (if Flag(data, "memory_complaints") then 1 else 0) +
    (if Get(data, "functional_assessment", 10.0) < 7.0 then 2 else 0)
  }

  /** The protective factors, each worth one point off. */
  function ProtectivePoints(data: Record): (p: int)
    ensures 0 <= p <= 3
  {
    (if Get(data, "education_years", 12.0) > 16.0 then 1 else 0) +
    (if Get(data, "physical_activity", 0.0) >= 2.0 then 1 else 0) +
    (if Get(data, "social_isolation", 0.0) < 3.0 then 1 else 0)
  }

  /** The dementia score before the floor at 0. */
  function DementiaRaw(data: Record): int
  {
    DementiaAgePoints(Get(data, "age", 0.0)) + CognitivePoints(data) +
    (if Flag(data, "family_history_dementia") then 2 else 0) +
    VascularFactors(data) - ProtectivePoints(data)
  }

  /** `_calculate_dementia_risk_score`. */
  method DementiaRiskScore(data: Record) returns (score: int)
    ensures score == if DementiaRaw(data) < 0 then 0 else DementiaRaw(data)
    ensures 0 <= score <= 15
  {
    var risk := 0;
    var age := Get(data, "age", 0.0);
    if age > 85.0 {
      risk := risk + 3;
    } else if age > 75.0 {
      risk := risk + 2;
    } else if age > 65.0 {
      risk := risk + 1;
    }
    assert risk == DementiaAgePoints(age);
    if Get(data, "mmse_score", 30.0) < 24.0 {
      risk := risk + 3;
    }
    if Flag(data, "memory_complaints") {
      risk := risk + 1;
    }
    if Get(data, "functional_assessment", 10.0) < 7.0 {
      risk := risk + 2;
    }
    assert risk == DementiaAgePoints(age) + CognitivePoints(data);
    if Flag(data, "family_history_dementia") {
      risk := risk + 2;
    }
    var vascular := CountVascularFactors(data);
    risk := risk + vascular;
    ghost var before := risk;
    if Get(data, "education_years", 12.0) > 16.0 {
      risk := risk - 1;
    }
    if Get(data, "physical_activity", 0.0) >= 2.0 {
      risk := risk - 1;
    }
    if Get(data, "social_isolation", 0.0) < 3.0 {
      risk := risk - 1;
    }
    assert risk == before - ProtectivePoints(data);
    score := if risk < 0 then 0 else risk;
  }

  /** The raw score ranges over [-3, 15]: every protective factor can only
    * pull it down by one. */
  lemma DementiaRawRange(data: Record)
    ensures -3 <= DementiaRaw(data) <= 15
  {
  }

  // ---------------------------------------------------------------------
  // Feature tables
  // ---------------------------------------------------------------------

  const HeartSchema: BasePredictor.Schema :=
    [("age", BasePredictor.IntField), ("sex", BasePredictor.IntField), ("chest_pain_type", BasePredictor.IntField),
     ("resting_bp", BasePredictor.FloatField), ("cholesterol", BasePredictor.FloatField),
     ("fasting_blood_sugar", BasePredictor.IntField), ("resting_ecg", BasePredictor.IntField),
     ("max_heart_rate", BasePredictor.FloatField), ("exercise_angina", BasePredictor.IntField),
     ("st_depression", BasePredictor.FloatField), ("st_slope", BasePredictor.IntField),
     ("smoking", BasePredictor.IntField), ("family_history", BasePredictor.IntField)]

  const HeartFeatures: Features.FeatureTable :=
    [("age", 100.0), ("sex", 1.0), ("chest_pain_type", 3.0), ("resting_bp", 200.0), ("cholesterol", 400.0),
     ("fasting_blood_sugar", 1.0), ("resting_ecg", 2.0), ("max_heart_rate", 220.0), ("exercise_angina", 1.0),
     ("st_depression", 5.0), ("st_slope", 2.0), ("smoking", 1.0), ("family_history", 1.0)]

  const StrokeFeatures: Features.FeatureTable :=
    [("age", 100.0), ("gender", 1.0), ("hypertension", 1.0), ("heart_disease", 1.0), ("ever_married", 1.0),
     ("work_type", 4.0), ("residence_type", 1.0), ("avg_glucose_level", 300.0), ("bmi", 50.0),
     ("smoking_status", 3.0), ("alcohol_consumption", 3.0), ("physical_activity", 3.0), ("family_history_stroke", 1.0)]

  const StrokeFields := ["age", "gender", "hypertension", "heart_disease", "ever_married", "work_type",
                         "residence_type", "avg_glucose_level", "bmi", "smoking_status", "alcohol_consumption",
                         "physical_activity", "family_history_stroke"]

  const CancerFeatures: Features.FeatureTable :=
    [("age", 100.0), ("gender", 1.0), ("cancer_type", 4.0), ("family_history", 1.0), ("smoking_history", 3.0),
     ("alcohol_consumption", 3.0), ("bmi", 50.0), ("physical_activity", 3.0), ("diet_quality", 3.0),
     ("sun_exposure", 3.0), ("occupational_exposure", 1.0), ("hormonal_factors", 1.0), ("previous_cancer", 1.0)]

  const CancerFields := ["age", "gender", "cancer_type", "family_history", "smoking_history", "alcohol_consumption",
                         "bmi", "physical_activity", "diet_quality", "sun_exposure", "occupational_exposure",
                         "hormonal_factors", "previous_cancer"]

  const KidneyFeatures: Features.FeatureTable :=
    [("age", 100.0), ("blood_pressure", 200.0), ("specific_gravity", 1.0), ("albumin", 5.0), ("sugar", 5.0),
     ("red_blood_cells", 1.0), ("pus_cell", 1.0), ("pus_cell_clumps", 1.0), ("bacteria", 1.0),
     ("blood_glucose_random", 500.0), ("blood_urea", 200.0), ("serum_creatinine", 10.0), ("sodium", 200.0),
     ("potassium", 10.0), ("hemoglobin", 20.0), ("packed_cell_volume", 100.0), ("white_blood_cell_count", 20000.0),
     ("red_blood_cell_count", 10.0), ("hypertension", 1.0), ("diabetes_mellitus", 1.0),
     ("coronary_artery_disease", 1.0), ("appetite", 1.0), ("pedal_edema", 1.0), ("anemia", 1.0)]

  const KidneyFields := ["age", "blood_pressure", "specific_gravity", "albumin", "sugar", "red_blood_cells",
                         "pus_cell", "pus_cell_clumps", "bacteria", "blood_glucose_random", "blood_urea",
                         "serum_creatinine", "sodium", "potassium", "hemoglobin", "packed_cell_volume",
                         "white_blood_cell_count", "red_blood_cell_count", "hypertension", "diabetes_mellitus",
                         "coronary_artery_disease", "appetite", "pedal_edema", "anemia"]

  const LiverFeatures: Features.FeatureTable :=
    [("age", 100.0), ("gender", 1.0), ("total_bilirubin", 10.0), ("direct_bilirubin", 5.0),
     ("alkaline_phosphotase", 1000.0), ("alamine_aminotransferase", 200.0), ("aspartate_aminotransferase", 200.0),
     ("total_proteins", 10.0), ("albumin", 5.0), ("albumin_globulin_ratio", 3.0), ("alcohol_consumption", 3.0),
     ("smoking", 1.0), ("bmi", 50.0), ("diabetes", 1.0), ("family_history", 1.0)]

  const LiverFields := ["age", "gender", "total_bilirubin", "direct_bilirubin", "alkaline_phosphotase",
                        "alamine_aminotransferase", "aspartate_aminotransferase", "total_proteins", "albumin",
                        "albumin_globulin_ratio", "alcohol_consumption", "smoking", "bmi", "diabetes", "family_history"]

  const AlzheimerFeatures: Features.FeatureTable :=
    [("age", 100.0), ("gender", 1.0), ("education_years", 20.0), ("mmse_score", 30.0), ("memory_complaints", 1.0),
     ("functional_assessment", 10.0), ("depression_score", 15.0), ("anxiety_level", 10.0), ("sleep_quality", 10.0),
     ("social_isolation", 10.0), ("physical_activity", 3.0), ("family_history_dementia", 1.0),
     ("cardiovascular_disease", 1.0), ("diabetes", 1.0), ("hypertension", 1.0), ("smoking_history", 3.0),
     ("alcohol_consumption", 3.0)]

  const AlzheimerFields := ["age", "gender", "education_years", "mmse_score", "memory_complaints",
                            "functional_assessment", "depression_score", "anxiety_level", "sleep_quality",
                            "social_isolation", "physical_activity", "family_history_dementia",
                            "cardiovascular_disease", "diabetes", "hypertension", "smoking_history", "alcohol_consumption"]

  const ParkinsonFeatures: Features.FeatureTable :=
    [("age", 100.0), ("gender", 1.0), ("mdvp_fo", 300.0), ("mdvp_fhi", 500.0), ("mdvp_flo", 200.0),
     ("mdvp_jitter_percent", 10.0), ("mdvp_jitter_abs", 0.1), ("mdvp_rap", 0.1), ("mdvp_ppq", 0.1),
     ("jitter_ddp", 0.1), ("mdvp_shimmer", 0.1), ("mdvp_shimmer_db", 2.0), ("shimmer_apq3", 0.1),
     ("shimmer_apq5", 0.1), ("mdvp_apq", 0.1), ("shimmer_dda", 0.1), ("nhr", 0.1), ("hnr", 50.0), ("rpde", 1.0),
     ("dfa", 1.0), ("spread1", 1.0), ("spread2", 1.0), ("d2", 5.0), ("ppe", 1.0), ("tremor_severity", 4.0),
     ("rigidity_score", 4.0), ("bradykinesia_score", 4.0), ("postural_instability", 4.0), ("family_history", 1.0)]

  const ParkinsonFields := ["age", "gender", "mdvp_fo", "mdvp_fhi", "mdvp_flo", "mdvp_jitter_percent",
                            "mdvp_jitter_abs", "mdvp_rap", "mdvp_ppq", "jitter_ddp", "mdvp_shimmer", "mdvp_shimmer_db",
                            "shimmer_apq3", "shimmer_apq5", "mdvp_apq", "shimmer_dda", "nhr", "hnr", "rpde", "dfa",
                            "spread1", "spread2", "d2", "ppe", "tremor_severity", "rigidity_score",
                            "bradykinesia_score", "postural_instability", "family_history"]

  /** Every disease `preprocess_data` reads its predictor's required fields
    * in declaration order, one feature each, and never divides by zero. */
  lemma HeartFeaturesAligned()
    ensures Features.ScalesNonZero(HeartFeatures) && Features.Names(HeartFeatures) == Features.Names(HeartSchema)
  {
  }

  lemma StrokeFeaturesAligned()
    ensures Features.ScalesNonZero(StrokeFeatures) && Features.Names(StrokeFeatures) == StrokeFields
  {
  }

  lemma CancerFeaturesAligned()
    ensures Features.ScalesNonZero(CancerFeatures) && Features.Names(CancerFeatures) == CancerFields
  {
  }

  lemma KidneyFeaturesAligned()
    ensures Features.ScalesNonZero(KidneyFeatures) && Features.Names(KidneyFeatures) == KidneyFields
  {
  }

  lemma LiverFeaturesAligned()
    ensures Features.ScalesNonZero(LiverFeatures) && Features.Names(LiverFeatures) == LiverFields
  {
  }

  lemma AlzheimerFeaturesAligned()
    ensures Features.ScalesNonZero(AlzheimerFeatures) && Features.Names(AlzheimerFeatures) == AlzheimerFields
  {
  }

  lemma ParkinsonFeaturesAligned()
    ensures Features.ScalesNonZero(ParkinsonFeatures) && Features.Names(ParkinsonFeatures) == ParkinsonFields
  {
  }
}
