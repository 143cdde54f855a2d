# Health risk predictors of gods-health-ai, modelled in Dafny

gods-health-ai is a web service. It accepts a patient's measurements and
answers as a JSON object and returns a risk prediction for a disease or
condition. The prediction has a score in [0, 1], a risk level (Low, Medium,
High, Very High), ranked risk factors and recommendations. This project
models the risk-assessment core of the backend, with one Dafny module per
source file:

| module | file | what it holds |
|---|---|---|
| `BasePredictor` (`base_predictor.dfy`) | `backend/predictors/base_predictor.py` | the shared pipeline: input validation and coercion against a predictor's required-field schema, the clamp of the model score, risk levels and severity, the default field contribution, the stable ranking of risk factors, the enhanced recommendations and their 15-item cap, the confidence value, the chart payload and `predict` with the learned model, the preprocessing, the contribution rule and the factor advice of the concrete predictor as parameters |
| `LegacyPredictors` (`legacy_predictors.dfy`) | `backend/predictors.py` | the rule-based predictors of the single-file module (heart disease, stroke, kidney disease, sepsis, pregnancy complications and anemia), each accumulating a score term by term from `.get` lookups with defaults |
| `DiseasePredictors` (`disease_predictors.dfy`) | `backend/predictors/disease_predictors.py` | the diabetes predictor's own `predict`, input cleaning and risk factors; the weighted field contribution; the Child-Pugh, fibrosis, CKD-stage, kidney-progression, dementia and Parkinson's scores and bands; the feature tables of the heart, stroke, cancer, kidney, liver, Alzheimer's and Parkinson's predictors |
| `SpecializedPredictors` (`specialized_predictors.dfy`) | `backend/predictors/specialized_predictors.py` | the COVID-19, asthma/COPD, anemia and thyroid helpers, the weighted totals of `analyze_health_metrics`, the lifestyle impacts and recommendation lists, the `preprocess_data` feature vectors of these four predictors with their derived entries, and the cancer-recurrence feature vector |
| `LifestylePredictors` (`lifestyle_predictors.dfy`) | `backend/predictors/lifestyle_predictors.py` | the sleep-apnea, cholesterol, mental-health, hypertension and diet scores, the blood-pressure, sleep and cholesterol classifiers and the obesity features |
| `ConditionPredictors` (`condition_predictors.dfy`) | `backend/predictors/condition_predictors.py` | the sepsis, ICU-mortality and post-surgery analyses, the post-surgery contributing factors, the lifestyle-impact keys and the feature tables of the sepsis, readmission, ICU, post-surgery and pregnancy predictors |
| `Wrappers`, `Records`, `Scoring`, `Features` | shared | Option/Result; the input record and Python's truthiness; the score-cap/three-band shape of the `_assess_*` helpers; feature tables and vectors |

How the model reads the source:

- Scores and measurements are exact `real` numbers. Python's floats and
  `round(...)` are not modelled.
- Most helpers only do arithmetic and comparisons. There an input is a
  numeric record `map<string, real>`, a flag is 0 or 1, and
  `data.get(k, d)` is `Records.Get(data, k, d)`. Validation and the diabetes
  predictor inspect the dynamic type of a value, so there the record keeps
  each value as a `Value` (int, float, bool, string or None).
- A `data[k]` on a missing key raises KeyError. The model writes this as a
  `None` result, or it takes the looked-up values as parameters.
- Note, advice and recommendation texts are enumeration constructors. Each
  stands for one fixed string of the source. Where the exact wording matters
  (validation errors, the base recommendation banks), it is kept as a string.
- The learned model's probability is an input of `BasePredictor.Predict`.
  String parsing (`float(s)`, `int(s)`) and `str(x)` are parameters of
  validation.
- Some methods in the source update a list step by step (`factors.append`,
  `score += ...`). These are Dafny methods with loops or sequential updates.
  Each is proved equal to a specification function, and the properties are
  lemmas about that function. The pure computations are functions.

## Model

| member | source | states |
|---|---|---|
| BasePredictor.Truncate | backend/predictors/base_predictor.py:52-54 | `int(x)` of a float lies within one of `x`, rounding toward zero: non-negative for non-negative `x`, non-positive otherwise |
| BasePredictor.CoerceField | backend/predictors/base_predictor.py:45-58 | a coerced field conforms to its declared type, a field that already conforms is kept unchanged, and a failure names the field and is not a missing-field error |
| BasePredictor.ValidateInput | backend/predictors/base_predictor.py:38-60 | validation walks the schema in order: it succeeds iff every field is present and coercible, then every required field holds its coerced, conforming value; otherwise it reports the first failing field; it never adds or drops a key and leaves fields outside the schema untouched |
| BasePredictor.ValidatedFacts | backend/predictors/base_predictor.py:38-60 | the same properties for the reference meaning of validation, independent of the loop |
| BasePredictor.Clamp01 | backend/predictors/base_predictor.py:367-368 | the clamped score lies in [0, 1], equals the raw score inside that range and the nearer bound outside it |
| BasePredictor.CalculateRiskLevel | backend/predictors/base_predictor.py:62-71 | Low iff the score is below 0.3, Moderate iff in [0.3, 0.6), High iff in [0.6, 0.8), Very High iff at least 0.8 |
| BasePredictor.RiskLevelMonotone | backend/predictors/base_predictor.py:62-71 | a higher score never gets a lower risk level |
| BasePredictor.CategorizeFieldRisk | backend/predictors/base_predictor.py:276-285 | a factor's label is Low, Moderate, High or Very High exactly on [.., 0.2), [0.2, 0.5), [0.5, 0.8) and [0.8, ..) |
| BasePredictor.RiskColor | backend/predictors/base_predictor.py:319-328 | green, yellow, orange and red exactly on the same four intervals |
| BasePredictor.ColorMatchesCategory | backend/predictors/base_predictor.py:276-328 | a factor's colour is the colour of its label, and distinct labels have distinct colours |
| BasePredictor.ColorsMatchCategories | backend/predictors/base_predictor.py:276-328 | the colour agrees with the label for every contribution |
| BasePredictor.AssessSeverity | backend/predictors/base_predictor.py:231-242 | each of the five severity texts is returned exactly on its band, cut at 0.2, 0.4, 0.6 and 0.8 |
| BasePredictor.SeverityRefinesRiskLevel | backend/predictors/base_predictor.py:62-71 | the severity band refines the risk level: the High and Very High severities coincide with those levels, and the two lowest severities cover Low plus [0.3, 0.4) |
| BasePredictor.DefaultContribution | backend/predictors/base_predictor.py:271-274 | the default contribution is non-negative, at most 1 for a feature in [0, 1], zero exactly at 0.5, and its square is four times the squared distance from 0.5 |
| BasePredictor.Recommendations | backend/predictors/base_predictor.py:73-105 | the advice bank has three items for Low and four for every other level |
| BasePredictor.RecommendationsDistinct | backend/predictors/base_predictor.py:73-105 | no bank repeats an item |
| BasePredictor.LifestyleRecommendations | backend/predictors/base_predictor.py:297-306 | the three lifestyle items appear exactly above a score of 0.5 |
| BasePredictor.MonitoringRecommendations | backend/predictors/base_predictor.py:308-317 | the three monitoring items appear exactly for High and Very High |
| BasePredictor.CandidatesExactly | backend/predictors/base_predictor.py:124-138 | the candidate list holds exactly the fields with a feature and a contribution above 0.1, each paired with its own feature, and no more entries than fields or features |
| BasePredictor.InsertDescMembers | backend/predictors/base_predictor.py:141 | inserting into the sorted list adds the element and keeps all others |
| BasePredictor.InsertDescSorted | backend/predictors/base_predictor.py:141 | insertion keeps the list sorted largest first and is a permutation of the input plus the element |
| BasePredictor.InsertDescStable | backend/predictors/base_predictor.py:141 | insertion keeps the relative order of equal contributions |
| BasePredictor.StableSortDescSorted | backend/predictors/base_predictor.py:141 | the sort returns a permutation of its input, largest contribution first |
| BasePredictor.StableSortDescStable | backend/predictors/base_predictor.py:141 | the sort is stable, as Python's `list.sort` is: equal contributions keep their schema order |
| BasePredictor.Take | backend/predictors/base_predictor.py:142 | a slice `[:n]` is the prefix of length `min(n, len)` |
| BasePredictor.AnalyzeRiskFactors | backend/predictors/base_predictor.py:118-142 | the loop returns the ranked list: at most ten factors, sorted largest first, each above 0.1, labelled by its own contribution and built from a field and the feature at its position |
| BasePredictor.TopOfSorted | backend/predictors/base_predictor.py:141-142 | cutting the sorted list keeps at most `n` elements, keeps them sorted and invents none |
| BasePredictor.RankedFactorsFacts | backend/predictors/base_predictor.py:118-142 | the properties of the ranked list, stated on the specification function |
| BasePredictor.TopTenDominates | backend/predictors/base_predictor.py:141-142 | the kept factors are a sub-multiset of the candidates, all of them when there are at most ten, and every dropped candidate ranks no higher than every kept one |
| BasePredictor.FactorAdvice | backend/predictors/base_predictor.py:292-295 | the base class's advice is never empty, so the truthiness test on it always passes |
| BasePredictor.SharedAdviceAddedOnce | backend/predictors/base_predictor.py:153-156 | an advice rule that maps two factors to one text, as the stroke override does, puts that text in the list once |
| BasePredictor.AddAdviceFacts | backend/predictors/base_predictor.py:153-156 | for any advice rule, the deduplicating pass only appends, at most one item per factor, keeps a duplicate-free list duplicate-free, makes every factor's non-empty advice present and adds nothing else: empty (falsy) advice is skipped |
| BasePredictor.AllRecommendationsFitCap | backend/predictors/base_predictor.py:144-166 | at most fifteen items are ever composed |
| BasePredictor.EnhancedRecommendations | backend/predictors/base_predictor.py:144-166 | for any advice rule, the composed list starts with the level's bank, holds the non-empty advice of each of the top five factors, the lifestyle block exactly above 0.5 and the monitoring block exactly for High and Very High, and the cut at fifteen drops nothing |
| BasePredictor.RecommendationContents | backend/predictors/base_predictor.py:144-166 | the same contents stated on the specification function |
| BasePredictor.BaseAdviceAlwaysListed | backend/predictors/base_predictor.py:144-166 | with the base class's advice, every one of the top five factors has its advice in the list |
| BasePredictor.Confidence | backend/predictors/base_predictor.py:168-184 | the confidence is undefined (division by zero) exactly for a predictor without required fields, otherwise lies in [0.60, 0.95] and equals the raw weighted mix whenever that lies in range |
| BasePredictor.ConfidenceMonotoneInProvided | backend/predictors/base_predictor.py:168-184 | providing more non-empty values never lowers the confidence |
| BasePredictor.ConfidenceMonotoneInFactors | backend/predictors/base_predictor.py:168-184 | more ranked factors never lower the confidence |
| BasePredictor.GenerateChartData | backend/predictors/base_predictor.py:186-206 | the gauge lies in [0, 100] for a score in [0, 1], its five ranges tile 0 to 100, and the factor chart lists the first eight factors with their contribution times 100 and the colour of their label |
| BasePredictor.PredictedFailures | backend/predictors/base_predictor.py:347-393 | with hooks that do not raise, a prediction fails exactly on invalid input or a predictor without fields, and invalid input reports the validation error |
| BasePredictor.PredictedFacts | backend/predictors/base_predictor.py:347-393 | a successful prediction has a score in [0, 1], the level and severity of that score, at most ten sorted factors, at most fifteen recommendations starting with the level's bank, a confidence in [0.60, 0.95] and a gauge in [0, 100] |
| BasePredictor.Predict | backend/predictors/base_predictor.py:347-393 | the step-by-step prediction (validate, preprocess, score, clamp, level, recommendations, factors) equals the reference prediction whose properties PredictedFacts and PredictedFailures state |
| LegacyPredictors.CalculateRiskLevel | backend/predictors.py:27-38 | the legacy risk level is Low, Moderate, High or Very High exactly below 0.3, in [0.3, 0.6), in [0.6, 0.8) and from 0.8 |
| LegacyPredictors.SameThresholdsAsPackage | backend/predictors.py:27-38 | the legacy classifier agrees with the package's `calculate_risk_level` on every score |
| LegacyPredictors.IfFlag | backend/predictors.py:59-60 | `w if flag else 0` adds the weight exactly when the reading is truthy |
| LegacyPredictors.HeartPredict | backend/predictors.py:46-78 | the heart prediction carries the additive score, its risk level, the recommendations and confidence 0.85 |
| LegacyPredictors.HeartScoreBounds | backend/predictors.py:46-78 | for non-negative readings the heart score lies in [0, 1]; the recommendations always end with exercise and diet and include quitting smoking exactly for smokers |
| LegacyPredictors.HeartScenario | backend/predictors.py:46-78 | a 70-year-old diabetic smoker with cholesterol 260 and pressure 150 reaches the maximal score 1.0, Very High, and is told to quit smoking |
| LegacyPredictors.HeartWeight | backend/predictors.py:216-224 | every field weight lies in [0.1, 0.25] |
| LegacyPredictors.HeartContribution | backend/predictors.py:214-235 | a field's contribution never exceeds its weight (for an unlisted field, when the feature lies in [-1, 1]); flags contribute their weight exactly when set and 0 otherwise; contributions are non-negative except for a negative age |
| LegacyPredictors.FraminghamRisk | backend/predictors.py:281-297 | the step-by-step accumulation equals the reference sum capped at 1, and anyone over 90 is capped |
| LegacyPredictors.FraminghamSum | backend/predictors.py:281-296 | every increment is non-negative, so the uncapped sum is too |
| LegacyPredictors.FraminghamSpec | backend/predictors.py:281-297 | the Framingham-equivalent risk lies in [0, 1] |
| LegacyPredictors.CategorizeOverallRisk | backend/predictors.py:299-307 | low below 0.1, intermediate in [0.1, 0.2), high from 0.2, each in both directions |
| LegacyPredictors.SmokerIsNotLowRisk | backend/predictors.py:281-307 | a smoker is never in the low cardiovascular category |
| LegacyPredictors.PyIndex | backend/predictors.py:348 | Python list indexing succeeds exactly for `-len <= i < len` and yields an element of the list |
| LegacyPredictors.Lookup | backend/predictors.py:347-354 | `table[min(level, 3)]` saturates at the last entry for any level of 3 or more and only ever yields a table entry |
| LegacyPredictors.StrokePredict | backend/predictors.py:316-396 | the step-by-step stroke prediction equals the reference prediction, including its failure on an unusable lookup level |
| LegacyPredictors.StrokeScoreBounds | backend/predictors.py:333-367 | the stroke score is capped at 1 and non-negative for non-negative age and glucose |
| LegacyPredictors.StrokeRecommendationsEnd | backend/predictors.py:371-389 | the stroke recommendations always end with the exercise and diet items |
| LegacyPredictors.StrokeLookupsSucceed | backend/predictors.py:347-354 | the prediction succeeds whenever the three lifestyle levels are absent or non-negative whole numbers |
| LegacyPredictors.StrokeTablesSaturate | backend/predictors.py:347-354 | levels of 3 or more read the last table entry, and level -1 reads the last smoking entry by negative indexing |
| LegacyPredictors.KidneyPredict | backend/predictors.py:472-500 | the kidney prediction carries the additive score, its level, the fixed recommendations and confidence 0.80 |
| LegacyPredictors.KidneyScoreUncapped | backend/predictors.py:472-500 | for non-negative readings the kidney score is non-negative; albumin 4 already makes it Very High and albumin 5 pushes it past 1, since it is never capped |
| LegacyPredictors.SepsisCount | backend/predictors.py:632-666 | at most four criteria hold; the count is 0 exactly when none does and 4 exactly when all do |
| LegacyPredictors.SepsisPredict | backend/predictors.py:632-666 | the sepsis score is a quarter per criterion met, with its level, the fixed recommendations and confidence 0.88 |
| LegacyPredictors.SepsisLevels | backend/predictors.py:632-666 | the five possible scores map to Low for at most one criterion, then Moderate, High and Very High |
| LegacyPredictors.PregnancyPredict | backend/predictors.py:796-824 | the pregnancy prediction carries its additive score, level, the fixed recommendations and confidence 0.83 |
| LegacyPredictors.PregnancyScoreBounds | backend/predictors.py:796-824 | the pregnancy score lies in [0, 1], and a preterm multiple pregnancy with previous complications is Very High |
| LegacyPredictors.AnemiaPredict | backend/predictors.py:1112-1140 | the anemia prediction carries its score, level, the fixed recommendations and confidence 0.85 |
| LegacyPredictors.AnemiaScoreFacts | backend/predictors.py:1112-1140 | for non-negative readings the anemia score lies in [0, 1]; with normal haemoglobin and iron, no heavy bleeding and adequate diet it is 0; a haemoglobin deficit alone scores its share of 0.4 |
| DiseasePredictors.DiabetesLevelOf | backend/predictors/disease_predictors.py:145-151 | High exactly at a score of 0.7 or more, Medium on [0.4, 0.7), Low below 0.4 |
| DiseasePredictors.DiabetesScore | backend/predictors/disease_predictors.py:96-140 | the accumulated score equals the additive diabetes formula (age, BMI, glucose, blood pressure, insulin, pregnancies, pedigree, activity and family-history terms) |
| DiseasePredictors.DiabetesRecommendations | backend/predictors/disease_predictors.py:153-168 | the list equals the conditional glucose, BMI, activity and family advice in that order, followed by the three fixed tips |
| DiseasePredictors.DiabetesPredict | backend/predictors/disease_predictors.py:81-186 | the response is the diabetes result for the request, with the family history counted when its raw value is truthy |
| DiseasePredictors.DiabetesResultFacts | backend/predictors/disease_predictors.py:81-186 | the response fails (the `except` reply) exactly when a scored input is not a number; otherwise the score lies in [0, 1], the level is that score's level, there are 3 to 7 recommendations ending with the three fixed ones, and glucose of 126 or more keeps the level above Low unless pedigree and activity pull it back |
| DiseasePredictors.DiabetesScoreMonotoneInGlucose | backend/predictors/disease_predictors.py:96-143 | raising glucose never lowers the clamped score |
| DiseasePredictors.Lower | backend/predictors/disease_predictors.py:279-284 | length-preserving ASCII lower-casing: upper-case letters are shifted by 32, every other character kept |
| DiseasePredictors.IntendedDiabetesPrediction | backend/predictors/disease_predictors.py:279-284 | the prediction with the family history read as preprocessing reads it: the answer "No" counts as no history, non-string answers keep their truthiness |
| DiseasePredictors.FamilyHistoryNoCounts | backend/predictors/disease_predictors.py:93 | with every other input at its default, the answer "No" gives High and the family screening advice in `predict`, while the intended reading gives Medium |
| DiseasePredictors.Selected | backend/predictors/disease_predictors.py:188-205 | the factors the first n tests append: factor k exactly when test k holds, in the order of the tests |
| DiseasePredictors.DiabetesRiskFactors | backend/predictors/disease_predictors.py:188-205 | at most six factors; age of 45 or more, BMI of 25 or more, glucose of 100 or more, a truthy family history, activity under 3 and blood pressure of 90 or more each appear exactly when their condition holds, once, in the order of the tests |
| DiseasePredictors.FloatOrDefault | backend/predictors/disease_predictors.py:264-276 | a number is kept as that float, None and an unparsable string become the field's default, a parsable string its value |
| DiseasePredictors.DiabetesPreprocess | backend/predictors/disease_predictors.py:255-286 | the cleaned copy has the request's keys; each numeric field present is cleaned by `FloatOrDefault`, the family history becomes the boolean of its answer, every other entry is unchanged |
| DiseasePredictors.CleanedValuesAreNumbers | backend/predictors/disease_predictors.py:255-286 | every cleaned field is a number; "Yes" and "TRUE" count as a family history and "No" does not |
| DiseasePredictors.ContributionWeight | backend/predictors/disease_predictors.py:1081-1101 | the effective heart-style weight table, every weight in [0.3, 0.9] with 0.5 for unlisted fields |
| DiseasePredictors.WeightedContribution | backend/predictors/disease_predictors.py:1081-1101 | `|n - 0.5| * 2 * w` is never negative, at most the weight on [0, 1], zero exactly at 0.5, and equals the base default contribution times the weight |
| DiseasePredictors.StageOfMotorTotal | backend/predictors/disease_predictors.py:542-551 | stage in [0, 4]; 0 exactly for a zero motor total, 4 exactly above 12 |
| DiseasePredictors.EstimateDiseaseStage | backend/predictors/disease_predictors.py:542-551 | the Hoehn and Yahr stage read from the record is in [0, 4] |
| DiseasePredictors.StageMonotone | backend/predictors/disease_predictors.py:542-551 | for non-negative totals the stage never decreases as the total grows |
| DiseasePredictors.NegativeTotalIsStageOne | backend/predictors/disease_predictors.py:547-548 | a negative motor total falls in stage 1 |
| DiseasePredictors.InterpretMotorScore | backend/predictors/disease_predictors.py:553-559 | "Normal" exactly for 0, and "Severe" exactly for scores outside 0 to 3 |
| DiseasePredictors.CkdStageIndex | backend/predictors/disease_predictors.py:925-941 | band 0 exactly when creatinine is below 1.2 with albumin grade 0, band 5 exactly at creatinine 4.0 or more, and at most band 2 when creatinine is below 1.8 with albumin at most 2 |
| DiseasePredictors.DetermineCkdStage | backend/predictors/disease_predictors.py:925-941 | the text is one of the six stage labels |
| DiseasePredictors.CkdStageMonotoneInCreatinine | backend/predictors/disease_predictors.py:925-941 | at a fixed non-negative albumin grade, higher creatinine never gives a milder stage |
| DiseasePredictors.ProgressionRiskFactors | backend/predictors/disease_predictors.py:952-964 | at most four progression factors are counted |
| DiseasePredictors.AssessProgressionRisk | backend/predictors/disease_predictors.py:952-970 | high exactly at 3 or more factors, moderate exactly at 2, low at 1 or fewer |
| DiseasePredictors.EmptyRecordHasLowProgression | backend/predictors/disease_predictors.py:952-970 | with every reading at its default no progression factor is counted |
| DiseasePredictors.BilirubinPoints | backend/predictors/disease_predictors.py:2031-2052 | the bilirubin term is 1 to 3 points |
| DiseasePredictors.AlbuminPoints | backend/predictors/disease_predictors.py:2031-2052 | the albumin term is 1 to 3 points |
| DiseasePredictors.ChildPughScore | backend/predictors/disease_predictors.py:2031-2052 | the accumulated score is the two laboratory terms plus the fixed 6, and so lies in [8, 12] |
| DiseasePredictors.ChildPughClass | backend/predictors/disease_predictors.py:2099-2103 | Class A exactly at 6 or less, Class B on 7 to 9, Class C at 10 or more |
| DiseasePredictors.ChildPughNeverClassA | backend/predictors/disease_predictors.py:2031-2103 | no score the calculator can produce is classed A |
| DiseasePredictors.FibrosisMarkers | backend/predictors/disease_predictors.py:2066-2085 | at most three markers fire |
| DiseasePredictors.FibrosisScore | backend/predictors/disease_predictors.py:2066-2085 | the score is the marker count over 4, one of 0, 0.25, 0.5 and 0.75 |
| DiseasePredictors.FibrosisStage | backend/predictors/disease_predictors.py:2112-2117 | F4 exactly at 0.75 or more, F0-F1 exactly below 0.25 |
| DiseasePredictors.FibrosisF4OnlyWithAllMarkers | backend/predictors/disease_predictors.py:2066-2117 | the computed score is staged F4 exactly when all three markers fire |
| DiseasePredictors.CountVascularFactors | backend/predictors/disease_predictors.py:2481-2488 | the counted factors equal the vascular factor count, in [0, 4] |
| DiseasePredictors.VascularFactors | backend/predictors/disease_predictors.py:2481-2488 | at most four; zero exactly when there is no cardiovascular disease, diabetes or hypertension and the smoking history is under 2 |
| DiseasePredictors.DementiaAgePoints | backend/predictors/disease_predictors.py:2444-2448 | the age points are 0 to 3 |
| DiseasePredictors.CognitivePoints | backend/predictors/disease_predictors.py:2451-2453 | the cognitive points are 0 to 6 |
| DiseasePredictors.ProtectivePoints | backend/predictors/disease_predictors.py:2462-2464 | the protective points are 0 to 3 |
| DiseasePredictors.DementiaRiskScore | backend/predictors/disease_predictors.py:2440-2466 | the returned score is the raw score floored at 0, and lies in [0, 15] |
| DiseasePredictors.DementiaRawRange | backend/predictors/disease_predictors.py:2440-2466 | the raw score before the floor lies in [-3, 15] |
| DiseasePredictors.HeartFeaturesAligned | backend/predictors/disease_predictors.py:48-64 | the heart vector reads the schema's fields in declaration order, one feature each, with no zero scale |
| DiseasePredictors.StrokeFeaturesAligned | backend/predictors/disease_predictors.py:1198-1214 | the stroke vector reads the listed fields in order, with no zero scale |
| DiseasePredictors.CancerFeaturesAligned | backend/predictors/disease_predictors.py:1454-1470 | the cancer vector reads the listed fields in order, with no zero scale |
| DiseasePredictors.KidneyFeaturesAligned | backend/predictors/disease_predictors.py:1727-1754 | the kidney vector reads the listed fields in order, with no zero scale |
| DiseasePredictors.LiverFeaturesAligned | backend/predictors/disease_predictors.py:1803-1821 | the liver vector reads the listed fields in order, with no zero scale |
| DiseasePredictors.AlzheimerFeaturesAligned | backend/predictors/disease_predictors.py:2170-2190 | the Alzheimer vector reads the listed fields in order, with no zero scale |
| DiseasePredictors.ParkinsonFeaturesAligned | backend/predictors/disease_predictors.py:2572-2604 | the Parkinson vector reads the listed fields in order, with no zero scale |
| SpecializedPredictors.Fever | backend/predictors/specialized_predictors.py:656-662 | the temperature ladder lists "High fever" exactly at 39 or more and "Moderate fever" exactly on [38, 39), at most one note |
| SpecializedPredictors.Hypoxemia | backend/predictors/specialized_predictors.py:664-670 | the saturation ladder lists severe hypoxemia exactly below 90 and mild exactly on [90, 95) |
| SpecializedPredictors.CovidTachycardia | backend/predictors/specialized_predictors.py:672-675 | tachycardia is listed exactly above 120 beats per minute |
| SpecializedPredictors.Tachypnea | backend/predictors/specialized_predictors.py:677-683 | severe tachypnea exactly above 30, mild exactly on (24, 30] |
| SpecializedPredictors.VitalSignsTally | backend/predictors/specialized_predictors.py:651-684 | the raw vital-signs score lies in [0, 12] and a note is listed exactly when its reading is in its band, at most four notes |
| SpecializedPredictors.VitalSignsMaximum | backend/predictors/specialized_predictors.py:651-689 | the raw score reaches 12, above the cap of 10, exactly when all four readings are in their worst band |
| SpecializedPredictors.AssessVitalSigns | backend/predictors/specialized_predictors.py:651-689 | the score is `min(raw, 10)` in [0, 10], the issues are the tally's, and the category is Critical at raw 8 or more, Concerning at 4 or more, taken on the uncapped score |
| SpecializedPredictors.RespiratoryTally | backend/predictors/specialized_predictors.py:691-712 | the respiratory score lies in [0, 10] so the cap never bites; the symptoms are exactly shortness of breath, cough and chest pain when present, the oxygen term adds points only |
| SpecializedPredictors.AssessRespiratoryStatus | backend/predictors/specialized_predictors.py:691-718 | the score and symptoms are the tally's; Severe at 7 or more, Moderate at 3 or more |
| SpecializedPredictors.Crp | backend/predictors/specialized_predictors.py:725-730 | severely elevated CRP exactly above 100, elevated exactly on (10, 100] |
| SpecializedPredictors.InflammatoryTally | backend/predictors/specialized_predictors.py:720-742 | the inflammatory score lies in [0, 10]; each marker is listed exactly when it is over its cut-off |
| SpecializedPredictors.AssessInflammatoryMarkers | backend/predictors/specialized_predictors.py:720-748 | score and markers are the tally's; severe inflammation at 6 or more, moderate at 3 or more |
| SpecializedPredictors.CovidFatigue | backend/predictors/specialized_predictors.py:755-760 | severe fatigue exactly at 7 or more, moderate exactly on [4, 7) |
| SpecializedPredictors.CovidSymptomTally | backend/predictors/specialized_predictors.py:750-772 | the symptom score lies in [0, 6]; each symptom is listed exactly when present |
| SpecializedPredictors.AssessCovidSymptoms | backend/predictors/specialized_predictors.py:750-778 | score and symptoms are the tally's; Severe at 5 or more, Moderate at 3 or more |
| SpecializedPredictors.AnalyzeCovidMetrics | backend/predictors/specialized_predictors.py:606-628 | the four components are the helpers' results and the severity is 0.3v + 0.4r + 0.2i + 0.1s, which lies in [0, 10]; Severe at 7 or more, Moderate at 4 or more |
| SpecializedPredictors.CovidSmokingImpact | backend/predictors/specialized_predictors.py:780-801 | High exactly for status 2, Medium exactly for status 1, Low for any other status |
| SpecializedPredictors.BmiClass | backend/predictors/specialized_predictors.py:803-830 | severely obese exactly at 40 or more, obese on [30, 40), overweight on [25, 30), normal below 25 |
| SpecializedPredictors.BmiRiskMonotone | backend/predictors/specialized_predictors.py:803-830 | a larger BMI never has a lower risk level |
| SpecializedPredictors.VaccinationOf | backend/predictors/specialized_predictors.py:832-859 | boosted exactly for 3, fully for 2, partially for 1, unvaccinated for any other value |
| SpecializedPredictors.CovidAdvice | backend/predictors/specialized_predictors.py:639-647 | the smoking, weight and booster advice each appear exactly when status 2, BMI of 30 or more and a status below 3 hold |
| SpecializedPredictors.CovidLifestyleImpact | backend/predictors/specialized_predictors.py:630-649 | the three assessments are the helpers' verdicts and the recommendations are the conditional advice; no booster advice means boosted or a status above 3 read as unvaccinated |
| SpecializedPredictors.Fev1 | backend/predictors/specialized_predictors.py:1097-1107 | very severe obstruction exactly below 30 percent predicted, severe on [30, 50), moderate on [50, 80) |
| SpecializedPredictors.FevRatio | backend/predictors/specialized_predictors.py:1109-1115 | a severe obstruction pattern exactly below a ratio of 0.5, an obstruction pattern on [0.5, 0.7) |
| SpecializedPredictors.CopdOxygen | backend/predictors/specialized_predictors.py:1117-1123 | hypoxemia at rest exactly below 90, exercise hypoxemia exactly when rest is at least 90 and exercise below 90 |
| SpecializedPredictors.LungFunctionTally | backend/predictors/specialized_predictors.py:1092-1124 | the raw lung-function score lies in [0, 11]; each note is listed exactly when its reading is in its band |
| SpecializedPredictors.AssessLungFunction | backend/predictors/specialized_predictors.py:1092-1129 | the score is `min(raw, 10)`, the issues are the tally's, severe impairment at raw 7 or more and moderate at 4 or more |
| SpecializedPredictors.Dyspnea | backend/predictors/specialized_predictors.py:1136-1143 | severe dyspnea exactly at scale 4 or more, moderate on [2, 4) |
| SpecializedPredictors.RescueInhaler | backend/predictors/specialized_predictors.py:1154-1160 | frequent rescue use exactly above 14, regular use on (7, 14] |
| SpecializedPredictors.SymptomControlTally | backend/predictors/specialized_predictors.py:1131-1161 | the raw symptom-control score lies in [0, 11]; each symptom is listed exactly when its reading is in its band |
| SpecializedPredictors.AssessSymptomControl | backend/predictors/specialized_predictors.py:1131-1166 | `min(raw, 10)` with the tally's symptoms; poor control at raw 7 or more, partial at 4 or more |
| SpecializedPredictors.ExacerbationHistory | backend/predictors/specialized_predictors.py:1173-1183 | frequent exacerbations exactly at 3 or more, recurrent at 2, previous at 1 |
| SpecializedPredictors.ExacerbationTally | backend/predictors/specialized_predictors.py:1168-1199 | the raw exacerbation score lies in [0, 11]; each risk factor is listed exactly when present |
| SpecializedPredictors.AssessExacerbationRisk | backend/predictors/specialized_predictors.py:1168-1204 | `min(raw, 10)` with the tally's factors; high risk at raw 7 or more, moderate at 4 or more |
| SpecializedPredictors.ExerciseLimitation | backend/predictors/specialized_predictors.py:1211-1217 | severe limitation exactly at a tolerance of 1 or less, moderate on (1, 2] |
| SpecializedPredictors.QualityOfLifeTally | backend/predictors/specialized_predictors.py:1206-1228 | the quality-of-life score lies in [0, 7]; each impact is listed exactly when present |
| SpecializedPredictors.AssessQualityOfLife | backend/predictors/specialized_predictors.py:1206-1233 | score and impacts are the tally's; severely impacted at 6 or more, moderately at 3 or more |
| SpecializedPredictors.AnalyzeCopdMetrics | backend/predictors/specialized_predictors.py:1044-1066 | the four components are the helpers' results and the severity is 0.4 + 0.3 + 0.2 + 0.1 of them, in [0, 10]; Severe at 7 or more, Moderate at 4 or more |
| SpecializedPredictors.CopdSmokingImpact | backend/predictors/specialized_predictors.py:1235-1263 | Very High exactly for a current smoker, High for a former smoker above 20 pack-years, Medium for other former smokers, Low otherwise |
| SpecializedPredictors.CopdEnvironmentTally | backend/predictors/specialized_predictors.py:1265-1282 | the environmental score lies in [0, 7]; each factor is listed exactly when present |
| SpecializedPredictors.AssessCopdEnvironment | backend/predictors/specialized_predictors.py:1265-1287 | High at 5 or more and Medium at 3 or more, which is: High exactly with an occupational exposure and another source, Low exactly with at most one source that is not occupational |
| SpecializedPredictors.AdherenceOf | backend/predictors/specialized_predictors.py:1289-1316 | Excellent at 4 or more, Good on [3, 4), Fair on [2, 3), Poor below 2 |
| SpecializedPredictors.CopdAdvice | backend/predictors/specialized_predictors.py:1077-1088 | smoking, air-pollution, adherence and rehabilitation advice each appear exactly when their condition holds |
| SpecializedPredictors.CopdLifestyleImpact | backend/predictors/specialized_predictors.py:1068-1090 | the three assessments are the helpers' verdicts, the recommendations the conditional advice, and the adherence advice appears exactly when adherence is Fair or Poor |
| SpecializedPredictors.AnemiaThreshold | backend/predictors/specialized_predictors.py:1654 | the anemia threshold is 12 or 11 |
| SpecializedPredictors.AnemiaGradeOf | backend/predictors/specialized_predictors.py:1582-1613 | Severe exactly below 8, Moderate on [8, 10), Mild from 10 up to the gender's threshold (12 for gender 1, 11 otherwise), Normal at or above it |
| SpecializedPredictors.AnemiaSeverityScore | backend/predictors/specialized_predictors.py:1582-1620 | the score is one of 0, 4, 7 and 10; 0 exactly at or above the threshold, 10 exactly below 8 |
| SpecializedPredictors.AnemiaSeverityMonotone | backend/predictors/specialized_predictors.py:1582-1620 | the score never rises with hemoglobin, and the male cut-off scores at least as high as any other at the same hemoglobin |
| SpecializedPredictors.AnemiaTypeOf | backend/predictors/specialized_predictors.py:1622-1664 | Normal exactly at or above the gender's threshold, whatever the cell size; otherwise microcytic, macrocytic and normocytic cells pick iron deficiency or chronic disease, megaloblastic or not, chronic disease or normocytic, by ferritin, B12 and folate, and the chronic-disease flags |
| SpecializedPredictors.AnemiaTypeAgreesWithSeverity | backend/predictors/specialized_predictors.py:1588-1658 | the type is Normal exactly when the severity score is 0 and the grade is Normal |
| SpecializedPredictors.FerritinStores | backend/predictors/specialized_predictors.py:1671-1681 | severely low ferritin exactly below 15, low on [15, 30), elevated above 300 |
| SpecializedPredictors.TransferrinSaturation | backend/predictors/specialized_predictors.py:1683-1690 | low saturation exactly below 16, high exactly above 45 |
| SpecializedPredictors.IronStatusTally | backend/predictors/specialized_predictors.py:1666-1696 | the iron score lies in [0, 9] so the cap never bites; each issue is listed exactly when its reading is in its band |
| SpecializedPredictors.AssessIronStatus | backend/predictors/specialized_predictors.py:1666-1702 | score and issues are the tally's; severe deficiency at 7 or more, moderate at 4 or more |
| SpecializedPredictors.Fatigue | backend/predictors/specialized_predictors.py:1709-1716 | severe fatigue exactly at 7 or more, moderate on [4, 7) |
| SpecializedPredictors.AnemiaSymptomTally | backend/predictors/specialized_predictors.py:1704-1737 | the symptom score lies in [0, 10]; each symptom is listed exactly when present |
| SpecializedPredictors.AssessAnemiaSymptoms | backend/predictors/specialized_predictors.py:1704-1743 | score and symptoms are the tally's; severe at 7 or more, moderate at 4 or more |
| SpecializedPredictors.AnalyzeAnemiaMetrics | backend/predictors/specialized_predictors.py:1534-1556 | the components are the helpers' results, the risk is 0.4 severity + 0.3 iron + 0.2 symptoms + 0.1 times 5 unless the type is Normal, it lies in [0, 9.2], High at 7 or more, Moderate at 4 or more, and the type is Normal exactly when the severity score is 0 |
| SpecializedPredictors.AssessAnemiaDiet | backend/predictors/specialized_predictors.py:1745-1762 | the factors are the vegetarian and alcohol notes in order; High exactly with both, Low exactly with neither |
| SpecializedPredictors.AssessBleedingRisk | backend/predictors/specialized_predictors.py:1764-1781 | the sources are the GI and menstrual notes, the latter only for gender 0; High exactly with GI bleeding, Medium with heavy periods alone, Low with no source |
| SpecializedPredictors.AssessAbsorptionFactors | backend/predictors/specialized_predictors.py:1783-1800 | the factors are the inflammation and alcohol notes; High exactly with both, Low exactly with neither |
| SpecializedPredictors.AnemiaAdvice | backend/predictors/specialized_predictors.py:1567-1578 | each of the four recommendations appears exactly when its condition holds |
| SpecializedPredictors.AnemiaLifestyleImpact | backend/predictors/specialized_predictors.py:1558-1580 | every diet, bleeding and absorption risk reported comes with its recommendation and each recommendation with its risk; the bleeding risk is above Low exactly when bleeding advice is given |
| SpecializedPredictors.ThyroidKindOf | backend/predictors/specialized_predictors.py:2088-2106 | hypothyroid exactly when TSH is above 4.5 (severe above 10), hyperthyroid exactly below 0.4 (severe below 0.1), Normal exactly on [0.4, 4.5] |
| SpecializedPredictors.Tsh | backend/predictors/specialized_predictors.py:2088-2106 | each of the four TSH notes is listed exactly in its band, at most one |
| SpecializedPredictors.FreeT4 | backend/predictors/specialized_predictors.py:2108-2120 | severely low T4 below 0.6, low on [0.6, 0.8), severely high above 2.0, high on (1.8, 2.0] |
| SpecializedPredictors.FreeT3 | backend/predictors/specialized_predictors.py:2122-2128 | low T3 exactly below 2.0, high exactly above 4.5 |
| SpecializedPredictors.ThyroidFunctionTally | backend/predictors/specialized_predictors.py:2079-2128 | the raw function score lies in [0, 12]; each issue is listed exactly in its band, at most three |
| SpecializedPredictors.ThyroidKindMatchesNotes | backend/predictors/specialized_predictors.py:2088-2106 | each abnormal function type comes with exactly its own TSH note, Normal with none, and the TSH notes open the issue list |
| SpecializedPredictors.AssessThyroidFunction | backend/predictors/specialized_predictors.py:2079-2137 | the score is `min(raw, 10)`, the issues are the tally's and the type is the TSH-based type |
| SpecializedPredictors.AntiTpo | backend/predictors/specialized_predictors.py:2144-2151 | severely elevated anti-TPO above 100, elevated on (35, 100] |
| SpecializedPredictors.AntiThyroglobulin | backend/predictors/specialized_predictors.py:2153-2160 | severely elevated anti-Tg above 100, elevated on (40, 100] |
| SpecializedPredictors.AutoimmuneTally | backend/predictors/specialized_predictors.py:2139-2160 | the autoimmune score lies in [0, 7]; each marker is listed exactly in its band |
| SpecializedPredictors.AssessAutoimmuneMarkers | backend/predictors/specialized_predictors.py:2139-2169 | score and markers are the tally's; High at 5 or more, Medium at 3 or more |
| SpecializedPredictors.AutoimmuneBands | backend/predictors/specialized_predictors.py:2139-2162 | Low exactly when anti-TPO is at most 35 and anti-Tg at most 100; High exactly when both antibodies are elevated |
| SpecializedPredictors.ThyroidEarlySymptoms | backend/predictors/specialized_predictors.py:2176-2201 | the fatigue, weight and temperature ladders give 0 to 8 points, each symptom listed exactly when present |
| SpecializedPredictors.ThyroidLateSymptoms | backend/predictors/specialized_predictors.py:2203-2218 | the hair, skin, palpitation and weakness ladders give 0 to 6 points, each symptom listed exactly when present |
| SpecializedPredictors.ThyroidSymptomTally | backend/predictors/specialized_predictors.py:2171-2218 | the raw symptom score lies in [0, 14]; a symptom is listed exactly when present |
| SpecializedPredictors.AssessThyroidSymptoms | backend/predictors/specialized_predictors.py:2171-2224 | the score is `min(raw, 10)`, the symptoms are exactly those present, severe at raw 7 or more and mild below 4 |
| SpecializedPredictors.RestingHeartRate | backend/predictors/specialized_predictors.py:2237-2244 | an elevated heart rate above 100, a low one below 60 |
| SpecializedPredictors.MetabolicTally | backend/predictors/specialized_predictors.py:2226-2250 | the metabolic score lies in [0, 5]; each impact is listed exactly when its reading is out of range |
| SpecializedPredictors.AssessMetabolicImpact | backend/predictors/specialized_predictors.py:2226-2256 | score and impacts are the tally's; significant at 4 or more, moderate at 2 or more |
| SpecializedPredictors.AnalyzeThyroidMetrics | backend/predictors/specialized_predictors.py:2031-2053 | the components are the helpers' results, the risk is 0.4 + 0.3 + 0.2 + 0.1 of their scores, it lies in [0, 8.6], High at 7 or more, Moderate at 4 or more |
| SpecializedPredictors.AssessThyroidDiet | backend/predictors/specialized_predictors.py:2258-2279 | the factors are the iodine, soy and cruciferous notes in order; High exactly with iodine deficiency and another factor, Low exactly with neither iodine deficiency nor soy |
| SpecializedPredictors.ThyroidStressImpact | backend/predictors/specialized_predictors.py:2281-2299 | High exactly at 8 or more, Medium on [5, 8), Low below 5 |
| SpecializedPredictors.AssessThyroidEnvironment | backend/predictors/specialized_predictors.py:2301-2318 | the factors are the smoking and radiation notes; High exactly with both, Medium with exactly one, Low with none |
| SpecializedPredictors.ThyroidAdvice | backend/predictors/specialized_predictors.py:2064-2075 | the iodine, stress, smoking and soy advice each appear exactly when their condition holds |
| SpecializedPredictors.ThyroidLifestyleImpact | backend/predictors/specialized_predictors.py:2055-2077 | the recommendations are the conditional advice; iodine, soy and smoking advice appear exactly with the matching reported factor, stress advice implies a stress level above Low and every High stress level draws it |
| SpecializedPredictors.SaturationFraction | backend/predictors/specialized_predictors.py:1403 | a saturation above 1 is divided by 100 and any other is kept, so a reading in [0, 100] becomes a fraction in [0, 1] |
| SpecializedPredictors.SaturationScalesAgree | backend/predictors/specialized_predictors.py:1403 | a percentage above 1 and the same value as a fraction give the same feature, and the rule applied twice is the rule applied once |
| SpecializedPredictors.SaturationBoundary | backend/predictors/specialized_predictors.py:1403 | a reading of exactly 1 is a fraction (saturation 1.0) while 2 becomes 0.02 |
| SpecializedPredictors.LymphNodeRatio | backend/predictors/specialized_predictors.py:2409 | the ratio times `max(examined, 1)` is the positive count, so there is never a division by zero, and it lies in [0, 1] when the positive count is at most that divisor |
| SpecializedPredictors.AnemiaTableFacts | backend/predictors/specialized_predictors.py:1405-1440 | the anemia vector has 33 entries with no zero scale and exactly one reading the saturation |
| SpecializedPredictors.CancerTableFacts | backend/predictors/specialized_predictors.py:2411-2447 | the cancer-recurrence vector has 35 entries with no zero scale and exactly one reading the examined nodes |
| SpecializedPredictors.AnemiaFeatureVector | backend/predictors/specialized_predictors.py:1401-1440 | a missing field is a KeyError; otherwise one feature per entry, the saturation by the saturation rule and every other entry its field over its scale |
| SpecializedPredictors.CancerFeatureVector | backend/predictors/specialized_predictors.py:2407-2447 | a missing field is a KeyError; otherwise one feature per entry, the lymph node ratio in the examined-nodes slot and every other entry its field over its scale |
| SpecializedPredictors.CovidFeaturesAligned | backend/predictors/specialized_predictors.py:92-130 | COVID `preprocess_data` reads the 35 required fields of lines 14-51 in declaration order, with no zero scale |
| SpecializedPredictors.CopdFeaturesAligned | backend/predictors/specialized_predictors.py:940-974 | asthma/COPD `preprocess_data` reads the required fields of lines 870-903 in declaration order, with no zero scale |
| SpecializedPredictors.ThyroidFeaturesAligned | backend/predictors/specialized_predictors.py:1889-1927 | the thyroid table lists the required fields of lines 1811-1848 in declaration order, with no zero scale, the weight change at entry 10 |
| SpecializedPredictors.WeightChangeFeature | backend/predictors/specialized_predictors.py:1901 | the feature times 40 is the change plus 20, so it lies in [0, 1] exactly for a change from -20 to +20 kg |
| SpecializedPredictors.ThyroidFeatureVector | backend/predictors/specialized_predictors.py:1889-1927 | a missing field is a KeyError; otherwise one feature per required field, the weight change shifted and scaled and every other entry its field over its scale |
| LifestylePredictors.BodyMassIndex | backend/predictors/lifestyle_predictors.py:73-75 | the BMI times the square of the height in metres is the weight |
| LifestylePredictors.WaistHipRatio | backend/predictors/lifestyle_predictors.py:77-78 | the ratio times the hip circumference is the waist circumference |
| LifestylePredictors.ObesityTableFacts | backend/predictors/lifestyle_predictors.py:80-105 | the obesity vector has 23 entries with no zero scale; entries 2 and 3 are the BMI and waist-to-hip slots |
| LifestylePredictors.ObesityFeatureVector | backend/predictors/lifestyle_predictors.py:72-105 | the request fails exactly when a field is missing or the height or hip is 0; otherwise one feature per entry, the BMI over 50 and the waist-to-hip ratio in their slots and every other entry its field over its scale |
| LifestylePredictors.HealthRiskScore | backend/predictors/lifestyle_predictors.py:273-280 | the count of the five conditions, in [0, 5], and 0 exactly when none holds |
| LifestylePredictors.CalculateHealthRiskScore | backend/predictors/lifestyle_predictors.py:273-280 | the accumulated score is the condition count, in [0, 5] |
| LifestylePredictors.SleepApneaScore | backend/predictors/lifestyle_predictors.py:282-315 | every term is capped, so the score never exceeds 17 (the final cap of 20 never bites) and is at least 0 for non-negative symptoms |
| LifestylePredictors.CalculateSleepApneaRiskScore | backend/predictors/lifestyle_predictors.py:282-315 | the accumulated score is the sleep-apnea score |
| LifestylePredictors.SleepApneaMonotoneInSymptoms | backend/predictors/lifestyle_predictors.py:282-315 | more snoring, witnessed apneas or daytime sleepiness never lowers the score |
| LifestylePredictors.CholesterolCategoryOf | backend/predictors/lifestyle_predictors.py:500-531 | each kind's category is picked by its own cut-offs (total 200/240, LDL 100/130/160, HDL 40/60, triglycerides 150/200), and an unknown kind is Unknown |
| LifestylePredictors.CholesterolCategoryMonotone | backend/predictors/lifestyle_predictors.py:500-531 | a higher reading never moves the category down its scale |
| LifestylePredictors.CvRiskScore | backend/predictors/lifestyle_predictors.py:533-543 | the score lies in [0, 10]; the cap lowers it exactly when every factor is at its worst |
| LifestylePredictors.CalculateCvRiskScore | backend/predictors/lifestyle_predictors.py:533-543 | the accumulated score is the capped cardiovascular score |
| LifestylePredictors.SleepAdequacyOf | backend/predictors/lifestyle_predictors.py:701-709 | Insufficient exactly below 6 hours, Excessive above 9, Optimal on [7, 8], Adequate on the rest |
| LifestylePredictors.MentalHealthRiskScore | backend/predictors/lifestyle_predictors.py:727-741 | the raw sum clamped to [0, 20]: unchanged inside, 0 exactly when the raw sum is not positive, 20 exactly when it is at least 20 |
| LifestylePredictors.CalculateMentalHealthRiskScore | backend/predictors/lifestyle_predictors.py:727-741 | the accumulated score is the clamped mental-health score |
| LifestylePredictors.MentalScoreMonotone | backend/predictors/lifestyle_predictors.py:727-741 | more stress or less social support never lowers the score |
| LifestylePredictors.BpRiskOf | backend/predictors/lifestyle_predictors.py:844-850 | High exactly when systolic is at least 140 or diastolic at least 90, Low exactly below 130 and 80 |
| LifestylePredictors.BpCategoryOf | backend/predictors/lifestyle_predictors.py:834-842 | Normal exactly below 120 and 80, Elevated exactly on [120, 130) with diastolic below 80, Stage 2 exactly when both readings reach 140 and 90 |
| LifestylePredictors.Stage1AtHighRisk | backend/predictors/lifestyle_predictors.py:834-850 | a reading of 150 over 70 is Stage 1 in the category but High in the risk assessment |
| LifestylePredictors.IntendedBpCategoryOf | backend/predictors/lifestyle_predictors.py:834-842 | the category with Stage 2 reached when either reading is at or above its threshold |
| LifestylePredictors.IntendedCategoryMatchesRisk | backend/predictors/lifestyle_predictors.py:834-850 | with the corrected category, Stage 2 is exactly High risk, Stage 1 exactly Moderate, and Normal or Elevated exactly Low |
| LifestylePredictors.HypertensionRiskScore | backend/predictors/lifestyle_predictors.py:852-862 | the score lies in [0, 10]; the cap lowers it exactly when all eight factors hold |
| LifestylePredictors.CalculateHypertensionRiskScore | backend/predictors/lifestyle_predictors.py:852-862 | the accumulated score is the capped hypertension score |
| LifestylePredictors.DietScore | backend/predictors/lifestyle_predictors.py:971-977 | the score lies in [0, 10], is 0 exactly when the raw sum is not positive, and with a non-negative fast-food frequency stays at 7 or below |
| LifestylePredictors.CalculateDietScore | backend/predictors/lifestyle_predictors.py:971-977 | the accumulated score is the diet score |
| LifestylePredictors.DietScoreMonotone | backend/predictors/lifestyle_predictors.py:971-977 | more vegetables, fruit or water never lowers the score and more fast food never raises it |
| ConditionPredictors.SepsisFeaturesAligned | backend/predictors/condition_predictors.py:76-106 | sepsis `preprocess_data` reads the 27 required fields of lines 14-43 in declaration order, one feature each, with no zero scale |
| ConditionPredictors.SepsisOrganIssues | backend/predictors/condition_predictors.py:465-471 | kidney, tissue perfusion and coagulation are listed exactly when creatinine is above 1.2, lactate above 2.0 and platelets below 100; at most three issues |
| ConditionPredictors.Dysfunctions | backend/predictors/condition_predictors.py:475 | one "… dysfunction" indicator per organ issue, in the same order |
| ConditionPredictors.CountTrueOfFour | backend/predictors/condition_predictors.py:446-454 | the count of four checks is the sum of their 0/1 increments |
| ConditionPredictors.SepsisAnalyze | backend/predictors/condition_predictors.py:436-477 | vital signs are concerning exactly when at least 2 of the 4 checks are abnormal; infection markers are abnormal exactly for white cells above 12 or below 4; organ function is impaired exactly when any organ issue holds and normal otherwise; the indicators are the vital-sign indicator (when concerning) followed by one dysfunction per organ issue in order |
| ConditionPredictors.SepsisEmptyRequest | backend/predictors/condition_predictors.py:446-471 | with every reading missing (default 0) the temperature and blood-pressure checks fire, so the vitals are concerning, and coagulation is the only organ issue |
| ConditionPredictors.SepsisLifestyle | backend/predictors/condition_predictors.py:479-493 | the four general keys are always present, `age_factor` exactly when age is above 65, and no other key |
| ConditionPredictors.ReadmissionFeaturesAligned | backend/predictors/condition_predictors.py:560-587 | hospital-readmission `preprocess_data` reads the 24 required fields of lines 504-530 in declaration order, with no zero scale |
| ConditionPredictors.IcuFeaturesAligned | backend/predictors/condition_predictors.py:672-708 | ICU-mortality `preprocess_data` reads the 33 required fields of lines 598-633 in declaration order, with no zero scale |
| ConditionPredictors.IcuAnalyze | backend/predictors/condition_predictors.py:755-793 | critical exactly for an APACHE II score above 30 and moderate exactly at 20 or below; multi-organ failure exactly at 3 or more of the 4 organ checks, impaired at 1 or 2, stable at 0; unstable exactly with vasopressors or a mean pressure below 65; the indicators are appended in that order for critical, multi-organ failure and instability |
| ConditionPredictors.IcuLifestyle | backend/predictors/condition_predictors.py:795-813 | `family_support`, `recovery_focus`, `prevention` and `follow_up` are always present, `age_considerations` exactly when age is above 65, and no other key |
| ConditionPredictors.SurgeryFeaturesAligned | backend/predictors/condition_predictors.py:882-910 | post-surgery `preprocess_data` reads the 25 required fields of lines 824-851 in declaration order, with no zero scale |
| ConditionPredictors.ComorbidityCountOfFlags | backend/predictors/condition_predictors.py:934-941 | when the six comorbidity readings are 0/1 flags their sum is the number of flags set, in [0, 6] |
| ConditionPredictors.CountTrueOfSix | backend/predictors/condition_predictors.py:934-941 | the count of six flags splits into the first two and the last four |
| ConditionPredictors.CountTrueQuad | backend/predictors/condition_predictors.py:934-941 | the count of four flags, written out, equals their count |
| ConditionPredictors.FlagsSet | backend/predictors/condition_predictors.py:934-941 | flag `k` is set exactly when reading `k` equals 1 |
| ConditionPredictors.PatientSurgeryFactorsExactly | backend/predictors/condition_predictors.py:916-931 | the patient and surgery tests add each of their five factors exactly when its test holds |
| ConditionPredictors.PreoperativeFactorsExactly | backend/predictors/condition_predictors.py:933-951 | the comorbidity factor is added exactly when the count is 3 or more, and the two preoperative factors exactly when their tests hold |
| ConditionPredictors.LifestyleSurgicalFactorsExactly | backend/predictors/condition_predictors.py:953-965 | the lifestyle and surgical tests add each of their four factors exactly when its test holds |
| ConditionPredictors.SurgeryFactorsExactly | backend/predictors/condition_predictors.py:912-967 | a factor is in the post-surgery list exactly when its test holds, and the list has at most twelve entries |
| ConditionPredictors.IdentifySurgeryFactors | backend/predictors/condition_predictors.py:912-967 | the returned list is the twelve tests' factors in source order |
| ConditionPredictors.AddPatientSurgeryFactors | backend/predictors/condition_predictors.py:916-931 | the list grows by the patient and surgery factors, in source order |
| ConditionPredictors.AddPreoperativeFactors | backend/predictors/condition_predictors.py:933-951 | the list grows by the comorbidity and preoperative factors, in source order |
| ConditionPredictors.AddLifestyleSurgicalFactors | backend/predictors/condition_predictors.py:953-965 | the list grows by the lifestyle and surgical factors, in source order |
| ConditionPredictors.SurgeryRiskScore | backend/predictors/condition_predictors.py:979-987 | the risk points lie in [0, 6]; 4 or more exactly with ASA 3+ and emergency surgery, or one of them with age above 65 and BMI above 30; 0 exactly when no test holds |
| ConditionPredictors.ComplicationFactors | backend/predictors/condition_predictors.py:995-1005 | the diabetes, smoking and nutrition factors appear exactly when their tests hold |
| ConditionPredictors.MonitoringPriorities | backend/predictors/condition_predictors.py:995-1012 | glucose, nutrition, cardiac and renal monitoring appear exactly when their tests hold |
| ConditionPredictors.SurgeryAnalyze | backend/predictors/condition_predictors.py:969-1014 | high risk exactly at 4 or more points, moderate-high exactly at 2 or 3; the outlook is guarded exactly at high risk; the complication factors and monitoring priorities are the listed ones in order |
| ConditionPredictors.SurgeryComplications | backend/predictors/condition_predictors.py:995-1012 | the two lists are the complication factors and monitoring priorities |
| ConditionPredictors.SurgeryLifestyle | backend/predictors/condition_predictors.py:1016-1044 | mobility, pain management, follow-up and infection prevention are always present; smoking for status 1 or more, nutrition for albumin below 3.5 or BMI above 30, diabetes care for diabetes; no other key |
| ConditionPredictors.PregnancyFeaturesAligned | backend/predictors/condition_predictors.py:1113-1141 | pregnancy-complication `preprocess_data` reads the 25 required fields of lines 1055-1082 in declaration order, with no zero scale |
| Records.CountTrue | backend/predictors/condition_predictors.py:446-454 | the count of the conditions that hold is at most their number, 0 exactly when none holds and the full number exactly when all hold |
| Scoring.BandOf | backend/predictors/specialized_predictors.py:688 | the upper label exactly at or above the top threshold, the lower exactly below the middle one |
| Scoring.BandMonotone | backend/predictors/specialized_predictors.py:688 | a larger score never gets a milder band |
| Scoring.Capped | backend/predictors/specialized_predictors.py:686 | `min(score, 10)` lies in [0, 10] for a non-negative score and lowers it exactly when it is above 10 |
| Scoring.CapKeepsBand | backend/predictors/specialized_predictors.py:686-688 | with both thresholds at most 10, the band of the capped score is the band of the raw score |
| Scoring.LevelOf | backend/predictors/specialized_predictors.py:1284 | High exactly at or above the top threshold, Low exactly below the middle one, never Very High |
| Features.FeatureVector | backend/predictors/disease_predictors.py:48-64 | a list literal of `data[field] / scale` fails with a KeyError exactly when a field is missing; otherwise feature `k` is field `k` over its scale |
| Features.WithDerived | backend/predictors/specialized_predictors.py:1401-1440 | the same vector with the derived entries (a rescaled or computed value) in place of the field over its scale |
| Features.AlignedTableFacts | backend/predictors/condition_predictors.py:76-106 | a table listing a schema's fields in order yields one feature per required field for every request carrying them |

## Left out

- The trained models (scikit-learn estimators, scalers), `joblib` persistence, training on synthetic data and the random population comparison are left out. They are floating-point and randomness outside the logic; the model probability is an input instead.
- The MELD formula and `_interpret_meld_score` of the liver predictor are left out: they use `math.log`, which has no exact counterpart over reals.
- `round(...)`, float rounding and the int/float distinction of arithmetic results are left out; every number is an exact real.
- The f-string explanation texts and the human-readable wording of notes are left out. Notes are enumeration constructors, so order and membership are modelled but not the formatted text.
- Where a class defines the same method twice, Python keeps the later definition. Only the effective one is modelled. The shadowed ones are condition_predictors.py:172-301 and 341-434 (the first sepsis and ICU bodies) and specialized_predictors.py:132-286. The lifestyle classes defined at lifestyle_predictors.py:318 and 546 are replaced by the later ones at 1076 and 1179.
- Statements after a `return` are unreachable and are not modelled.
- The base class's placeholder members are not modelled, because each returns a constant or composes other members into a dictionary: `generate_detailed_analysis` (base_predictor.py:107-116), the default `identify_contributing_factors`, `analyze_health_metrics` and `assess_lifestyle_impact` (244-258), the fixed list of `suggest_preventive_measures` (260-269), the f-string of `explain_field_risk` (287-290), `generate_explanation` (208-228) and the empty `generate_health_metrics_chart` (330-333).
- The cancer-recurrence helpers defined inside the COVID-19 class (specialized_predictors.py:288-528) are never called and are not modelled.
- The `identify_contributing_factors` variants of the sepsis and ICU predictors (for example condition_predictors.py:710-753) are not modelled. They are ladders of the same shape as the post-surgery one, which is modelled.
- `validate_input` changes the caller's dictionary in place. The model returns the new record instead, so aliasing with the caller's dictionary is not captured.
- Lower-casing (`str.lower()`) is modelled for ASCII letters only.
- In the stroke predictor, `table[min(level, 3)]` raises a TypeError whenever the index is a float, whole or not. `min(level, 3)` returns the float `level` itself for a float level of at most 3, and returns the int 3 only for a level above 3. The model reports a non-whole level as a failure and does not distinguish the error class.
- LegacyPredictors.Lookup: a whole-number level of Python type float (such as 2.0 or 3.0) is accepted by the model as the int it equals, while the source raises TypeError for it. The numeric record does not keep the int/float type of a value, so `Lookup` and `StrokePredict` succeed on such inputs where the source fails.
- BasePredictor.Predict: models the base class's `predict` without the `detailed_analysis` and `explanation` entries of the response. A predictor's own hooks called through `generate_detailed_analysis` (for example the thyroid `analyze_health_metrics`, which raises KeyError on keys outside its schema) are not part of the model, so `PredictedFailures` describes the failures of the base class's hooks only. A predictor's own `get_factor_specific_recommendation` is the `advice` parameter: the Stroke, Cancer, Liver and Alzheimer's overrides (disease_predictors.py:1373, 1624, 1996, 2392) are covered by the contracts stated for any advice rule, but their texts are not modelled.
- BasePredictor.RecommendationContents: states which items the composed list contains and where the level bank sits. It does not restate the full order of the factor advice and the lifestyle and monitoring items.
- BasePredictor.SeverityRefinesRiskLevel: relates the severity bands to the risk levels but not their texts.
- SpecializedPredictors.AssessThyroidSymptoms: is a function over the summed tally of the nine symptom ladders, not a method with nine statement ladders; the appending order is the tally's concatenation order.
- SpecializedPredictors.ThyroidKindMatchesNotes: is stated over the TSH ladder alone, not over the whole issue list.
- The thyroid `analyze_health_metrics` and `assess_lifestyle_impact` read keys that are not in the thyroid schema. The model takes those values as parameters, so the KeyError that a request without them raises is not modelled.
- The lifestyle `_get_bmi_category`, the neck, quality-of-life and substance helpers, the texts of the analysis and lifestyle dictionaries, and the feature tables of the lifestyle predictors other than obesity are not modelled. They have the same shapes as the classifiers and tables that are modelled.
- The lifestyle dictionaries of the condition predictors are modelled as the set of keys they contain; the values' texts and the dictionary order are left out.
- DiseasePredictors.DiabetesPredict: is split into `DiabetesScore` and `DiabetesRecommendations` helper methods that follow the source's statement order. The exception handler's message text is left out.
- The post-surgery contributing factors are computed by three helper methods, each continuing the list of the previous one (`AddPatientSurgeryFactors`, `AddPreoperativeFactors`, `AddLifestyleSurgicalFactors`).
- The Flask routes, the PDF report generator and the test scripts are not part of this model; they are I/O around the core.

## Findings

| source | as written | input that shows it | evidently intended | confidence | as-written member | corrected member |
|---|---|---|---|---|---|---|
| backend/predictors/disease_predictors.py:93 | `predict` reads `family_history_diabetes` without the string conversion that `preprocess_data` applies (lines 279-284), so the answer "No" is truthy; it adds 0.2 to the score and the family screening advice | every field at its default except `family_history_diabetes = "No"`: High instead of Medium | read the answer as preprocessing does, so "No" counts as no family history | not executed | DiseasePredictors.FamilyHistoryNoCounts | DiseasePredictors.IntendedDiabetesPrediction |
| backend/predictors/lifestyle_predictors.py:834-842 | `_get_bp_category` tests `systolic < 140 or diastolic < 90` for Stage 1, so Stage 2 needs both readings high, while `_assess_bp_risk` (lines 844-850) rates either high reading as High. The function has no live caller: its only call (line 791) is in the `analyze_health_metrics` at line 785, which the later definition at line 909 of the same class replaces, and that class (line 546) is itself replaced by the one at line 1179. No request observes the disagreement; it is a defect of the function itself | systolic 150, diastolic 70: "Stage 1 Hypertension" with High risk | Stage 2 when either reading reaches its threshold (`and` in the Stage 1 test) | not executed | LifestylePredictors.Stage1AtHighRisk | LifestylePredictors.IntendedBpCategoryOf |

A behaviour worth noting, which is not a bug: the liver fibrosis score counts
at most three markers out of four, but three markers give exactly 0.75, so
stage F4 is reached exactly when all three fire
(`DiseasePredictors.FibrosisF4OnlyWithAllMarkers`). The Child-Pugh score of
the liver predictor assumes 6 points for the three missing clinical items
and adds at least 1 for each laboratory value, so it is at least 8 and never
reaches class A (`DiseasePredictors.ChildPughNeverClassA`).
