/** The COVID-19, asthma/COPD, anemia, thyroid and cancer-recurrence
  * predictors: their integer `_assess_*` helpers, the weighted totals of
  * `analyze_health_metrics`, the lifestyle helpers and recommendation lists of
  * `assess_lifestyle_impact`, and the derived features of `preprocess_data`.
  *
  * Every helper reads its fields with `data[key]`, so each predictor's helpers
  * take the values of those fields as one readings record; a flag field holds
  * its Python truthiness. A note or recommendation string the source appends
  * is a constructor named after its wording. */
module SpecializedPredictors {
  import opened Wrappers
  import opened Records
  import opened Scoring
  import BasePredictor
  import Features

  /** The notes the helpers append to their `issues`, `symptoms`,
    * `elevated_markers`, `risk_factors`, `impacts`, `markers` and `factors`
    * lists. A wording shared by several helpers is one constructor. */
  datatype Note =
    | HighFever | ModerateFever | SevereHypoxemia | MildHypoxemia | Tachycardia
    | SevereTachypnea | MildTachypnea | ShortnessOfBreath | Cough | ChestPain
    | SeverelyElevatedCrp | ElevatedCrp | ElevatedDDimer | ElevatedFerritin | ElevatedLdh
    | SevereFatigue | ModerateFatigue | ProlongedFever | Headache | MuscleAches
    | VerySevereObstruction | SevereObstruction | ModerateObstruction
    | SevereObstructionPattern | ObstructionPattern | HypoxemiaAtRest | ExerciseHypoxemia
    | SevereDyspnea | ModerateDyspnea | FrequentCough | SignificantSputum
    | FrequentRescueUse | RegularRescueUse
    | FrequentExacerbations | RecurrentExacerbations | PreviousExacerbations
    | RecentHospitalizations | FrequentSteroidUse
    | SevereExerciseLimitation | ModerateExerciseLimitation | SleepDisruption
    | BreathlessnessLimitsActivity
    | OccupationalIrritants | PoorAirQuality | SeasonalAllergens
    | SeverelyLowFerritin | LowFerritin | LowTransferrinSaturation | HighTransferrinSaturation
    | LowSerumIron | PaleSkin | ColdHandsFeet | BrittleNails | Pica
    | VegetarianDiet | AlcoholImpairsNutrients | GiBleeding | HeavyMenstrualPeriods
    | ChronicInflammation | AlcoholImpairsB12Folate
    | SeverelyElevatedTsh | ElevatedTsh | SeverelySuppressedTsh | SuppressedTsh
    | SeverelyLowT4 | LowT4 | SeverelyHighT4 | HighT4 | LowT3 | HighT3
    | SeverelyElevatedAntiTpo | ElevatedAntiTpo | SeverelyElevatedAntiTg | ElevatedAntiTg
    | UnexplainedWeightGain | UnexplainedWeightLoss | ColdIntolerance | HeatIntolerance
    | HairLoss | DrySkin | HeartPalpitations | MuscleWeakness
    | HighCholesterol | ElevatedHeartRate | LowHeartRate | HighBloodPressure
    | IodineDeficiency | ExcessiveSoy | ExcessiveCruciferous
    | SmokingAffectsThyroid | RadiationExposure

  /** The strings `assess_lifestyle_impact` appends to its recommendations. */
  datatype Advice =
    | CovidQuitSmoking | CovidManageWeight | ConsiderBooster
    | CopdQuitSmoking | MinimizeAirPollution | ImproveAdherence | PulmonaryRehabilitation
    | PlantBasedIron | TreatGiBleeding | GynecologicalEvaluation | ReduceAlcohol
    | EnsureIodine | ManageStress | ThyroidQuitSmoking | ModerateSoy

  // ---------------------------------------------------------------------
  // COVID-19 (CovidRiskPredictor; the definitions from line 530 on replace
  // the earlier ones in the class body)
  // ---------------------------------------------------------------------

  datatype CovidReadings = CovidReadings(
    temperature: real, oxygenSaturation: real, heartRate: real, respiratoryRate: real,
    shortnessOfBreath: bool, cough: bool, chestPain: bool,
    cReactiveProtein: real, dDimer: real, ferritin: real, lactateDehydrogenase: real,
    fatigue: real, feverDurationDays: real, headache: bool, muscleAches: bool,
    smokingStatus: real, bmi: real, vaccinationStatus: real)

  const VitalSignsLabels := Labels("Stable", "Concerning", "Critical")
  const CovidRespiratoryLabels := Labels("Mild", "Moderate", "Severe")
  const InflammationLabels := Labels("Mild inflammation", "Moderate inflammation", "Severe inflammation")
  const CovidSymptomLabels := Labels("Mild", "Moderate", "Severe")
  const CovidSeverityLabels := Labels("Mild", "Moderate", "Severe")

  function Fever(temperature: real): (t: Step<Note>)
    ensures forall x :: x in t.notes <==> (x == HighFever && temperature >= 39.0) || (x == ModerateFever && 38.0 <= temperature < 39.0)
    ensures |t.notes| <= 1
  {
    if temperature >= 39.0 then Step(3, [HighFever])
    else if temperature >= 38.0 then Step(2, [ModerateFever])
    else Step(0, [])
  }

  function Hypoxemia(oxygenSaturation: real): (t: Step<Note>)
    ensures forall x :: x in t.notes <==> (x == SevereHypoxemia && oxygenSaturation < 90.0) || (x == MildHypoxemia && 90.0 <= oxygenSaturation < 95.0)
    ensures |t.notes| <= 1
  {
    if oxygenSaturation < 90.0 then Step(4, [SevereHypoxemia])
    else if oxygenSaturation < 95.0 then Step(2, [MildHypoxemia])
    else Step(0, [])
  }

  function CovidTachycardia(heartRate: real): (t: Step<Note>)
    ensures forall x :: x in t.notes <==> x == Tachycardia && heartRate > 120.0
    ensures |t.notes| <= 1
  {
    if heartRate > 120.0 then Step(2, [Tachycardia]) else Step(0, [])
  }

  function Tachypnea(respiratoryRate: real): (t: Step<Note>)
    ensures forall x :: x in t.notes <==> (x == SevereTachypnea && respiratoryRate > 30.0) || (x == MildTachypnea && 24.0 < respiratoryRate <= 30.0)
    ensures |t.notes| <= 1
  {
    if respiratoryRate > 30.0 then Step(3, [SevereTachypnea])
    else if respiratoryRate > 24.0 then Step(2, [MildTachypnea])
    else Step(0, [])
  }

  /** Which notes the VitalSigns tally lists. */
  predicate VitalSignsShown(r: CovidReadings, x: Note)
  {
    || (x == HighFever && r.temperature >= 39.0)
    || (x == ModerateFever && 38.0 <= r.temperature < 39.0)
    || (x == SevereHypoxemia && r.oxygenSaturation < 90.0)
    || (x == MildHypoxemia && 90.0 <= r.oxygenSaturation < 95.0)
    || (x == Tachycardia && r.heartRate > 120.0)
    || (x == SevereTachypnea && r.respiratoryRate > 30.0)
    || (x == MildTachypnea && 24.0 < r.respiratoryRate <= 30.0)
  }

  /** The uncapped vital-signs tally and the issues it lists. */
  function VitalSignsTally(r: CovidReadings): (t: Step<Note>)
    ensures 0 <= t.points <= 12
    ensures forall x :: x in t.notes <==> VitalSignsShown(r, x)
    ensures |t.notes| <= 4
  {
    var f, h, c, t := Fever(r.temperature), Hypoxemia(r.oxygenSaturation), CovidTachycardia(r.heartRate),
                      Tachypnea(r.respiratoryRate);
    Step(f.points + h.points + c.points + t.points, f.notes + h.notes + c.notes + t.notes)
  }

  /** The cap of `_assess_vital_signs` bites: the raw tally reaches 12 exactly
    * when all four readings are in their worst band. */
  lemma VitalSignsMaximum(r: CovidReadings)
    ensures VitalSignsTally(r).points == 12 <==>
              r.temperature >= 39.0 && r.oxygenSaturation < 90.0 && r.heartRate > 120.0 && r.respiratoryRate > 30.0
  {
  }

  /** `_assess_vital_signs`: the score is `min(raw, 10)`; the category is
    * Critical at raw >= 8 and Concerning at raw >= 4. */
  method AssessVitalSigns(r: CovidReadings) returns (a: Assessment<Note>)
    ensures a.score == Capped(VitalSignsTally(r).points) && 0 <= a.score <= 10
    ensures a.notes == VitalSignsTally(r).notes
    ensures a.band == BandOf(VitalSignsTally(r).points as real, 4.0, 8.0)
  {
    var score := 0;
    var issues: seq<Note> := [];
    if r.temperature >= 39.0 {
      score := score + 3;
      issues := issues + [HighFever];
    } else if r.temperature >= 38.0 {
      score := score + 2;
      issues := issues + [ModerateFever];
    }
    ghost var f, h, c := Fever(r.temperature), Hypoxemia(r.oxygenSaturation), CovidTachycardia(r.heartRate);
    assert Step(score, issues) == f;
    if r.oxygenSaturation < 90.0 {
      score := score + 4;
      issues := issues + [SevereHypoxemia];
    } else if r.oxygenSaturation < 95.0 {
      score := score + 2;
      issues := issues + [MildHypoxemia];
    }
    assert score == f.points + h.points && issues == f.notes + h.notes;
    if r.heartRate > 120.0 {
      score := score + 2;
      issues := issues + [Tachycardia];
    }
    assert score == f.points + h.points + c.points && issues == f.notes + h.notes + c.notes;
    if r.respiratoryRate > 30.0 {
      score := score + 3;
      issues := issues + [SevereTachypnea];
    } else if r.respiratoryRate > 24.0 {
      score := score + 2;
      issues := issues + [MildTachypnea];
    }
    assert Step(score, issues) == VitalSignsTally(r);
    a := Assessment(MinInt(score, 10), issues, BandOf(score as real, 4.0, 8.0));
  }

  function Flagged(flag: bool, points: int, note: Note): (t: Step<Note>)
  {
    if flag then Step(points, [note]) else Step(0, [])
  }

  /** Which notes the Respiratory tally lists. */
  predicate RespiratoryShown(r: CovidReadings, x: Note)
  {
    || (x == ShortnessOfBreath && r.shortnessOfBreath)
    || (x == Cough && r.cough)
    || (x == ChestPain && r.chestPain)
  }

  /** The respiratory tally: its largest value is 10, so the cap never bites.
    * The oxygen term scores but lists no symptom. */
  function RespiratoryTally(r: CovidReadings): (t: Step<Note>)
    ensures 0 <= t.points <= 10 && Capped(t.points) == t.points
    ensures forall x :: x in t.notes <==> RespiratoryShown(r, x)
    ensures |t.notes| <= 3
  {
    var b, c, p := Flagged(r.shortnessOfBreath, 3, ShortnessOfBreath), Flagged(r.cough, 1, Cough),
                   Flagged(r.chestPain, 2, ChestPain);
    Step(b.points + c.points + p.points + Hypoxemia(r.oxygenSaturation).points, b.notes + c.notes + p.notes)
  }

  /** `_assess_respiratory_status`: Severe at >= 7, Moderate at >= 3. */
  method AssessRespiratoryStatus(r: CovidReadings) returns (a: Assessment<Note>)
    ensures a.score == RespiratoryTally(r).points
    ensures a.notes == RespiratoryTally(r).notes
    ensures a.band == BandOf(RespiratoryTally(r).points as real, 3.0, 7.0)
  {
    var score := 0;
    var symptoms: seq<Note> := [];
    ghost var b, c, p := Flagged(r.shortnessOfBreath, 3, ShortnessOfBreath), Flagged(r.cough, 1, Cough),
                         Flagged(r.chestPain, 2, ChestPain);
    if r.shortnessOfBreath {
      score := score + 3;
      symptoms := symptoms + [ShortnessOfBreath];
    }
    assert Step(score, symptoms) == b;
    if r.cough {
      score := score + 1;
      symptoms := symptoms + [Cough];
    }
    assert score == b.points + c.points && symptoms == b.notes + c.notes;
    if r.chestPain {
      score := score + 2;
      symptoms := symptoms + [ChestPain];
    }
    assert score == b.points + c.points + p.points && symptoms == b.notes + c.notes + p.notes;
    if r.oxygenSaturation < 90.0 {
      score := score + 4;
    } else if r.oxygenSaturation < 95.0 {
      score := score + 2;
    }
    assert Step(score, symptoms) == RespiratoryTally(r);
    a := Assessment(MinInt(score, 10), symptoms, BandOf(score as real, 3.0, 7.0));
  }

  function Crp(cReactiveProtein: real): (t: Step<Note>)
    ensures forall x :: x in t.notes <==> (x == SeverelyElevatedCrp && cReactiveProtein > 100.0) || (x == ElevatedCrp && 10.0 < cReactiveProtein <= 100.0)
    ensures |t.notes| <= 1
  {
    if cReactiveProtein > 100.0 then Step(4, [SeverelyElevatedCrp])
    else if cReactiveProtein > 10.0 then Step(2, [ElevatedCrp])
    else Step(0, [])
  }

  /** Which notes the Inflammatory tally lists. */
  predicate InflammatoryShown(r: CovidReadings, x: Note)
  {
    || (x == SeverelyElevatedCrp && r.cReactiveProtein > 100.0)
    || (x == ElevatedCrp && 10.0 < r.cReactiveProtein <= 100.0)
    || (x == ElevatedDDimer && r.dDimer > 1.0)
    || (x == ElevatedFerritin && r.ferritin > 1000.0)
    || (x == ElevatedLdh && r.lactateDehydrogenase > 500.0)
  }

  /** The inflammatory-marker tally; at most 10, so the cap never bites. */
  function InflammatoryTally(r: CovidReadings): (t: Step<Note>)
    ensures 0 <= t.points <= 10 && Capped(t.points) == t.points
    ensures forall x :: x in t.notes <==> InflammatoryShown(r, x)
    ensures |t.notes| <= 4
  {
    var c, d, f, l := Crp(r.cReactiveProtein), Flagged(r.dDimer > 1.0, 2, ElevatedDDimer),
                      Flagged(r.ferritin > 1000.0, 2, ElevatedFerritin),
                      Flagged(r.lactateDehydrogenase > 500.0, 2, ElevatedLdh);
    Step(c.points + d.points + f.points + l.points, c.notes + d.notes + f.notes + l.notes)
  }

  /** `_assess_inflammatory_markers`: severe inflammation at >= 6, moderate at >= 3. */
  method AssessInflammatoryMarkers(r: CovidReadings) returns (a: Assessment<Note>)
    ensures a.score == InflammatoryTally(r).points
    ensures a.notes == InflammatoryTally(r).notes
    ensures a.band == BandOf(InflammatoryTally(r).points as real, 3.0, 6.0)
  {
    var score := 0;
    var markers: seq<Note> := [];
    if r.cReactiveProtein > 100.0 {
      score := score + 4;
      markers := markers + [SeverelyElevatedCrp];
    } else if r.cReactiveProtein > 10.0 {
      score := score + 2;
      markers := markers + [ElevatedCrp];
    }
    ghost var c, d, f := Crp(r.cReactiveProtein), Flagged(r.dDimer > 1.0, 2, ElevatedDDimer),
                         Flagged(r.ferritin > 1000.0, 2, ElevatedFerritin);
    assert Step(score, markers) == c;
    if r.dDimer > 1.0 {
      score := score + 2;
      markers := markers + [ElevatedDDimer];
    }
    assert score == c.points + d.points && markers == c.notes + d.notes;
    if r.ferritin > 1000.0 {
      score := score + 2;
      markers := markers + [ElevatedFerritin];
    }
    assert score == c.points + d.points + f.points && markers == c.notes + d.notes + f.notes;
    if r.lactateDehydrogenase > 500.0 {
      score := score + 2;
      markers := markers + [ElevatedLdh];
    }
    assert Step(score, markers) == InflammatoryTally(r);
    a := Assessment(MinInt(score, 10), markers, BandOf(score as real, 3.0, 6.0));
  }

  function CovidFatigue(fatigue: real): (t: Step<Note>)
    ensures forall x :: x in t.notes <==> (x == SevereFatigue && fatigue >= 7.0) || (x == ModerateFatigue && 4.0 <= fatigue < 7.0)
    ensures |t.notes| <= 1
  {
    if fatigue >= 7.0 then Step(2, [SevereFatigue])
    else if fatigue >= 4.0 then Step(1, [ModerateFatigue])
    else Step(0, [])
  }

  /** Which notes the CovidSymptom tally lists. */
  predicate CovidSymptomShown(r: CovidReadings, x: Note)
  {
    || (x == SevereFatigue && r.fatigue >= 7.0)
    || (x == ModerateFatigue && 4.0 <= r.fatigue < 7.0)
    || (x == ProlongedFever && r.feverDurationDays > 7.0)
    || (x == Headache && r.headache)
    || (x == MuscleAches && r.muscleAches)
  }

  /** The COVID symptom tally; at most 6. */
  function CovidSymptomTally(r: CovidReadings): (t: Step<Note>)
    ensures 0 <= t.points <= 6
    ensures forall x :: x in t.notes <==> CovidSymptomShown(r, x)
    ensures |t.notes| <= 4
  {
    var f, p, h, m := CovidFatigue(r.fatigue), Flagged(r.feverDurationDays > 7.0, 2, ProlongedFever),
                      Flagged(r.headache, 1, Headache), Flagged(r.muscleAches, 1, MuscleAches);
    Step(f.points + p.points + h.points + m.points, f.notes + p.notes + h.notes + m.notes)
  }

  /** The COVID `_assess_symptom_severity`: Severe at >= 5, Moderate at >= 3. */
  method AssessCovidSymptoms(r: CovidReadings) returns (a: Assessment<Note>)
    ensures a.score == CovidSymptomTally(r).points
    ensures a.notes == CovidSymptomTally(r).notes
    ensures a.band == BandOf(CovidSymptomTally(r).points as real, 3.0, 5.0)
  {
    var score := 0;
    var symptoms: seq<Note> := [];
    if r.fatigue >= 7.0 {
      score := score + 2;
      symptoms := symptoms + [SevereFatigue];
    } else if r.fatigue >= 4.0 {
      score := score + 1;
      symptoms := symptoms + [ModerateFatigue];
    }
    ghost var f, p, h := CovidFatigue(r.fatigue), Flagged(r.feverDurationDays > 7.0, 2, ProlongedFever),
                         Flagged(r.headache, 1, Headache);
    assert Step(score, symptoms) == f;
    if r.feverDurationDays > 7.0 {
      score := score + 2;
      symptoms := symptoms + [ProlongedFever];
    }
    assert score == f.points + p.points && symptoms == f.notes + p.notes;
    if r.headache {
      score := score + 1;
      symptoms := symptoms + [Headache];
    }
    assert score == f.points + p.points + h.points && symptoms == f.notes + p.notes + h.notes;
    if r.muscleAches {
      score := score + 1;
      symptoms := symptoms + [MuscleAches];
    }
    assert Step(score, symptoms) == CovidSymptomTally(r);
    a := Assessment(MinInt(score, 10), symptoms, BandOf(score as real, 3.0, 5.0));
  }

  /** Four component assessments and their weighted total. */
  datatype Metrics = Metrics(
    first: Assessment<Note>, second: Assessment<Note>, third: Assessment<Note>,
    fourth: Assessment<Note>, total: real, totalBand: Band)

  /** The COVID `analyze_health_metrics`: severity = 0.3 vital + 0.4 respiratory
    * + 0.2 inflammatory + 0.1 symptoms; the weights sum to 1, so the severity
    * stays in [0, 10]. Severe at >= 7, Moderate at >= 4. */
  method AnalyzeCovidMetrics(r: CovidReadings) returns (m: Metrics)
    ensures m.first.score == Capped(VitalSignsTally(r).points) && m.first.notes == VitalSignsTally(r).notes
    ensures m.second.score == RespiratoryTally(r).points && m.second.notes == RespiratoryTally(r).notes
    ensures m.third.score == InflammatoryTally(r).points && m.third.notes == InflammatoryTally(r).notes
    ensures m.fourth.score == CovidSymptomTally(r).points && m.fourth.notes == CovidSymptomTally(r).notes
    ensures m.total == 0.3 * m.first.score as real + 0.4 * m.second.score as real
                       + 0.2 * m.third.score as real + 0.1 * m.fourth.score as real
    ensures 0.0 <= m.total <= 10.0
    ensures m.totalBand == BandOf(m.total, 4.0, 7.0)
  {
    var vital := AssessVitalSigns(r);
    var respiratory := AssessRespiratoryStatus(r);
    var inflammatory := AssessInflammatoryMarkers(r);
    var symptoms := AssessCovidSymptoms(r);
    var severity := vital.score as real * 0.3 + respiratory.score as real * 0.4
                    + inflammatory.score as real * 0.2 + symptoms.score as real * 0.1;
    m := Metrics(vital, respiratory, inflammatory, symptoms, severity, BandOf(severity, 4.0, 7.0));
  }

  /** The weight classes of the COVID `_assess_bmi_impact`, heaviest first. */
  datatype WeightClass = SeverelyObese | Obese | Overweight | NormalWeight

  /** The vaccination statuses of `_assess_vaccination_protection`. */
  datatype Vaccination = Boosted | FullyVaccinated | PartiallyVaccinated | Unvaccinated

  /** The COVID `_assess_smoking_impact`: 2 is a current, 1 a former smoker. */
  function CovidSmokingImpact(smokingStatus: real): (l: Level)
    ensures l == High <==> smokingStatus == 2.0
    ensures l == Medium <==> smokingStatus == 1.0
    ensures l == Low <==> smokingStatus != 2.0 && smokingStatus != 1.0
  {
    if smokingStatus == 2.0 then High else if smokingStatus == 1.0 then Medium else Low
  }

  /** The weight class of `_assess_bmi_impact`. */
  function BmiClass(bmi: real): (w: WeightClass)
    ensures w == SeverelyObese <==> bmi >= 40.0
    ensures w == Obese <==> 30.0 <= bmi < 40.0
    ensures w == Overweight <==> 25.0 <= bmi < 30.0
    ensures w == NormalWeight <==> bmi < 25.0
  {
    if bmi >= 40.0 then SeverelyObese else if bmi >= 30.0 then Obese
    else if bmi >= 25.0 then Overweight else NormalWeight
  }

  /** The risk level `_assess_bmi_impact` attaches to each weight class. */
  function BmiRisk(w: WeightClass): Level
  {
    match w
    case SeverelyObese => VeryHigh
    case Obese => High
    case Overweight => Medium
    case NormalWeight => Low
  }

  /** A heavier BMI never has a lower COVID risk level. */
  lemma BmiRiskMonotone(b1: real, b2: real)
    requires b1 <= b2
    ensures BmiRisk(BmiClass(b2)) == Low ==> BmiRisk(BmiClass(b1)) == Low
    ensures BmiRisk(BmiClass(b1)) == VeryHigh ==> BmiRisk(BmiClass(b2)) == VeryHigh
    ensures BmiRisk(BmiClass(b1)) == High ==> BmiRisk(BmiClass(b2)) in {High, VeryHigh}
  {
  }

  function VaccinationOf(vaccinationStatus: real): (v: Vaccination)
    ensures v == Boosted <==> vaccinationStatus == 3.0
    ensures v == FullyVaccinated <==> vaccinationStatus == 2.0
    ensures v == PartiallyVaccinated <==> vaccinationStatus == 1.0
    ensures v == Unvaccinated <==> vaccinationStatus != 1.0 && vaccinationStatus != 2.0 && vaccinationStatus != 3.0
  {
    if vaccinationStatus == 3.0 then Boosted else if vaccinationStatus == 2.0 then FullyVaccinated
    else if vaccinationStatus == 1.0 then PartiallyVaccinated else Unvaccinated
  }

  function CovidAdvice(r: CovidReadings): (recs: seq<Advice>)
    ensures CovidQuitSmoking in recs <==> r.smokingStatus == 2.0
    ensures CovidManageWeight in recs <==> r.bmi >= 30.0
    ensures ConsiderBooster in recs <==> r.vaccinationStatus < 3.0
    ensures |recs| <= 3
  {
    (if r.smokingStatus == 2.0 then [CovidQuitSmoking] else [])
    + (if r.bmi >= 30.0 then [CovidManageWeight] else [])
    + (if r.vaccinationStatus < 3.0 then [ConsiderBooster] else [])
  }

  datatype CovidLifestyle = CovidLifestyle(
    smoking: Level, weight: WeightClass, vaccination: Vaccination, recommendations: seq<Advice>)

  /** The COVID `assess_lifestyle_impact`. Only a boosted status (3) or one
    * above 3, which counts as unvaccinated, draws no booster advice. */
  method CovidLifestyleImpact(r: CovidReadings) returns (impact: CovidLifestyle)
    ensures impact.smoking == CovidSmokingImpact(r.smokingStatus)
    ensures impact.weight == BmiClass(r.bmi)
    ensures impact.vaccination == VaccinationOf(r.vaccinationStatus)
    ensures impact.recommendations == CovidAdvice(r)
    ensures ConsiderBooster !in impact.recommendations ==> impact.vaccination in {Boosted, Unvaccinated}
  {
    var recs: seq<Advice> := [];
    if r.smokingStatus == 2.0 {
      recs := recs + [CovidQuitSmoking];
    }
    if r.bmi >= 30.0 {
      recs := recs + [CovidManageWeight];
    }
    if r.vaccinationStatus < 3.0 {
      recs := recs + [ConsiderBooster];
    }
    impact := CovidLifestyle(CovidSmokingImpact(r.smokingStatus), BmiClass(r.bmi),
                             VaccinationOf(r.vaccinationStatus), recs);
  }

  // ---------------------------------------------------------------------
  // Asthma / COPD (AsthmaCopdPredictor)
  // ---------------------------------------------------------------------

  datatype CopdReadings = CopdReadings(
    fev1PercentPredicted: real, fev1FvcRatio: real,
    oxygenSaturationRest: real, oxygenSaturationExercise: real,
    shortnessOfBreathScale: real, coughFrequency: real, sputumProduction: real, rescueInhalerUse: real,
    exacerbationsLastYear: real, hospitalizationsLastYear: real, steroidCoursesLastYear: real,
    exerciseTolerance: real, sleepDisturbance: real,
    currentSmokingStatus: real, smokingPackYears: real,
    occupationalExposure: bool, airQualityExposure: real, allergies: bool, seasonalVariation: bool,
    medicationAdherence: real)

  const LungFunctionLabels := Labels("Mild impairment", "Moderate impairment", "Severe impairment")
  const SymptomControlLabels := Labels("Good control", "Partial control", "Poor control")
  const ExacerbationLabels := Labels("Low risk", "Moderate risk", "High risk")
  const QualityOfLifeLabels := Labels("Minimally impacted", "Moderately impacted", "Severely impacted")

  function Fev1(fev1: real): (t: Step<Note>)
    ensures forall x :: x in t.notes <==> (x == VerySevereObstruction && fev1 < 30.0) || (x == SevereObstruction && 30.0 <= fev1 < 50.0) || (x == ModerateObstruction && 50.0 <= fev1 < 80.0)
    ensures |t.notes| <= 1
  {
    if fev1 < 30.0 then Step(5, [VerySevereObstruction])
    else if fev1 < 50.0 then Step(4, [SevereObstruction])
    else if fev1 < 80.0 then Step(2, [ModerateObstruction])
    else Step(0, [])
  }

  function FevRatio(ratio: real): (t: Step<Note>)
    ensures forall x :: x in t.notes <==> (x == SevereObstructionPattern && ratio < 0.5) || (x == ObstructionPattern && 0.5 <= ratio < 0.7)
    ensures |t.notes| <= 1
  {
    if ratio < 0.5 then Step(3, [SevereObstructionPattern])
    else if ratio < 0.7 then Step(2, [ObstructionPattern])
    else Step(0, [])
  }

  function CopdOxygen(rest: real, exercise: real): (t: Step<Note>)
    ensures forall x :: x in t.notes <==> (x == HypoxemiaAtRest && rest < 90.0) || (x == ExerciseHypoxemia && rest >= 90.0 && exercise < 90.0)
    ensures |t.notes| <= 1
  {
    if rest < 90.0 then Step(3, [HypoxemiaAtRest])
    else if exercise < 90.0 then Step(2, [ExerciseHypoxemia])
    else Step(0, [])
  }

  /** Which notes the LungFunction tally lists. */
  predicate LungFunctionShown(r: CopdReadings, x: Note)
  {
    || (x == VerySevereObstruction && r.fev1PercentPredicted < 30.0)
    || (x == SevereObstruction && 30.0 <= r.fev1PercentPredicted < 50.0)
    || (x == ModerateObstruction && 50.0 <= r.fev1PercentPredicted < 80.0)
    || (x == SevereObstructionPattern && r.fev1FvcRatio < 0.5)
    || (x == ObstructionPattern && 0.5 <= r.fev1FvcRatio < 0.7)
    || (x == HypoxemiaAtRest && r.oxygenSaturationRest < 90.0)
    || (x == ExerciseHypoxemia && r.oxygenSaturationRest >= 90.0 && r.oxygenSaturationExercise < 90.0)
  }

  /** The lung-function tally; the worst readings give 11, which the cap cuts to 10. */
  function LungFunctionTally(r: CopdReadings): (t: Step<Note>)
    ensures 0 <= t.points <= 11
    ensures forall x :: x in t.notes <==> LungFunctionShown(r, x)
    ensures |t.notes| <= 3
  {
    var f, q, o := Fev1(r.fev1PercentPredicted), FevRatio(r.fev1FvcRatio),
                   CopdOxygen(r.oxygenSaturationRest, r.oxygenSaturationExercise);
    Step(f.points + q.points + o.points, f.notes + q.notes + o.notes)
  }

  /** `_assess_lung_function`: severe impairment at raw >= 7, moderate at >= 4. */
  method AssessLungFunction(r: CopdReadings) returns (a: Assessment<Note>)
    ensures a.score == Capped(LungFunctionTally(r).points) && 0 <= a.score <= 10
    ensures a.notes == LungFunctionTally(r).notes
    ensures a.band == BandOf(LungFunctionTally(r).points as real, 4.0, 7.0)
  {
    var score := 0;
    var issues: seq<Note> := [];
    ghost var f, q := Fev1(r.fev1PercentPredicted), FevRatio(r.fev1FvcRatio);
    var fev1 := r.fev1PercentPredicted;
    if fev1 < 30.0 {
      score := score + 5;
      issues := issues + [VerySevereObstruction];
    } else if fev1 < 50.0 {
      score := score + 4;
      issues := issues + [SevereObstruction];
    } else if fev1 < 80.0 {
      score := score + 2;
      issues := issues + [ModerateObstruction];
    }
    assert Step(score, issues) == f;
    if r.fev1FvcRatio < 0.5 {
      score := score + 3;
      issues := issues + [SevereObstructionPattern];
    } else if r.fev1FvcRatio < 0.7 {
      score := score + 2;
      issues := issues + [ObstructionPattern];
    }
    assert score == f.points + q.points && issues == f.notes + q.notes;
    if r.oxygenSaturationRest < 90.0 {
      score := score + 3;
      issues := issues + [HypoxemiaAtRest];
    } else if r.oxygenSaturationExercise < 90.0 {
      score := score + 2;
      issues := issues + [ExerciseHypoxemia];
    }
    assert Step(score, issues) == LungFunctionTally(r);
    a := Assessment(MinInt(score, 10), issues, BandOf(score as real, 4.0, 7.0));
  }

  function Dyspnea(scale: real): (t: Step<Note>)
    ensures forall x :: x in t.notes <==> (x == SevereDyspnea && scale >= 4.0) || (x == ModerateDyspnea && 2.0 <= scale < 4.0)
    ensures |t.notes| <= 1
  {
    if scale >= 4.0 then Step(4, [SevereDyspnea])
    else if scale >= 2.0 then Step(2, [ModerateDyspnea])
    else Step(0, [])
  }

  function RescueInhaler(uses: real): (t: Step<Note>)
    ensures forall x :: x in t.notes <==> (x == FrequentRescueUse && uses > 14.0) || (x == RegularRescueUse && 7.0 < uses <= 14.0)
    ensures |t.notes| <= 1
  {
    if uses > 14.0 then Step(3, [FrequentRescueUse])
    else if uses > 7.0 then Step(2, [RegularRescueUse])
    else Step(0, [])
  }

  /** Which notes the SymptomControl tally lists. */
  predicate SymptomControlShown(r: CopdReadings, x: Note)
  {
    || (x == SevereDyspnea && r.shortnessOfBreathScale >= 4.0)
    || (x == ModerateDyspnea && 2.0 <= r.shortnessOfBreathScale < 4.0)
    || (x == FrequentCough && r.coughFrequency >= 3.0)
    || (x == SignificantSputum && r.sputumProduction >= 3.0)
    || (x == FrequentRescueUse && r.rescueInhalerUse > 14.0)
    || (x == RegularRescueUse && 7.0 < r.rescueInhalerUse <= 14.0)
  }

  /** The symptom-control tally; at most 11. */
  function SymptomControlTally(r: CopdReadings): (t: Step<Note>)
    ensures 0 <= t.points <= 11
    ensures forall x :: x in t.notes <==> SymptomControlShown(r, x)
    ensures |t.notes| <= 4
  {
    var d, c, s, u := Dyspnea(r.shortnessOfBreathScale), Flagged(r.coughFrequency >= 3.0, 2, FrequentCough),
                      Flagged(r.sputumProduction >= 3.0, 2, SignificantSputum), RescueInhaler(r.rescueInhalerUse);
    Step(d.points + c.points + s.points + u.points, d.notes + c.notes + s.notes + u.notes)
  }

  /** `_assess_symptom_control`: poor control at raw >= 7, partial at >= 4. */
  method AssessSymptomControl(r: CopdReadings) returns (a: Assessment<Note>)
    ensures a.score == Capped(SymptomControlTally(r).points) && 0 <= a.score <= 10
    ensures a.notes == SymptomControlTally(r).notes
    ensures a.band == BandOf(SymptomControlTally(r).points as real, 4.0, 7.0)
  {
    var score := 0;
    var symptoms: seq<Note> := [];
    ghost var d, c, s := Dyspnea(r.shortnessOfBreathScale), Flagged(r.coughFrequency >= 3.0, 2, FrequentCough),
                         Flagged(r.sputumProduction >= 3.0, 2, SignificantSputum);
    var dyspnea := r.shortnessOfBreathScale;
    if dyspnea >= 4.0 {
      score := score + 4;
      symptoms := symptoms + [SevereDyspnea];
    } else if dyspnea >= 2.0 {
      score := score + 2;
      symptoms := symptoms + [ModerateDyspnea];
    }
    assert Step(score, symptoms) == d;
    if r.coughFrequency >= 3.0 {
      score := score + 2;
      symptoms := symptoms + [FrequentCough];
    }
    assert score == d.points + c.points && symptoms == d.notes + c.notes;
    if r.sputumProduction >= 3.0 {
      score := score + 2;
      symptoms := symptoms + [SignificantSputum];
    }
    assert score == d.points + c.points + s.points && symptoms == d.notes + c.notes + s.notes;
    if r.rescueInhalerUse > 14.0 {
      score := score + 3;
      symptoms := symptoms + [FrequentRescueUse];
    } else if r.rescueInhalerUse > 7.0 {
      score := score + 2;
      symptoms := symptoms + [RegularRescueUse];
    }
    assert Step(score, symptoms) == SymptomControlTally(r);
    a := Assessment(MinInt(score, 10), symptoms, BandOf(score as real, 4.0, 7.0));
  }

  function ExacerbationHistory(count: real): (t: Step<Note>)
    ensures forall x :: x in t.notes <==> (x == FrequentExacerbations && count >= 3.0) || (x == RecurrentExacerbations && 2.0 <= count < 3.0) || (x == PreviousExacerbations && 1.0 <= count < 2.0)
    ensures |t.notes| <= 1
  {
    if count >= 3.0 then Step(4, [FrequentExacerbations])
    else if count >= 2.0 then Step(3, [RecurrentExacerbations])
    else if count >= 1.0 then Step(2, [PreviousExacerbations])
    else Step(0, [])
  }

  /** Which notes the Exacerbation tally lists. */
  predicate ExacerbationShown(r: CopdReadings, x: Note)
  {
    || (x == FrequentExacerbations && r.exacerbationsLastYear >= 3.0)
    || (x == RecurrentExacerbations && 2.0 <= r.exacerbationsLastYear < 3.0)
    || (x == PreviousExacerbations && 1.0 <= r.exacerbationsLastYear < 2.0)
    || (x == RecentHospitalizations && r.hospitalizationsLastYear >= 1.0)
    || (x == FrequentSteroidUse && r.steroidCoursesLastYear >= 3.0)
    || (x == SevereObstruction && r.fev1PercentPredicted < 50.0)
  }

  /** The exacerbation tally; at most 11. A FEV1 below 50 adds the same
    * obstruction note the lung-function helper uses. */
  function ExacerbationTally(r: CopdReadings): (t: Step<Note>)
    ensures 0 <= t.points <= 11
    ensures forall x :: x in t.notes <==> ExacerbationShown(r, x)
    ensures |t.notes| <= 4
  {
    var e, h, s, f := ExacerbationHistory(r.exacerbationsLastYear),
                      Flagged(r.hospitalizationsLastYear >= 1.0, 3, RecentHospitalizations),
                      Flagged(r.steroidCoursesLastYear >= 3.0, 2, FrequentSteroidUse),
                      Flagged(r.fev1PercentPredicted < 50.0, 2, SevereObstruction);
    Step(e.points + h.points + s.points + f.points, e.notes + h.notes + s.notes + f.notes)
  }

  /** `_assess_exacerbation_risk`: high risk at raw >= 7, moderate at >= 4. */
  method AssessExacerbationRisk(r: CopdReadings) returns (a: Assessment<Note>)
    ensures a.score == Capped(ExacerbationTally(r).points) && 0 <= a.score <= 10
    ensures a.notes == ExacerbationTally(r).notes
    ensures a.band == BandOf(ExacerbationTally(r).points as real, 4.0, 7.0)
  {
    var score := 0;
    var riskFactors: seq<Note> := [];
    ghost var e, h, s := ExacerbationHistory(r.exacerbationsLastYear),
                         Flagged(r.hospitalizationsLastYear >= 1.0, 3, RecentHospitalizations),
                         Flagged(r.steroidCoursesLastYear >= 3.0, 2, FrequentSteroidUse);
    var exacerbations := r.exacerbationsLastYear;
    if exacerbations >= 3.0 {
      score := score + 4;
      riskFactors := riskFactors + [FrequentExacerbations];
    } else if exacerbations >= 2.0 {
      score := score + 3;
      riskFactors := riskFactors + [RecurrentExacerbations];
    } else if exacerbations >= 1.0 {
      score := score + 2;
      riskFactors := riskFactors + [PreviousExacerbations];
    }
    assert Step(score, riskFactors) == e;
    if r.hospitalizationsLastYear >= 1.0 {
      score := score + 3;
      riskFactors := riskFactors + [RecentHospitalizations];
    }
    assert score == e.points + h.points && riskFactors == e.notes + h.notes;
    if r.steroidCoursesLastYear >= 3.0 {
      score := score + 2;
      riskFactors := riskFactors + [FrequentSteroidUse];
    }
    assert score == e.points + h.points + s.points && riskFactors == e.notes + h.notes + s.notes;
    if r.fev1PercentPredicted < 50.0 {
      score := score + 2;
      riskFactors := riskFactors + [SevereObstruction];
    }
    assert Step(score, riskFactors) == ExacerbationTally(r);
    a := Assessment(MinInt(score, 10), riskFactors, BandOf(score as real, 4.0, 7.0));
  }

  function ExerciseLimitation(tolerance: real): (t: Step<Note>)
    ensures forall x :: x in t.notes <==> (x == SevereExerciseLimitation && tolerance <= 1.0) || (x == ModerateExerciseLimitation && 1.0 < tolerance <= 2.0)
    ensures |t.notes| <= 1
  {
    if tolerance <= 1.0 then Step(3, [SevereExerciseLimitation])
    else if tolerance <= 2.0 then Step(2, [ModerateExerciseLimitation])
    else Step(0, [])
  }

  /** Which notes the QualityOfLife tally lists. */
  predicate QualityOfLifeShown(r: CopdReadings, x: Note)
  {
    || (x == SevereExerciseLimitation && r.exerciseTolerance <= 1.0)
    || (x == ModerateExerciseLimitation && 1.0 < r.exerciseTolerance <= 2.0)
    || (x == SleepDisruption && r.sleepDisturbance >= 3.0)
    || (x == BreathlessnessLimitsActivity && r.shortnessOfBreathScale >= 3.0)
  }

  /** The quality-of-life tally; at most 7. */
  function QualityOfLifeTally(r: CopdReadings): (t: Step<Note>)
    ensures 0 <= t.points <= 7
    ensures forall x :: x in t.notes <==> QualityOfLifeShown(r, x)
    ensures |t.notes| <= 3
  {
    var e, s, d := ExerciseLimitation(r.exerciseTolerance), Flagged(r.sleepDisturbance >= 3.0, 2, SleepDisruption),
                   Flagged(r.shortnessOfBreathScale >= 3.0, 2, BreathlessnessLimitsActivity);
    Step(e.points + s.points + d.points, e.notes + s.notes + d.notes)
  }

  /** `_assess_quality_of_life`: severely impacted at >= 6, moderately at >= 3. */
  method AssessQualityOfLife(r: CopdReadings) returns (a: Assessment<Note>)
    ensures a.score == QualityOfLifeTally(r).points
    ensures a.notes == QualityOfLifeTally(r).notes
    ensures a.band == BandOf(QualityOfLifeTally(r).points as real, 3.0, 6.0)
  {
    var score := 0;
    var impacts: seq<Note> := [];
    ghost var e, s := ExerciseLimitation(r.exerciseTolerance), Flagged(r.sleepDisturbance >= 3.0, 2, SleepDisruption);
    if r.exerciseTolerance <= 1.0 {
      score := score + 3;
      impacts := impacts + [SevereExerciseLimitation];
    } else if r.exerciseTolerance <= 2.0 {
      score := score + 2;
      impacts := impacts + [ModerateExerciseLimitation];
    }
    assert Step(score, impacts) == e;
    if r.sleepDisturbance >= 3.0 {
      score := score + 2;
      impacts := impacts + [SleepDisruption];
    }
    assert score == e.points + s.points && impacts == e.notes + s.notes;
    if r.shortnessOfBreathScale >= 3.0 {
      score := score + 2;
      impacts := impacts + [BreathlessnessLimitsActivity];
    }
    assert Step(score, impacts) == QualityOfLifeTally(r);
    a := Assessment(MinInt(score, 10), impacts, BandOf(score as real, 3.0, 6.0));
  }

  /** The asthma/COPD `analyze_health_metrics`: severity = 0.4 lung function
    * + 0.3 symptom control + 0.2 exacerbation + 0.1 quality of life, in
    * [0, 10]; Severe at >= 7, Moderate at >= 4. */
  method AnalyzeCopdMetrics(r: CopdReadings) returns (m: Metrics)
    ensures m.first.score == Capped(LungFunctionTally(r).points) && m.first.notes == LungFunctionTally(r).notes
    ensures m.second.score == Capped(SymptomControlTally(r).points) && m.second.notes == SymptomControlTally(r).notes
    ensures m.third.score == Capped(ExacerbationTally(r).points) && m.third.notes == ExacerbationTally(r).notes
    ensures m.fourth.score == QualityOfLifeTally(r).points && m.fourth.notes == QualityOfLifeTally(r).notes
    ensures m.total == 0.4 * m.first.score as real + 0.3 * m.second.score as real
                       + 0.2 * m.third.score as real + 0.1 * m.fourth.score as real
    ensures 0.0 <= m.total <= 10.0
    ensures m.totalBand == BandOf(m.total, 4.0, 7.0)
  {
    var lung := AssessLungFunction(r);
    var control := AssessSymptomControl(r);
    var exacerbation := AssessExacerbationRisk(r);
    var quality := AssessQualityOfLife(r);
    var severity := lung.score as real * 0.4 + control.score as real * 0.3
                    + exacerbation.score as real * 0.2 + quality.score as real * 0.1;
    m := Metrics(lung, control, exacerbation, quality, severity, BandOf(severity, 4.0, 7.0));
  }

  /** The COPD `_assess_smoking_impact`: a current smoker is Very High, a
    * former smoker High above 20 pack-years and Medium otherwise. */
  function CopdSmokingImpact(smokingStatus: real, packYears: real): (l: Level)
    ensures l == VeryHigh <==> smokingStatus == 2.0
    ensures l == High <==> smokingStatus == 1.0 && packYears > 20.0
    ensures l == Medium <==> smokingStatus == 1.0 && packYears <= 20.0
    ensures l == Low <==> smokingStatus != 2.0 && smokingStatus != 1.0
  {
    if smokingStatus == 2.0 then VeryHigh
    else if smokingStatus == 1.0 && packYears > 20.0 then High
    else if smokingStatus == 1.0 then Medium
    else Low
  }

  /** Which notes the CopdEnvironment tally lists. */
  predicate CopdEnvironmentShown(r: CopdReadings, x: Note)
  {
    || (x == OccupationalIrritants && r.occupationalExposure)
    || (x == PoorAirQuality && r.airQualityExposure >= 3.0)
    || (x == SeasonalAllergens && r.allergies && r.seasonalVariation)
  }

  /** The environmental tally of the COPD `_assess_environmental_impact`. */
  function CopdEnvironmentTally(r: CopdReadings): (t: Step<Note>)
    ensures 0 <= t.points <= 7
    ensures forall x :: x in t.notes <==> CopdEnvironmentShown(r, x)
  {
    var o, q, s := Flagged(r.occupationalExposure, 3, OccupationalIrritants),
                   Flagged(r.airQualityExposure >= 3.0, 2, PoorAirQuality),
                   Flagged(r.allergies && r.seasonalVariation, 2, SeasonalAllergens);
    Step(o.points + q.points + s.points, o.notes + q.notes + s.notes)
  }

  /** `_assess_environmental_impact`: High at >= 5, Medium at >= 3. An
    * occupational exposure alone is already Medium; High needs it and one
    * more source, and Low means at most one source that is not occupational. */
  method AssessCopdEnvironment(r: CopdReadings) returns (impact: Impact<Note>)
    ensures impact.notes == CopdEnvironmentTally(r).notes
    ensures impact.level == LevelOf(CopdEnvironmentTally(r).points, 3, 5)
    ensures impact.level == High <==> |impact.notes| >= 2 && OccupationalIrritants in impact.notes
    ensures impact.level == Low <==> |impact.notes| <= 1 && OccupationalIrritants !in impact.notes
  {
    var score := 0;
    var factors: seq<Note> := [];
    ghost var o, q := Flagged(r.occupationalExposure, 3, OccupationalIrritants),
                      Flagged(r.airQualityExposure >= 3.0, 2, PoorAirQuality);
    if r.occupationalExposure {
      score := score + 3;
      factors := factors + [OccupationalIrritants];
    }
    assert Step(score, factors) == o;
    var airQuality := r.airQualityExposure;
    if airQuality >= 3.0 {
      score := score + 2;
      factors := factors + [PoorAirQuality];
    }
    assert score == o.points + q.points && factors == o.notes + q.notes;
    if r.allergies && r.seasonalVariation {
      score := score + 2;
      factors := factors + [SeasonalAllergens];
    }
    assert Step(score, factors) == CopdEnvironmentTally(r);
    impact := Impact(LevelOf(score, 3, 5), factors);
  }

  /** The adherence levels of `_assess_medication_adherence`. */
  datatype Adherence = Excellent | Good | Fair | Poor

  function AdherenceOf(adherence: real): (a: Adherence)
    ensures a == Excellent <==> adherence >= 4.0
    ensures a == Good <==> 3.0 <= adherence < 4.0
    ensures a == Fair <==> 2.0 <= adherence < 3.0
    ensures a == Poor <==> adherence < 2.0
  {
    if adherence >= 4.0 then Excellent else if adherence >= 3.0 then Good
    else if adherence >= 2.0 then Fair else Poor
  }

  function CopdAdvice(r: CopdReadings): (recs: seq<Advice>)
    ensures CopdQuitSmoking in recs <==> r.currentSmokingStatus == 2.0
    ensures MinimizeAirPollution in recs <==> r.airQualityExposure >= 3.0
    ensures ImproveAdherence in recs <==> r.medicationAdherence < 3.0
    ensures PulmonaryRehabilitation in recs <==> r.exerciseTolerance < 2.0
    ensures |recs| <= 4
  {
    (if r.currentSmokingStatus == 2.0 then [CopdQuitSmoking] else [])
    + (if r.airQualityExposure >= 3.0 then [MinimizeAirPollution] else [])
    + (if r.medicationAdherence < 3.0 then [ImproveAdherence] else [])
    + (if r.exerciseTolerance < 2.0 then [PulmonaryRehabilitation] else [])
  }

  datatype CopdLifestyle = CopdLifestyle(
    smoking: Level, environment: Impact<Note>, adherence: Adherence, recommendations: seq<Advice>)

  /** The asthma/COPD `assess_lifestyle_impact`. The adherence advice is given
    * exactly when the adherence level is Fair or Poor. */
  method CopdLifestyleImpact(r: CopdReadings) returns (impact: CopdLifestyle)
    ensures impact.smoking == CopdSmokingImpact(r.currentSmokingStatus, r.smokingPackYears)
    ensures impact.environment.notes == CopdEnvironmentTally(r).notes
    ensures impact.environment.level == LevelOf(CopdEnvironmentTally(r).points, 3, 5)
    ensures impact.adherence == AdherenceOf(r.medicationAdherence)
    ensures impact.recommendations == CopdAdvice(r)
    ensures ImproveAdherence in impact.recommendations <==> impact.adherence in {Fair, Poor}
  {
    var environment := AssessCopdEnvironment(r);
    var recs: seq<Advice> := [];
    if r.currentSmokingStatus == 2.0 {
      recs := recs + [CopdQuitSmoking];
    }
    ghost var smoking, air, adherence := (if r.currentSmokingStatus == 2.0 then [CopdQuitSmoking] else []),
                                         (if r.airQualityExposure >= 3.0 then [MinimizeAirPollution] else []),
                                         (if r.medicationAdherence < 3.0 then [ImproveAdherence] else []);
    assert recs == smoking;
    if r.airQualityExposure >= 3.0 {
      recs := recs + [MinimizeAirPollution];
    }
    assert recs == smoking + air;
    if r.medicationAdherence < 3.0 {
      recs := recs + [ImproveAdherence];
    }
    assert recs == smoking + air + adherence;
    if r.exerciseTolerance < 2.0 {
      recs := recs + [PulmonaryRehabilitation];
    }
    impact := CopdLifestyle(CopdSmokingImpact(r.currentSmokingStatus, r.smokingPackYears), environment,
                            AdherenceOf(r.medicationAdherence), recs);
  }

  // ---------------------------------------------------------------------
  // Anemia (AnemiaPredictor)
  // ---------------------------------------------------------------------

  datatype AnemiaReadings = AnemiaReadings(
    gender: real, hemoglobin: real, meanCorpuscularVolume: real, ferritin: real,
    vitaminB12: real, folate: real, chronicKidneyDisease: bool, chronicInflammatoryDisease: bool,
    transferrinSaturation: real, serumIron: real, fatigueLevel: real,
    shortnessOfBreath: bool, paleSkin: bool, coldHandsFeet: bool, brittleNails: bool, strangeCravings: bool,
    vegetarianDiet: bool, alcoholConsumption: real, gastrointestinalBleeding: bool, heavyMenstrualPeriods: bool)

  /** The severity grades of `_assess_anemia_severity`. */
  datatype AnemiaGrade = NoAnemia | MildAnemia | ModerateAnemia | SevereAnemia

  /** The hemoglobin level below which a patient counts as anemic: 12 for
    * gender 1 (male), 11 for any other value. */
  function AnemiaThreshold(gender: real): (t: real)
    ensures t == 12.0 || t == 11.0
  {
    if gender == 1.0 then 12.0 else 11.0
  }

  /** `_assess_anemia_severity`'s grade: the male and female ladders differ
    * only in the mild cut-off. */
  function AnemiaGradeOf(hemoglobin: real, gender: real): (g: AnemiaGrade)
    ensures g == SevereAnemia <==> hemoglobin < 8.0
    ensures g == ModerateAnemia <==> 8.0 <= hemoglobin < 10.0
    ensures g == MildAnemia <==> 10.0 <= hemoglobin < AnemiaThreshold(gender)
    ensures g == NoAnemia <==> hemoglobin >= AnemiaThreshold(gender)
  {
    if gender == 1.0 then
      if hemoglobin < 8.0 then SevereAnemia
      else if hemoglobin < 10.0 then ModerateAnemia
      else if hemoglobin < 12.0 then MildAnemia
      else NoAnemia
    else
      if hemoglobin < 8.0 then SevereAnemia
      else if hemoglobin < 10.0 then ModerateAnemia
      else if hemoglobin < 11.0 then MildAnemia
      else NoAnemia
  }

  function GradeScore(g: AnemiaGrade): int
  {
    match g
    case SevereAnemia => 10
    case ModerateAnemia => 7
    case MildAnemia => 4
    case NoAnemia => 0
  }

  /** The `score` of `_assess_anemia_severity`. */
  function AnemiaSeverityScore(hemoglobin: real, gender: real): (s: int)
    ensures s == 0 || s == 4 || s == 7 || s == 10
    ensures s == 0 <==> hemoglobin >= AnemiaThreshold(gender)
    ensures s == 10 <==> hemoglobin < 8.0
  {
    GradeScore(AnemiaGradeOf(hemoglobin, gender))
  }

  /** The severity score never rises with hemoglobin, and at equal hemoglobin
    * the male cut-off scores at least as high as the female one. */
  lemma AnemiaSeverityMonotone(h1: real, h2: real, gender: real)
    requires h1 <= h2
    ensures AnemiaSeverityScore(h1, gender) >= AnemiaSeverityScore(h2, gender)
    ensures AnemiaSeverityScore(h1, 1.0) >= AnemiaSeverityScore(h1, gender)
  {
  }

  /** The types `_determine_anemia_type` reports. */
  datatype AnemiaKind =
    | IronDeficiency | MicrocyticChronicDisease | Megaloblastic | NonMegaloblasticMacrocytic
    | ChronicDiseaseAnemia | NormocyticAnemia | NotAnemic

  /** `_determine_anemia_type`: the cell size picks the family, and a
    * hemoglobin at or above the gender's threshold overrides it with Normal. */
  function AnemiaTypeOf(r: AnemiaReadings): (k: AnemiaKind)
    ensures k == NotAnemic <==> r.hemoglobin >= AnemiaThreshold(r.gender)
    ensures k != NotAnemic && r.meanCorpuscularVolume < 80.0 ==>
              k == (if r.ferritin < 15.0 then IronDeficiency else MicrocyticChronicDisease)
    ensures k != NotAnemic && r.meanCorpuscularVolume > 100.0 ==>
              k == (if r.vitaminB12 < 200.0 || r.folate < 3.0 then Megaloblastic else NonMegaloblasticMacrocytic)
    ensures k != NotAnemic && 80.0 <= r.meanCorpuscularVolume <= 100.0 ==>
              k == (if r.chronicKidneyDisease || r.chronicInflammatoryDisease then ChronicDiseaseAnemia
                    else NormocyticAnemia)
  {
    var byCells :=
      if r.meanCorpuscularVolume < 80.0 then
        (if r.ferritin < 15.0 then IronDeficiency else MicrocyticChronicDisease)
      else if r.meanCorpuscularVolume > 100.0 then
        (if r.vitaminB12 < 200.0 || r.folate < 3.0 then Megaloblastic else NonMegaloblasticMacrocytic)
      else if r.chronicKidneyDisease || r.chronicInflammatoryDisease then ChronicDiseaseAnemia
      else NormocyticAnemia;
    var threshold := if r.gender == 1.0 then 12.0 else 11.0;
    if r.hemoglobin >= threshold then NotAnemic else byCells
  }

  /** The type and the severity agree on who is anemic: the type is Normal
    * exactly when the severity score is 0. */
  lemma AnemiaTypeAgreesWithSeverity(r: AnemiaReadings)
    ensures AnemiaTypeOf(r) == NotAnemic <==> AnemiaSeverityScore(r.hemoglobin, r.gender) == 0
    ensures AnemiaTypeOf(r) == NotAnemic <==> AnemiaGradeOf(r.hemoglobin, r.gender) == NoAnemia
  {
  }

  function FerritinStores(ferritin: real): (t: Step<Note>)
    ensures forall x :: x in t.notes <==> (x == SeverelyLowFerritin && ferritin < 15.0) || (x == LowFerritin && 15.0 <= ferritin < 30.0) || (x == ElevatedFerritin && ferritin > 300.0)
    ensures |t.notes| <= 1
  {
    if ferritin < 15.0 then Step(4, [SeverelyLowFerritin])
    else if ferritin < 30.0 then Step(3, [LowFerritin])
    else if ferritin > 300.0 then Step(2, [ElevatedFerritin])
    else Step(0, [])
  }

  function TransferrinSaturation(saturation: real): (t: Step<Note>)
    ensures forall x :: x in t.notes <==> (x == LowTransferrinSaturation && saturation < 16.0) || (x == HighTransferrinSaturation && saturation > 45.0)
    ensures |t.notes| <= 1
  {
    if saturation < 16.0 then Step(3, [LowTransferrinSaturation])
    else if saturation > 45.0 then Step(2, [HighTransferrinSaturation])
    else Step(0, [])
  }

  /** Which notes the IronStatus tally lists. */
  predicate IronStatusShown(r: AnemiaReadings, x: Note)
  {
    || (x == SeverelyLowFerritin && r.ferritin < 15.0)
    || (x == LowFerritin && 15.0 <= r.ferritin < 30.0)
    || (x == ElevatedFerritin && r.ferritin > 300.0)
    || (x == LowTransferrinSaturation && r.transferrinSaturation < 16.0)
    || (x == HighTransferrinSaturation && r.transferrinSaturation > 45.0)
    || (x == LowSerumIron && r.serumIron < 60.0)
  }

  /** The iron-status tally; at most 9, so the cap never bites. The
    * saturation cut-offs 16 and 45 read the field as a percentage. */
  function IronStatusTally(r: AnemiaReadings): (t: Step<Note>)
    ensures 0 <= t.points <= 9 && Capped(t.points) == t.points
    ensures forall x :: x in t.notes <==> IronStatusShown(r, x)
    ensures |t.notes| <= 3
  {
    var f, s, i := FerritinStores(r.ferritin), TransferrinSaturation(r.transferrinSaturation),
                   Flagged(r.serumIron < 60.0, 2, LowSerumIron);
    Step(f.points + s.points + i.points, f.notes + s.notes + i.notes)
  }

  /** `_assess_iron_status`: severe deficiency at >= 7, moderate at >= 4. */
  method AssessIronStatus(r: AnemiaReadings) returns (a: Assessment<Note>)
    ensures a.score == IronStatusTally(r).points
    ensures a.notes == IronStatusTally(r).notes
    ensures a.band == BandOf(IronStatusTally(r).points as real, 4.0, 7.0)
  {
    var score := 0;
    var issues: seq<Note> := [];
    ghost var f, s := FerritinStores(r.ferritin), TransferrinSaturation(r.transferrinSaturation);
    var ferritin := r.ferritin;
    if ferritin < 15.0 {
      score := score + 4;
      issues := issues + [SeverelyLowFerritin];
    } else if ferritin < 30.0 {
      score := score + 3;
      issues := issues + [LowFerritin];
    } else if ferritin > 300.0 {
      score := score + 2;
      issues := issues + [ElevatedFerritin];
    }
    assert Step(score, issues) == f;
    var tsat := r.transferrinSaturation;
    if tsat < 16.0 {
      score := score + 3;
      issues := issues + [LowTransferrinSaturation];
    } else if tsat > 45.0 {
      score := score + 2;
      issues := issues + [HighTransferrinSaturation];
    }
    assert score == f.points + s.points && issues == f.notes + s.notes;
    var iron := r.serumIron;
    if iron < 60.0 {
      score := score + 2;
      issues := issues + [LowSerumIron];
    }
    assert Step(score, issues) == IronStatusTally(r);
    a := Assessment(MinInt(score, 10), issues, BandOf(score as real, 4.0, 7.0));
  }

  /** The fatigue ladder the anemia and thyroid symptom helpers share. */
  function Fatigue(level: real): (t: Step<Note>)
    ensures forall x :: x in t.notes <==> (x == SevereFatigue && level >= 7.0) || (x == ModerateFatigue && 4.0 <= level < 7.0)
    ensures |t.notes| <= 1
  {
    if level >= 7.0 then Step(3, [SevereFatigue])
    else if level >= 4.0 then Step(2, [ModerateFatigue])
    else Step(0, [])
  }

  /** When each anemia symptom note is listed. */
  predicate AnemiaSymptomShown(r: AnemiaReadings, x: Note)
  {
    || (x == SevereFatigue && r.fatigueLevel >= 7.0)
    || (x == ModerateFatigue && 4.0 <= r.fatigueLevel < 7.0)
    || (x == ShortnessOfBreath && r.shortnessOfBreath)
    || (x == PaleSkin && r.paleSkin)
    || (x == ColdHandsFeet && r.coldHandsFeet)
    || (x == BrittleNails && r.brittleNails)
    || (x == Pica && r.strangeCravings)
  }

  /** The anemia symptom tally; at most 10, so the cap never bites. */
  function AnemiaSymptomTally(r: AnemiaReadings): (t: Step<Note>)
    ensures 0 <= t.points <= 10 && Capped(t.points) == t.points
    ensures forall x :: x in t.notes <==> AnemiaSymptomShown(r, x)
    ensures |t.notes| <= 6
  {
    var f, b, p, c, n, s := Fatigue(r.fatigueLevel), Flagged(r.shortnessOfBreath, 2, ShortnessOfBreath),
                            Flagged(r.paleSkin, 1, PaleSkin), Flagged(r.coldHandsFeet, 1, ColdHandsFeet),
                            Flagged(r.brittleNails, 1, BrittleNails), Flagged(r.strangeCravings, 2, Pica);
    Step(f.points + b.points + p.points + c.points + n.points + s.points,
         f.notes + b.notes + p.notes + c.notes + n.notes + s.notes)
  }

  /** The anemia `_assess_symptom_severity`: severe at >= 7, moderate at >= 4. */
  method AssessAnemiaSymptoms(r: AnemiaReadings) returns (a: Assessment<Note>)
    ensures a.score == AnemiaSymptomTally(r).points
    ensures a.notes == AnemiaSymptomTally(r).notes
    ensures a.band == BandOf(AnemiaSymptomTally(r).points as real, 4.0, 7.0)
  {
    var score := 0;
    var symptoms: seq<Note> := [];
    ghost var f, b, p, c, n := Fatigue(r.fatigueLevel), Flagged(r.shortnessOfBreath, 2, ShortnessOfBreath),
                               Flagged(r.paleSkin, 1, PaleSkin), Flagged(r.coldHandsFeet, 1, ColdHandsFeet),
                               Flagged(r.brittleNails, 1, BrittleNails);
    var fatigue := r.fatigueLevel;
    if fatigue >= 7.0 {
      score := score + 3;
      symptoms := symptoms + [SevereFatigue];
    } else if fatigue >= 4.0 {
      score := score + 2;
      symptoms := symptoms + [ModerateFatigue];
    }
    assert Step(score, symptoms) == f;
    if r.shortnessOfBreath {
      score := score + 2;
      symptoms := symptoms + [ShortnessOfBreath];
    }
    assert score == f.points + b.points && symptoms == f.notes + b.notes;
    if r.paleSkin {
      score := score + 1;
      symptoms := symptoms + [PaleSkin];
    }
    assert score == f.points + b.points + p.points && symptoms == f.notes + b.notes + p.notes;
    if r.coldHandsFeet {
      score := score + 1;
      symptoms := symptoms + [ColdHandsFeet];
    }
    assert score == f.points + b.points + p.points + c.points && symptoms == f.notes + b.notes + p.notes + c.notes;
    if r.brittleNails {
      score := score + 1;
      symptoms := symptoms + [BrittleNails];
    }
    assert score == f.points + b.points + p.points + c.points + n.points
        && symptoms == f.notes + b.notes + p.notes + c.notes + n.notes;
    if r.strangeCravings {
      score := score + 2;
      symptoms := symptoms + [Pica];
    }
    assert Step(score, symptoms) == AnemiaSymptomTally(r);
    a := Assessment(MinInt(score, 10), symptoms, BandOf(score as real, 4.0, 7.0));
  }

  datatype AnemiaMetrics = AnemiaMetrics(
    severityScore: int, grade: AnemiaGrade, kind: AnemiaKind,
    iron: Assessment<Note>, symptoms: Assessment<Note>, total: real, totalBand: Band)

  /** The anemia `analyze_health_metrics`: risk = 0.4 severity + 0.3 iron
    * + 0.2 symptoms + 0.1 * (5 unless the type is Normal). The components top
    * out at 10, 9 and 10, so the risk never exceeds 9.2; High at >= 7,
    * Moderate at >= 4. */
  method AnalyzeAnemiaMetrics(r: AnemiaReadings) returns (m: AnemiaMetrics)
    ensures m.severityScore == AnemiaSeverityScore(r.hemoglobin, r.gender)
    ensures m.grade == AnemiaGradeOf(r.hemoglobin, r.gender) && m.kind == AnemiaTypeOf(r)
    ensures m.iron.score == IronStatusTally(r).points && m.iron.notes == IronStatusTally(r).notes
    ensures m.symptoms.score == AnemiaSymptomTally(r).points && m.symptoms.notes == AnemiaSymptomTally(r).notes
    ensures m.total == 0.4 * m.severityScore as real + 0.3 * m.iron.score as real
                       + 0.2 * m.symptoms.score as real + 0.1 * (if m.kind != NotAnemic then 5.0 else 0.0)
    ensures 0.0 <= m.total <= 9.2
    ensures m.totalBand == BandOf(m.total, 4.0, 7.0)
    ensures m.kind == NotAnemic <==> m.severityScore == 0
  {
    var severity := AnemiaSeverityScore(r.hemoglobin, r.gender);
    var kind := AnemiaTypeOf(r);
    var iron := AssessIronStatus(r);
    var symptoms := AssessAnemiaSymptoms(r);
    var typeTerm := if kind != NotAnemic then 5.0 else 0.0;
    var risk := severity as real * 0.4 + iron.score as real * 0.3 + symptoms.score as real * 0.2 + typeTerm * 0.1;
    AnemiaTypeAgreesWithSeverity(r);
    m := AnemiaMetrics(severity, AnemiaGradeOf(r.hemoglobin, r.gender), kind, iron, symptoms, risk,
                       BandOf(risk, 4.0, 7.0));
  }

  /** `_assess_dietary_impact` (High at >= 3, Medium at >= 2): both risks
    * give High, one of them Medium. */
  method AssessAnemiaDiet(r: AnemiaReadings) returns (impact: Impact<Note>)
    ensures impact.notes == (if r.vegetarianDiet then [VegetarianDiet] else [])
                            + (if r.alcoholConsumption >= 3.0 then [AlcoholImpairsNutrients] else [])
    ensures impact.level == High <==> r.vegetarianDiet && r.alcoholConsumption >= 3.0
    ensures impact.level == Low <==> !r.vegetarianDiet && r.alcoholConsumption < 3.0
  {
    var riskFactors: seq<Note> := [];
    var score := 0;
    if r.vegetarianDiet {
      score := score + 2;
      riskFactors := riskFactors + [VegetarianDiet];
    }
    if r.alcoholConsumption >= 3.0 {
      score := score + 2;
      riskFactors := riskFactors + [AlcoholImpairsNutrients];
    }
    impact := Impact(LevelOf(score, 2, 3), riskFactors);
  }

  /** `_assess_bleeding_risk` (High at >= 4, Medium at >= 2): gastrointestinal
    * bleeding alone is High; heavy periods count only for gender 0 and alone
    * give Medium. */
  method AssessBleedingRisk(r: AnemiaReadings) returns (impact: Impact<Note>)
    ensures impact.notes == (if r.gastrointestinalBleeding then [GiBleeding] else [])
                            + (if r.heavyMenstrualPeriods && r.gender == 0.0 then [HeavyMenstrualPeriods] else [])
    ensures impact.level == High <==> r.gastrointestinalBleeding
    ensures impact.level == Medium <==> !r.gastrointestinalBleeding && r.heavyMenstrualPeriods && r.gender == 0.0
    ensures impact.level == Low <==> impact.notes == []
  {
    var bleedingSources: seq<Note> := [];
    var score := 0;
    if r.gastrointestinalBleeding {
      score := score + 4;
      bleedingSources := bleedingSources + [GiBleeding];
    }
    if r.heavyMenstrualPeriods && r.gender == 0.0 {
      score := score + 3;
      bleedingSources := bleedingSources + [HeavyMenstrualPeriods];
    }
    impact := Impact(LevelOf(score, 2, 4), bleedingSources);
  }

  /** `_assess_absorption_factors` (High at >= 3, Medium at >= 2). */
  method AssessAbsorptionFactors(r: AnemiaReadings) returns (impact: Impact<Note>)
    ensures impact.notes == (if r.chronicInflammatoryDisease then [ChronicInflammation] else [])
                            + (if r.alcoholConsumption >= 3.0 then [AlcoholImpairsB12Folate] else [])
    ensures impact.level == High <==> r.chronicInflammatoryDisease && r.alcoholConsumption >= 3.0
    ensures impact.level == Low <==> !r.chronicInflammatoryDisease && r.alcoholConsumption < 3.0
  {
    var factors: seq<Note> := [];
    var score := 0;
    if r.chronicInflammatoryDisease {
      score := score + 2;
      factors := factors + [ChronicInflammation];
    }
    if r.alcoholConsumption >= 3.0 {
      score := score + 2;
      factors := factors + [AlcoholImpairsB12Folate];
    }
    impact := Impact(LevelOf(score, 2, 3), factors);
  }

  function AnemiaAdvice(r: AnemiaReadings): (recs: seq<Advice>)
    ensures PlantBasedIron in recs <==> r.vegetarianDiet
    ensures TreatGiBleeding in recs <==> r.gastrointestinalBleeding
    ensures GynecologicalEvaluation in recs <==> r.heavyMenstrualPeriods && r.gender == 0.0
    ensures ReduceAlcohol in recs <==> r.alcoholConsumption >= 3.0
    ensures |recs| <= 4
  {
    (if r.vegetarianDiet then [PlantBasedIron] else [])
    + (if r.gastrointestinalBleeding then [TreatGiBleeding] else [])
    + (if r.heavyMenstrualPeriods && r.gender == 0.0 then [GynecologicalEvaluation] else [])
    + (if r.alcoholConsumption >= 3.0 then [ReduceAlcohol] else [])
  }

  datatype AnemiaLifestyle = AnemiaLifestyle(
    diet: Impact<Note>, bleeding: Impact<Note>, absorption: Impact<Note>, recommendations: seq<Advice>)

  /** The anemia `assess_lifestyle_impact`: a recommendation accompanies every
    * risk the three helpers report. */
  method AnemiaLifestyleImpact(r: AnemiaReadings) returns (impact: AnemiaLifestyle)
    ensures impact.recommendations == AnemiaAdvice(r)
    ensures VegetarianDiet in impact.diet.notes <==> PlantBasedIron in impact.recommendations
    ensures GiBleeding in impact.bleeding.notes <==> TreatGiBleeding in impact.recommendations
    ensures HeavyMenstrualPeriods in impact.bleeding.notes <==> GynecologicalEvaluation in impact.recommendations
    ensures AlcoholImpairsB12Folate in impact.absorption.notes <==> ReduceAlcohol in impact.recommendations
    ensures impact.bleeding.level != Low <==>
              TreatGiBleeding in impact.recommendations || GynecologicalEvaluation in impact.recommendations
  {
    var diet := AssessAnemiaDiet(r);
    var bleeding := AssessBleedingRisk(r);
    var absorption := AssessAbsorptionFactors(r);
    var recs: seq<Advice> := [];
    ghost var veg, gi, heavy := (if r.vegetarianDiet then [PlantBasedIron] else []),
                                (if r.gastrointestinalBleeding then [TreatGiBleeding] else []),
                                (if r.heavyMenstrualPeriods && r.gender == 0.0 then [GynecologicalEvaluation] else []);
    if r.vegetarianDiet {
      recs := recs + [PlantBasedIron];
    }
    assert recs == veg;
    if r.gastrointestinalBleeding {
      recs := recs + [TreatGiBleeding];
    }
    assert recs == veg + gi;
    if r.heavyMenstrualPeriods && r.gender == 0.0 {
      recs := recs + [GynecologicalEvaluation];
    }
    assert recs == veg + gi + heavy;
    if r.alcoholConsumption >= 3.0 {
      recs := recs + [ReduceAlcohol];
    }
    impact := AnemiaLifestyle(diet, bleeding, absorption, recs);
  }

  // ---------------------------------------------------------------------
  // Thyroid disorders (ThyroidDisorderPredictor)
  // ---------------------------------------------------------------------

  datatype ThyroidReadings = ThyroidReadings(
    tsh: real, freeT4: real, freeT3: real, antiTpo: real, antiThyroglobulin: real,
    fatigueLevel: real, weightGain: bool, weightLoss: bool, coldIntolerance: bool,
    heatIntolerance: bool, hairLoss: bool, drySkin: bool, heartPalpitations: bool,
    muscleWeakness: bool, totalCholesterol: real, restingHeartRate: real, systolicBp: real,
    iodineDeficiency: bool, excessiveSoy: bool, cruciferousExcess: bool, stressLevel: real,
    smoking: bool, radiationExposure: bool)

  const AutoimmuneLabels := Labels("Low", "Medium", "High")
  const ThyroidSymptomLabels := Labels("Mild symptoms", "Moderate symptoms", "Severe symptoms")
  const MetabolicLabels := Labels("Minimal impact", "Moderate impact", "Significant impact")
  const ThyroidRiskLabels := Labels("Low risk", "Moderate risk", "High risk")

  /** The `function_type` of `_assess_thyroid_function`. */
  datatype ThyroidKind =
    | SevereHypothyroidism | MildHypothyroidism | SevereHyperthyroidism | MildHyperthyroidism
    | NormalFunction

  /** The function type is read off TSH alone: above 4.5 is hypothyroid, below
    * 0.4 hyperthyroid, and the range in between is Normal. */
  function ThyroidKindOf(tsh: real): (k: ThyroidKind)
    ensures k in {SevereHypothyroidism, MildHypothyroidism} <==> tsh > 4.5
    ensures k in {SevereHyperthyroidism, MildHyperthyroidism} <==> tsh < 0.4
    ensures k == NormalFunction <==> 0.4 <= tsh <= 4.5
    ensures k == SevereHypothyroidism <==> tsh > 10.0
    ensures k == SevereHyperthyroidism <==> tsh < 0.1
  {
    if tsh > 10.0 then SevereHypothyroidism
    else if tsh > 4.5 then MildHypothyroidism
    else if tsh < 0.1 then SevereHyperthyroidism
    else if tsh < 0.4 then MildHyperthyroidism
    else NormalFunction
  }

  function Tsh(tsh: real): (t: Step<Note>)
    ensures forall x :: x in t.notes <==> (x == SeverelyElevatedTsh && tsh > 10.0) || (x == ElevatedTsh && 4.5 < tsh <= 10.0) || (x == SeverelySuppressedTsh && tsh < 0.1) || (x == SuppressedTsh && 0.1 <= tsh < 0.4)
    ensures |t.notes| <= 1
  {
    if tsh > 10.0 then Step(5, [SeverelyElevatedTsh])
    else if tsh > 4.5 then Step(3, [ElevatedTsh])
    else if tsh < 0.1 then Step(5, [SeverelySuppressedTsh])
    else if tsh < 0.4 then Step(3, [SuppressedTsh])
    else Step(0, [])
  }

  function FreeT4(t4: real): (t: Step<Note>)
    ensures forall x :: x in t.notes <==> (x == SeverelyLowT4 && t4 < 0.6) || (x == LowT4 && 0.6 <= t4 < 0.8) || (x == SeverelyHighT4 && t4 > 2.0) || (x == HighT4 && 1.8 < t4 <= 2.0)
    ensures |t.notes| <= 1
  {
    if t4 < 0.6 then Step(4, [SeverelyLowT4])
    else if t4 < 0.8 then Step(2, [LowT4])
    else if t4 > 2.0 then Step(4, [SeverelyHighT4])
    else if t4 > 1.8 then Step(2, [HighT4])
    else Step(0, [])
  }

  function FreeT3(t3: real): (t: Step<Note>)
    ensures forall x :: x in t.notes <==> (x == LowT3 && t3 < 2.0) || (x == HighT3 && t3 > 4.5)
    ensures |t.notes| <= 1
  {
    if t3 < 2.0 then Step(2, [LowT3])
    else if t3 > 4.5 then Step(3, [HighT3])
    else Step(0, [])
  }

  /** Which notes the thyroid-function tally lists. */
  predicate ThyroidFunctionShown(r: ThyroidReadings, x: Note)
  {
    || (x == SeverelyElevatedTsh && r.tsh > 10.0)
    || (x == ElevatedTsh && 4.5 < r.tsh <= 10.0)
    || (x == SeverelySuppressedTsh && r.tsh < 0.1)
    || (x == SuppressedTsh && 0.1 <= r.tsh < 0.4)
    || (x == SeverelyLowT4 && r.freeT4 < 0.6)
    || (x == LowT4 && 0.6 <= r.freeT4 < 0.8)
    || (x == SeverelyHighT4 && r.freeT4 > 2.0)
    || (x == HighT4 && 1.8 < r.freeT4 <= 2.0)
    || (x == LowT3 && r.freeT3 < 2.0)
    || (x == HighT3 && r.freeT3 > 4.5)
  }

  /** The uncapped thyroid-function tally: TSH, then T4, then T3. */
  function ThyroidFunctionTally(r: ThyroidReadings): (t: Step<Note>)
    ensures 0 <= t.points <= 12
    ensures forall x :: x in t.notes <==> ThyroidFunctionShown(r, x)
    ensures |t.notes| <= 3
  {
    var h, f, g := Tsh(r.tsh), FreeT4(r.freeT4), FreeT3(r.freeT3);
    Step(h.points + f.points + g.points, h.notes + f.notes + g.notes)
  }

  /** Each abnormal function type comes with exactly its own note from the TSH
    * ladder (the first part of the tally), so the type is Normal exactly when
    * TSH adds no note. */
  lemma ThyroidKindMatchesNotes(r: ThyroidReadings)
    ensures ThyroidKindOf(r.tsh) == SevereHypothyroidism <==> Tsh(r.tsh).notes == [SeverelyElevatedTsh]
    ensures ThyroidKindOf(r.tsh) == MildHypothyroidism <==> Tsh(r.tsh).notes == [ElevatedTsh]
    ensures ThyroidKindOf(r.tsh) == SevereHyperthyroidism <==> Tsh(r.tsh).notes == [SeverelySuppressedTsh]
    ensures ThyroidKindOf(r.tsh) == MildHyperthyroidism <==> Tsh(r.tsh).notes == [SuppressedTsh]
    ensures ThyroidKindOf(r.tsh) == NormalFunction <==> Tsh(r.tsh).notes == []
    ensures ThyroidFunctionTally(r).notes[..|Tsh(r.tsh).notes|] == Tsh(r.tsh).notes
  {
    var h := Tsh(r.tsh).notes;
    assert ThyroidFunctionTally(r).notes == h + (FreeT4(r.freeT4).notes + FreeT3(r.freeT3).notes);
    if r.tsh > 10.0 {
      assert h == [SeverelyElevatedTsh];
    } else if r.tsh > 4.5 {
      assert h == [ElevatedTsh];
    } else if r.tsh < 0.1 {
      assert h == [SeverelySuppressedTsh];
    } else if r.tsh < 0.4 {
      assert h == [SuppressedTsh];
    } else {
      assert h == [];
    }
  }

  datatype ThyroidFunction = ThyroidFunction(score: int, kind: ThyroidKind, notes: seq<Note>)

  /** `_assess_thyroid_function`: `min(raw, 10)`, the TSH-based type and the
    * issues found. */
  method AssessThyroidFunction(r: ThyroidReadings) returns (f: ThyroidFunction)
    ensures f.score == Capped(ThyroidFunctionTally(r).points) && 0 <= f.score <= 10
    ensures f.notes == ThyroidFunctionTally(r).notes
    ensures f.kind == ThyroidKindOf(r.tsh)
  {
    var tsh, t4, t3 := r.tsh, r.freeT4, r.freeT3;
    var score := 0;
    var issues: seq<Note> := [];
    var functionType;
    ghost var h, q := Tsh(tsh), FreeT4(t4);
    if tsh > 10.0 {
      score := score + 5;
      issues := issues + [SeverelyElevatedTsh];
      functionType := SevereHypothyroidism;
    } else if tsh > 4.5 {
      score := score + 3;
      issues := issues + [ElevatedTsh];
      functionType := MildHypothyroidism;
    } else if tsh < 0.1 {
      score := score + 5;
      issues := issues + [SeverelySuppressedTsh];
      functionType := SevereHyperthyroidism;
    } else if tsh < 0.4 {
      score := score + 3;
      issues := issues + [SuppressedTsh];
      functionType := MildHyperthyroidism;
    } else {
      functionType := NormalFunction;
    }
    assert Step(score, issues) == h;
    if t4 < 0.6 {
      score := score + 4;
      issues := issues + [SeverelyLowT4];
    } else if t4 < 0.8 {
      score := score + 2;
      issues := issues + [LowT4];
    } else if t4 > 2.0 {
      score := score + 4;
      issues := issues + [SeverelyHighT4];
    } else if t4 > 1.8 {
      score := score + 2;
      issues := issues + [HighT4];
    }
    assert score == h.points + q.points && issues == h.notes + q.notes;
    if t3 < 2.0 {
      score := score + 2;
      issues := issues + [LowT3];
    } else if t3 > 4.5 {
      score := score + 3;
      issues := issues + [HighT3];
    }
    assert Step(score, issues) == ThyroidFunctionTally(r);
    f := ThyroidFunction(MinInt(score, 10), functionType, issues);
  }

  function AntiTpo(antiTpo: real): (t: Step<Note>)
    ensures forall x :: x in t.notes <==> (x == SeverelyElevatedAntiTpo && antiTpo > 100.0) || (x == ElevatedAntiTpo && 35.0 < antiTpo <= 100.0)
    ensures |t.notes| <= 1
  {
    if antiTpo > 100.0 then Step(4, [SeverelyElevatedAntiTpo])
    else if antiTpo > 35.0 then Step(3, [ElevatedAntiTpo])
    else Step(0, [])
  }

  function AntiThyroglobulin(antiTg: real): (t: Step<Note>)
    ensures forall x :: x in t.notes <==> (x == SeverelyElevatedAntiTg && antiTg > 100.0) || (x == ElevatedAntiTg && 40.0 < antiTg <= 100.0)
    ensures |t.notes| <= 1
  {
    if antiTg > 100.0 then Step(3, [SeverelyElevatedAntiTg])
    else if antiTg > 40.0 then Step(2, [ElevatedAntiTg])
    else Step(0, [])
  }

  /** Which notes the autoimmune tally lists. */
  predicate AutoimmuneShown(r: ThyroidReadings, x: Note)
  {
    || (x == SeverelyElevatedAntiTpo && r.antiTpo > 100.0)
    || (x == ElevatedAntiTpo && 35.0 < r.antiTpo <= 100.0)
    || (x == SeverelyElevatedAntiTg && r.antiThyroglobulin > 100.0)
    || (x == ElevatedAntiTg && 40.0 < r.antiThyroglobulin <= 100.0)
  }

  /** The autoimmune tally; at most 7, so the cap never bites. */
  function AutoimmuneTally(r: ThyroidReadings): (t: Step<Note>)
    ensures 0 <= t.points <= 7 && Capped(t.points) == t.points
    ensures forall x :: x in t.notes <==> AutoimmuneShown(r, x)
    ensures |t.notes| <= 2
  {
    var p, g := AntiTpo(r.antiTpo), AntiThyroglobulin(r.antiThyroglobulin);
    Step(p.points + g.points, p.notes + g.notes)
  }

  /** `_assess_autoimmune_markers`: High at >= 5 and Medium at >= 3. */
  method AssessAutoimmuneMarkers(r: ThyroidReadings) returns (a: Assessment<Note>)
    ensures a.score == AutoimmuneTally(r).points
    ensures a.notes == AutoimmuneTally(r).notes
    ensures a.band == BandOf(AutoimmuneTally(r).points as real, 3.0, 5.0)
  {
    var score := 0;
    var markers: seq<Note> := [];
    ghost var p := AntiTpo(r.antiTpo);
    var antiTpo := r.antiTpo;
    if antiTpo > 100.0 {
      score := score + 4;
      markers := markers + [SeverelyElevatedAntiTpo];
    } else if antiTpo > 35.0 {
      score := score + 3;
      markers := markers + [ElevatedAntiTpo];
    }
    assert Step(score, markers) == p;
    var antiTg := r.antiThyroglobulin;
    if antiTg > 100.0 {
      score := score + 3;
      markers := markers + [SeverelyElevatedAntiTg];
    } else if antiTg > 40.0 {
      score := score + 2;
      markers := markers + [ElevatedAntiTg];
    }
    assert Step(score, markers) == AutoimmuneTally(r);
    a := Assessment(MinInt(score, 10), markers, BandOf(score as real, 3.0, 5.0));
  }

  /** An elevated anti-TPO alone already makes the autoimmune risk Medium,
    * an elevated anti-Tg alone only above 100; High needs both antibodies. */
  lemma AutoimmuneBands(r: ThyroidReadings)
    ensures BandOf(AutoimmuneTally(r).points as real, 3.0, 5.0) == Lower <==>
              r.antiTpo <= 35.0 && r.antiThyroglobulin <= 100.0
    ensures BandOf(AutoimmuneTally(r).points as real, 3.0, 5.0) == Upper <==>
              r.antiTpo > 35.0 && r.antiThyroglobulin > 40.0
  {
  }

  /** Which of fatigue, the weight changes and cold intolerance are listed. */
  predicate ThyroidEarlySymptomShown(r: ThyroidReadings, x: Note)
  {
    || (x == SevereFatigue && r.fatigueLevel >= 7.0)
    || (x == ModerateFatigue && 4.0 <= r.fatigueLevel < 7.0)
    || (x == UnexplainedWeightGain && r.weightGain)
    || (x == UnexplainedWeightLoss && r.weightLoss)
    || (x == ColdIntolerance && r.coldIntolerance)
  }

  /** Which of the remaining five thyroid symptoms are listed. */
  predicate ThyroidLateSymptomShown(r: ThyroidReadings, x: Note)
  {
    || (x == HeatIntolerance && r.heatIntolerance)
    || (x == HairLoss && r.hairLoss)
    || (x == DrySkin && r.drySkin)
    || (x == HeartPalpitations && r.heartPalpitations)
    || (x == MuscleWeakness && r.muscleWeakness)
  }

  /** The first four ladders of the thyroid symptom helper. */
  function ThyroidEarlySymptoms(r: ThyroidReadings): (t: Step<Note>)
    ensures 0 <= t.points <= 8
    ensures forall x :: x in t.notes <==> ThyroidEarlySymptomShown(r, x)
    ensures |t.notes| <= 4
  {
    var f, g, l, c := Fatigue(r.fatigueLevel), Flagged(r.weightGain, 2, UnexplainedWeightGain),
                      Flagged(r.weightLoss, 2, UnexplainedWeightLoss), Flagged(r.coldIntolerance, 1, ColdIntolerance);
    Step(f.points + g.points + l.points + c.points, f.notes + g.notes + l.notes + c.notes)
  }

  /** The last five ladders of the thyroid symptom helper. */
  function ThyroidLateSymptoms(r: ThyroidReadings): (t: Step<Note>)
    ensures 0 <= t.points <= 6
    ensures forall x :: x in t.notes <==> ThyroidLateSymptomShown(r, x)
    ensures |t.notes| <= 5
  {
    var h, a, d, p, w := Flagged(r.heatIntolerance, 1, HeatIntolerance), Flagged(r.hairLoss, 1, HairLoss),
                         Flagged(r.drySkin, 1, DrySkin), Flagged(r.heartPalpitations, 2, HeartPalpitations),
                         Flagged(r.muscleWeakness, 1, MuscleWeakness);
    Step(h.points + a.points + d.points + p.points + w.points, h.notes + a.notes + d.notes + p.notes + w.notes)
  }

  /** The uncapped thyroid symptom tally, in source order. */
  function ThyroidSymptomTally(r: ThyroidReadings): (t: Step<Note>)
    ensures 0 <= t.points <= 14
    ensures forall x :: x in t.notes <==> ThyroidEarlySymptomShown(r, x) || ThyroidLateSymptomShown(r, x)
    ensures |t.notes| <= 9
  {
    var early, late := ThyroidEarlySymptoms(r), ThyroidLateSymptoms(r);
    Step(early.points + late.points, early.notes + late.notes)
  }

  /** The thyroid `_assess_symptom_severity`: `min(raw, 10)`, severe at raw
    * >= 7 and moderate at raw >= 4. Written over the tally rather than as the
    * source's nine statement ladders. */
  function AssessThyroidSymptoms(r: ThyroidReadings): (a: Assessment<Note>)
    ensures 0 <= a.score <= 10 && a.score == Capped(ThyroidSymptomTally(r).points)
    ensures forall x :: x in a.notes <==> ThyroidEarlySymptomShown(r, x) || ThyroidLateSymptomShown(r, x)
    ensures a.band == Upper <==> ThyroidSymptomTally(r).points >= 7
    ensures a.band == Lower <==> ThyroidSymptomTally(r).points < 4
  {
    var t := ThyroidSymptomTally(r);
    Assessment(MinInt(t.points, 10), t.notes, BandOf(t.points as real, 4.0, 7.0))
  }

  function RestingHeartRate(heartRate: real): (t: Step<Note>)
    ensures forall x :: x in t.notes <==> (x == ElevatedHeartRate && heartRate > 100.0) || (x == LowHeartRate && heartRate < 60.0)
    ensures |t.notes| <= 1
  {
    if heartRate > 100.0 then Step(2, [ElevatedHeartRate])
    else if heartRate < 60.0 then Step(1, [LowHeartRate])
    else Step(0, [])
  }

  /** Which notes the metabolic tally lists. */
  predicate MetabolicShown(r: ThyroidReadings, x: Note)
  {
    || (x == HighCholesterol && r.totalCholesterol > 240.0)
    || (x == ElevatedHeartRate && r.restingHeartRate > 100.0)
    || (x == LowHeartRate && r.restingHeartRate < 60.0)
    || (x == HighBloodPressure && r.systolicBp > 140.0)
  }

  /** The metabolic tally; at most 5, so the cap never bites. */
  function MetabolicTally(r: ThyroidReadings): (t: Step<Note>)
    ensures 0 <= t.points <= 5 && Capped(t.points) == t.points
    ensures forall x :: x in t.notes <==> MetabolicShown(r, x)
    ensures |t.notes| <= 3
  {
    var c, h, b := Flagged(r.totalCholesterol > 240.0, 2, HighCholesterol), RestingHeartRate(r.restingHeartRate),
                   Flagged(r.systolicBp > 140.0, 1, HighBloodPressure);
    Step(c.points + h.points + b.points, c.notes + h.notes + b.notes)
  }

  /** `_assess_metabolic_impact`: significant at >= 4, moderate at >= 2. */
  method AssessMetabolicImpact(r: ThyroidReadings) returns (a: Assessment<Note>)
    ensures a.score == MetabolicTally(r).points
    ensures a.notes == MetabolicTally(r).notes
    ensures a.band == BandOf(MetabolicTally(r).points as real, 2.0, 4.0)
  {
    var score := 0;
    var impacts: seq<Note> := [];
    ghost var c, h := Flagged(r.totalCholesterol > 240.0, 2, HighCholesterol), RestingHeartRate(r.restingHeartRate);
    var cholesterol := r.totalCholesterol;
    if cholesterol > 240.0 {
      score := score + 2;
      impacts := impacts + [HighCholesterol];
    }
    assert Step(score, impacts) == c;
    var heartRate := r.restingHeartRate;
    if heartRate > 100.0 {
      score := score + 2;
      impacts := impacts + [ElevatedHeartRate];
    } else if heartRate < 60.0 {
      score := score + 1;
      impacts := impacts + [LowHeartRate];
    }
    assert score == c.points + h.points && impacts == c.notes + h.notes;
    var systolicBp := r.systolicBp;
    if systolicBp > 140.0 {
      score := score + 1;
      impacts := impacts + [HighBloodPressure];
    }
    assert Step(score, impacts) == MetabolicTally(r);
    a := Assessment(MinInt(score, 10), impacts, BandOf(score as real, 2.0, 4.0));
  }

  datatype ThyroidMetrics = ThyroidMetrics(
    thyroidFunction: ThyroidFunction, autoimmune: Assessment<Note>, symptoms: Assessment<Note>,
    metabolic: Assessment<Note>, total: real, totalBand: Band)

  /** The thyroid `analyze_health_metrics`: 0.4 function + 0.3 autoimmune
    * + 0.2 symptoms + 0.1 metabolic. The components top out at 10, 7, 10 and
    * 5, so the risk never exceeds 8.6; High at >= 7, Moderate at >= 4. */
  method AnalyzeThyroidMetrics(r: ThyroidReadings) returns (m: ThyroidMetrics)
    ensures m.thyroidFunction.score == Capped(ThyroidFunctionTally(r).points) && m.thyroidFunction.kind == ThyroidKindOf(r.tsh)
    ensures m.autoimmune.score == AutoimmuneTally(r).points
    ensures m.symptoms.score == Capped(ThyroidSymptomTally(r).points)
    ensures m.metabolic.score == MetabolicTally(r).points
    ensures m.total == 0.4 * m.thyroidFunction.score as real + 0.3 * m.autoimmune.score as real
                       + 0.2 * m.symptoms.score as real + 0.1 * m.metabolic.score as real
    ensures 0.0 <= m.total <= 8.6
    ensures m.totalBand == BandOf(m.total, 4.0, 7.0)
  {
    var thyroidFunction := AssessThyroidFunction(r);
    var autoimmune := AssessAutoimmuneMarkers(r);
    var symptoms := AssessThyroidSymptoms(r);
    var metabolic := AssessMetabolicImpact(r);
    var risk := thyroidFunction.score as real * 0.4 + autoimmune.score as real * 0.3
                + symptoms.score as real * 0.2 + metabolic.score as real * 0.1;
    m := ThyroidMetrics(thyroidFunction, autoimmune, symptoms, metabolic, risk, BandOf(risk, 4.0, 7.0));
  }

  /** The thyroid `_assess_dietary_impact` (High at >= 4, Medium at >= 2):
    * iodine deficiency weighs 3, soy 2 and raw cruciferous vegetables 1. */
  method AssessThyroidDiet(r: ThyroidReadings) returns (impact: Impact<Note>)
    ensures impact.notes == (if r.iodineDeficiency then [IodineDeficiency] else [])
                            + (if r.excessiveSoy then [ExcessiveSoy] else [])
                            + (if r.cruciferousExcess then [ExcessiveCruciferous] else [])
    ensures impact.level == High <==> r.iodineDeficiency && (r.excessiveSoy || r.cruciferousExcess)
    ensures impact.level == Low <==> !r.iodineDeficiency && !r.excessiveSoy
  {
    var riskFactors: seq<Note> := [];
    var score := 0;
    if r.iodineDeficiency {
      score := score + 3;
      riskFactors := riskFactors + [IodineDeficiency];
    }
    if r.excessiveSoy {
      score := score + 2;
      riskFactors := riskFactors + [ExcessiveSoy];
    }
    if r.cruciferousExcess {
      score := score + 1;
      riskFactors := riskFactors + [ExcessiveCruciferous];
    }
    impact := Impact(LevelOf(score, 2, 4), riskFactors);
  }

  /** The thyroid `_assess_stress_impact`: High at >= 8, Medium at >= 5. */
  function ThyroidStressImpact(stressLevel: real): (l: Level)
    ensures l == High <==> stressLevel >= 8.0
    ensures l == Medium <==> 5.0 <= stressLevel < 8.0
    ensures l == Low <==> stressLevel < 5.0
  {
    if stressLevel >= 8.0 then High else if stressLevel >= 5.0 then Medium else Low
  }

  /** The thyroid `_assess_environmental_factors` (High at >= 4, Medium at
    * >= 2): smoking weighs 2, radiation exposure 3, so either alone is Medium
    * and both together High. */
  method AssessThyroidEnvironment(r: ThyroidReadings) returns (impact: Impact<Note>)
    ensures impact.notes == (if r.smoking then [SmokingAffectsThyroid] else [])
                            + (if r.radiationExposure then [RadiationExposure] else [])
    ensures impact.level == High <==> r.smoking && r.radiationExposure
    ensures impact.level == Medium <==> r.smoking != r.radiationExposure
    ensures impact.level == Low <==> impact.notes == []
  {
    var factors: seq<Note> := [];
    var score := 0;
    if r.smoking {
      score := score + 2;
      factors := factors + [SmokingAffectsThyroid];
    }
    if r.radiationExposure {
      score := score + 3;
      factors := factors + [RadiationExposure];
    }
    impact := Impact(LevelOf(score, 2, 4), factors);
  }

  /** The recommendations of the thyroid `assess_lifestyle_impact`, in order. */
  function ThyroidAdvice(r: ThyroidReadings): (recs: seq<Advice>)
    ensures EnsureIodine in recs <==> r.iodineDeficiency
    ensures ManageStress in recs <==> r.stressLevel >= 7.0
    ensures ThyroidQuitSmoking in recs <==> r.smoking
    ensures ModerateSoy in recs <==> r.excessiveSoy
    ensures |recs| <= 4
  {
    (if r.iodineDeficiency then [EnsureIodine] else [])
    + (if r.stressLevel >= 7.0 then [ManageStress] else [])
    + (if r.smoking then [ThyroidQuitSmoking] else [])
    + (if r.excessiveSoy then [ModerateSoy] else [])
  }

  datatype ThyroidLifestyle = ThyroidLifestyle(
    diet: Impact<Note>, stress: Level, environment: Impact<Note>, recommendations: seq<Advice>)

  /** The thyroid `assess_lifestyle_impact`. The stress advice starts at 7,
    * inside the Medium stress band, so every High stress level draws it. */
  method ThyroidLifestyleImpact(r: ThyroidReadings) returns (impact: ThyroidLifestyle)
    ensures impact.recommendations == ThyroidAdvice(r)
    ensures impact.stress == ThyroidStressImpact(r.stressLevel)
    ensures IodineDeficiency in impact.diet.notes <==> EnsureIodine in impact.recommendations
    ensures ExcessiveSoy in impact.diet.notes <==> ModerateSoy in impact.recommendations
    ensures SmokingAffectsThyroid in impact.environment.notes <==> ThyroidQuitSmoking in impact.recommendations
    ensures ManageStress in impact.recommendations ==> impact.stress != Low
    ensures impact.stress == High ==> ManageStress in impact.recommendations
  {
    var diet := AssessThyroidDiet(r);
    var environment := AssessThyroidEnvironment(r);
    var recs: seq<Advice> := [];
    ghost var iodine, stress, smoking := (if r.iodineDeficiency then [EnsureIodine] else []),
                                         (if r.stressLevel >= 7.0 then [ManageStress] else []),
                                         (if r.smoking then [ThyroidQuitSmoking] else []);
    if r.iodineDeficiency {
      recs := recs + [EnsureIodine];
    }
    assert recs == iodine;
    if r.stressLevel >= 7.0 {
      recs := recs + [ManageStress];
    }
    assert recs == iodine + stress;
    if r.smoking {
      recs := recs + [ThyroidQuitSmoking];
    }
    assert recs == iodine + stress + smoking;
    if r.excessiveSoy {
      recs := recs + [ModerateSoy];
    }
    impact := ThyroidLifestyle(diet, ThyroidStressImpact(r.stressLevel), environment, recs);
  }

  // ---------------------------------------------------------------------
  // Feature vectors of preprocess_data (CovidRiskPredictor,
  // AsthmaCopdPredictor, ThyroidDisorderPredictor)
  // ---------------------------------------------------------------------

  const CovidSchema: BasePredictor.Schema :=
    [("age", BasePredictor.IntField), ("gender", BasePredictor.IntField),
     ("bmi", BasePredictor.FloatField), ("temperature", BasePredictor.FloatField),
     ("oxygen_saturation", BasePredictor.FloatField), ("heart_rate", BasePredictor.FloatField),
     ("respiratory_rate", BasePredictor.FloatField), ("blood_pressure_systolic", BasePredictor.FloatField),
     ("blood_pressure_diastolic", BasePredictor.FloatField), ("cough", BasePredictor.IntField),
     ("shortness_of_breath", BasePredictor.IntField), ("fatigue", BasePredictor.IntField),
     ("fever_duration_days", BasePredictor.IntField), ("loss_of_taste_smell", BasePredictor.IntField),
     ("chest_pain", BasePredictor.IntField), ("headache", BasePredictor.IntField),
     ("muscle_aches", BasePredictor.IntField), ("diabetes", BasePredictor.IntField),
     ("hypertension", BasePredictor.IntField), ("heart_disease", BasePredictor.IntField),
     ("lung_disease", BasePredictor.IntField), ("kidney_disease", BasePredictor.IntField),
     ("liver_disease", BasePredictor.IntField), ("cancer", BasePredictor.IntField),
     ("immunocompromised", BasePredictor.IntField), ("vaccination_status", BasePredictor.IntField),
     ("smoking_status", BasePredictor.IntField), ("white_blood_cells", BasePredictor.FloatField),
     ("lymphocytes", BasePredictor.FloatField), ("platelets", BasePredictor.FloatField),
     ("c_reactive_protein", BasePredictor.FloatField), ("d_dimer", BasePredictor.FloatField),
     ("lactate_dehydrogenase", BasePredictor.FloatField), ("ferritin", BasePredictor.FloatField),
     ("procalcitonin", BasePredictor.FloatField)]

  const CovidFeatures: Features.FeatureTable :=
    [("age", 100.0), ("gender", 1.0), ("bmi", 50.0), ("temperature", 42.0),
     ("oxygen_saturation", 100.0), ("heart_rate", 150.0), ("respiratory_rate", 40.0), ("blood_pressure_systolic", 200.0),
     ("blood_pressure_diastolic", 120.0), ("cough", 1.0), ("shortness_of_breath", 1.0), ("fatigue", 10.0),
     ("fever_duration_days", 14.0), ("loss_of_taste_smell", 1.0), ("chest_pain", 1.0), ("headache", 1.0),
     ("muscle_aches", 1.0), ("diabetes", 1.0), ("hypertension", 1.0), ("heart_disease", 1.0),
     ("lung_disease", 1.0), ("kidney_disease", 1.0), ("liver_disease", 1.0), ("cancer", 1.0),
     ("immunocompromised", 1.0), ("vaccination_status", 3.0), ("smoking_status", 2.0), ("white_blood_cells", 15000.0),
     ("lymphocytes", 4000.0), ("platelets", 500000.0), ("c_reactive_protein", 200.0), ("d_dimer", 10.0),
     ("lactate_dehydrogenase", 1000.0), ("ferritin", 5000.0), ("procalcitonin", 10.0)]

  /** COVID `preprocess_data` reads the 35 required fields in declaration
    * order, one feature each, with no zero scale. */
  lemma CovidFeaturesAligned()
    ensures Features.ScalesNonZero(CovidFeatures) && Features.Names(CovidFeatures) == Features.Names(CovidSchema)
    ensures |CovidFeatures| == 35
  {
  }

  const CopdSchema: BasePredictor.Schema :=
    [("age", BasePredictor.IntField), ("gender", BasePredictor.IntField),
     ("smoking_pack_years", BasePredictor.FloatField), ("current_smoking_status", BasePredictor.IntField),
     ("occupational_exposure", BasePredictor.IntField), ("family_history_respiratory", BasePredictor.IntField),
     ("fev1_percent_predicted", BasePredictor.FloatField), ("fvc_percent_predicted", BasePredictor.FloatField),
     ("fev1_fvc_ratio", BasePredictor.FloatField), ("peak_flow_rate", BasePredictor.FloatField),
     ("oxygen_saturation_rest", BasePredictor.FloatField), ("oxygen_saturation_exercise", BasePredictor.FloatField),
     ("shortness_of_breath_scale", BasePredictor.IntField), ("cough_frequency", BasePredictor.IntField),
     ("sputum_production", BasePredictor.IntField), ("wheezing_frequency", BasePredictor.IntField),
     ("chest_tightness", BasePredictor.IntField), ("exercise_tolerance", BasePredictor.IntField),
     ("sleep_disturbance", BasePredictor.IntField), ("rescue_inhaler_use", BasePredictor.IntField),
     ("exacerbations_last_year", BasePredictor.IntField), ("hospitalizations_last_year", BasePredictor.IntField),
     ("steroid_courses_last_year", BasePredictor.IntField), ("allergies", BasePredictor.IntField),
     ("eosinophil_count", BasePredictor.FloatField), ("ige_level", BasePredictor.FloatField),
     ("vitamin_d_level", BasePredictor.FloatField), ("bmi", BasePredictor.FloatField),
     ("air_quality_exposure", BasePredictor.IntField), ("seasonal_variation", BasePredictor.IntField),
     ("medication_adherence", BasePredictor.IntField)]

  const CopdFeatures: Features.FeatureTable :=
    [("age", 100.0), ("gender", 1.0), ("smoking_pack_years", 100.0), ("current_smoking_status", 2.0),
     ("occupational_exposure", 1.0), ("family_history_respiratory", 1.0), ("fev1_percent_predicted", 100.0), ("fvc_percent_predicted", 100.0),
     ("fev1_fvc_ratio", 1.0), ("peak_flow_rate", 600.0), ("oxygen_saturation_rest", 100.0), ("oxygen_saturation_exercise", 100.0),
     ("shortness_of_breath_scale", 4.0), ("cough_frequency", 4.0), ("sputum_production", 4.0), ("wheezing_frequency", 4.0),
     ("chest_tightness", 4.0), ("exercise_tolerance", 4.0), ("sleep_disturbance", 4.0), ("rescue_inhaler_use", 20.0),
     ("exacerbations_last_year", 10.0), ("hospitalizations_last_year", 5.0), ("steroid_courses_last_year", 10.0), ("allergies", 1.0),
     ("eosinophil_count", 1000.0), ("ige_level", 1000.0), ("vitamin_d_level", 100.0), ("bmi", 50.0),
     ("air_quality_exposure", 4.0), ("seasonal_variation", 1.0), ("medication_adherence", 4.0)]

  /** Asthma/COPD `preprocess_data` reads the 31 required fields in
    * declaration order, one feature each, with no zero scale. */
  lemma CopdFeaturesAligned()
    ensures Features.ScalesNonZero(CopdFeatures) && Features.Names(CopdFeatures) == Features.Names(CopdSchema)
    ensures |CopdFeatures| == 31
  {
  }

  const ThyroidSchema: BasePredictor.Schema :=
    [("age", BasePredictor.IntField), ("gender", BasePredictor.IntField),
     ("tsh", BasePredictor.FloatField), ("free_t4", BasePredictor.FloatField),
     ("free_t3", BasePredictor.FloatField), ("total_t4", BasePredictor.FloatField),
     ("total_t3", BasePredictor.FloatField), ("thyroid_peroxidase_antibody", BasePredictor.FloatField),
     ("thyroglobulin_antibody", BasePredictor.FloatField), ("tsh_receptor_antibody", BasePredictor.FloatField),
     ("weight_change_kg", BasePredictor.FloatField), ("heart_rate", BasePredictor.FloatField),
     ("blood_pressure_systolic", BasePredictor.FloatField), ("blood_pressure_diastolic", BasePredictor.FloatField),
     ("body_temperature", BasePredictor.FloatField), ("fatigue_level", BasePredictor.IntField),
     ("anxiety_level", BasePredictor.IntField), ("depression_symptoms", BasePredictor.IntField),
     ("sleep_quality", BasePredictor.IntField), ("hair_loss", BasePredictor.IntField),
     ("dry_skin", BasePredictor.IntField), ("cold_intolerance", BasePredictor.IntField),
     ("heat_intolerance", BasePredictor.IntField), ("constipation", BasePredictor.IntField),
     ("diarrhea", BasePredictor.IntField), ("muscle_weakness", BasePredictor.IntField),
     ("tremor", BasePredictor.IntField), ("goiter", BasePredictor.IntField),
     ("eye_problems", BasePredictor.IntField), ("menstrual_irregularities", BasePredictor.IntField),
     ("family_history_thyroid", BasePredictor.IntField), ("autoimmune_disease", BasePredictor.IntField),
     ("iodine_intake", BasePredictor.IntField), ("stress_level", BasePredictor.IntField),
     ("smoking_status", BasePredictor.IntField)]

  const ThyroidFeatures: Features.FeatureTable :=
    [("age", 100.0), ("gender", 1.0), ("tsh", 20.0), ("free_t4", 3.0),
     ("free_t3", 5.0), ("total_t4", 15.0), ("total_t3", 200.0), ("thyroid_peroxidase_antibody", 100.0),
     ("thyroglobulin_antibody", 100.0), ("tsh_receptor_antibody", 10.0), ("weight_change_kg", 40.0), ("heart_rate", 150.0),
     ("blood_pressure_systolic", 200.0), ("blood_pressure_diastolic", 120.0), ("body_temperature", 40.0), ("fatigue_level", 10.0),
     ("anxiety_level", 10.0), ("depression_symptoms", 10.0), ("sleep_quality", 10.0), ("hair_loss", 1.0),
     ("dry_skin", 1.0), ("cold_intolerance", 1.0), ("heat_intolerance", 1.0), ("constipation", 1.0),
     ("diarrhea", 1.0), ("muscle_weakness", 1.0), ("tremor", 1.0), ("goiter", 1.0),
     ("eye_problems", 1.0), ("menstrual_irregularities", 1.0), ("family_history_thyroid", 1.0), ("autoimmune_disease", 1.0),
     ("iodine_intake", 4.0), ("stress_level", 10.0), ("smoking_status", 2.0)]

  /** The thyroid table lists the 35 required fields in declaration order with
    * no zero scale; entry 10 reads the weight change, which is shifted before
    * it is scaled. */
  lemma ThyroidFeaturesAligned()
    ensures Features.ScalesNonZero(ThyroidFeatures) && Features.Names(ThyroidFeatures) == Features.Names(ThyroidSchema)
    ensures |ThyroidFeatures| == 35
    ensures ThyroidFeatures[10].0 == "weight_change_kg"
  {
  }

  /** The thyroid weight-change feature `(change + 20) / 40`, which maps the
    * range -20 to +20 kg onto [0, 1]. */
  function WeightChangeFeature(change: real): (f: real)
    ensures f * 40.0 == change + 20.0
    ensures -20.0 <= change <= 20.0 <==> 0.0 <= f <= 1.0
  {
    (change + 20.0) / 40.0
  }

  /** Thyroid `preprocess_data`: None is the KeyError of a missing field;
    * otherwise one feature per table entry, the weight change shifted and
    * scaled and every other entry its field over its scale. */
  function ThyroidFeatureVector(data: Record): (v: Option<seq<real>>)
    ensures Features.ScalesNonZero(ThyroidFeatures)
    ensures v.None? <==> exists k :: 0 <= k < |ThyroidFeatures| && ThyroidFeatures[k].0 !in data
    ensures v.Some? ==> |v.value| == |ThyroidSchema| && "weight_change_kg" in data
    ensures v.Some? ==> forall k :: 0 <= k < |ThyroidFeatures| ==>
              v.value[k] == if ThyroidFeatures[k].0 == "weight_change_kg"
                            then WeightChangeFeature(data["weight_change_kg"])
                            else data[ThyroidFeatures[k].0] / ThyroidFeatures[k].1
  {
    ThyroidFeaturesAligned();
    if "weight_change_kg" !in data then None
    else Features.WithDerived(ThyroidFeatures, data, map["weight_change_kg" := WeightChangeFeature(data["weight_change_kg"])])
  }

  // ---------------------------------------------------------------------
  // Derived features of preprocess_data (AnemiaPredictor,
  // CancerRecurrencePredictor)
  // ---------------------------------------------------------------------

  /** The anemia saturation rule: a value above 1 is a percentage and is
    * divided by 100, anything else is already a fraction. */
  function SaturationFraction(t: real): (s: real)
    ensures t > 1.0 ==> s * 100.0 == t
    ensures t <= 1.0 ==> s == t
    ensures 0.0 <= t <= 100.0 ==> 0.0 <= s <= 1.0
  {
    if t > 1.0 then t / 100.0 else t
  }

  /** A saturation given as a percentage above 1 and the same saturation given
    * as a fraction yield the same feature, and a reading of at most 100 is
    * not rescaled a second time. */
  lemma SaturationScalesAgree(p: real)
    requires 1.0 < p <= 100.0
    ensures SaturationFraction(p) == SaturationFraction(p / 100.0)
    ensures SaturationFraction(SaturationFraction(p)) == SaturationFraction(p)
  {
  }

  /** A reading of exactly 1 is taken as a fraction: it becomes a saturation
    * of 1.0 (100%), while 2 becomes 0.02. */
  lemma SaturationBoundary()
    ensures SaturationFraction(1.0) == 1.0
    ensures SaturationFraction(2.0) == 0.02
  {
  }

  /** `ln_ratio`: positive nodes over `max(examined, 1)`. */
  function LymphNodeRatio(positive: real, examined: real): (r: real)
    ensures r * Max(examined, 1.0) == positive
    ensures examined < 1.0 ==> r == positive
    ensures 0.0 <= positive <= Max(examined, 1.0) ==> 0.0 <= r <= 1.0
  {
    positive / Max(examined, 1.0)
  }

  /** The anemia table; entry 12 reads `transferrin_saturation`, which the
    * saturation rule then replaces. */
  const AnemiaFeatures: Features.FeatureTable :=
    [("age", 100.0), ("gender", 1.0), ("hemoglobin", 20.0), ("hematocrit", 100.0),
     ("red_blood_cell_count", 6.0), ("mean_corpuscular_volume", 120.0),
     ("mean_corpuscular_hemoglobin", 40.0), ("mean_corpuscular_hemoglobin_concentration", 40.0),
     ("red_cell_distribution_width", 20.0), ("reticulocyte_count", 5.0), ("serum_iron", 200.0),
     ("total_iron_binding_capacity", 500.0), ("transferrin_saturation", 1.0), ("ferritin", 500.0),
     ("vitamin_b12", 1000.0), ("folate", 20.0), ("lactate_dehydrogenase", 1000.0), ("bilirubin_total", 5.0),
     ("bilirubin_indirect", 5.0), ("haptoglobin", 300.0), ("fatigue_level", 10.0),
     ("shortness_of_breath", 1.0), ("pale_skin", 1.0), ("cold_hands_feet", 1.0), ("brittle_nails", 1.0),
     ("strange_cravings", 1.0), ("heavy_menstrual_periods", 1.0), ("gastrointestinal_bleeding", 1.0),
     ("chronic_kidney_disease", 1.0), ("chronic_inflammatory_disease", 1.0), ("family_history_anemia", 1.0),
     ("vegetarian_diet", 1.0), ("alcohol_consumption", 4.0)]

  /** The cancer-recurrence table; entry 5 reads `lymph_nodes_examined`, which
    * the lymph node ratio then replaces. */
  const CancerFeatures: Features.FeatureTable :=
    [("age_at_diagnosis", 100.0), ("gender", 1.0), ("cancer_type", 4.0), ("cancer_stage", 4.0),
     ("tumor_size_cm", 10.0), ("lymph_nodes_examined", 1.0), ("lymph_nodes_positive", 20.0),
     ("histologic_grade", 3.0), ("hormone_receptor_positive", 1.0), ("her2_positive", 1.0),
     ("ki67_percentage", 100.0), ("months_since_treatment", 60.0), ("treatment_surgery", 1.0),
     ("treatment_chemotherapy", 1.0), ("treatment_radiation", 1.0), ("treatment_hormone_therapy", 1.0),
     ("treatment_immunotherapy", 1.0), ("treatment_targeted_therapy", 1.0), ("complete_response", 1.0),
     ("cea_level", 20.0), ("ca_125_level", 100.0), ("ca_19_9_level", 100.0), ("psa_level", 20.0),
     ("circulating_tumor_cells", 10.0), ("family_history_cancer", 1.0), ("genetic_mutations", 1.0),
     ("smoking_status", 2.0), ("alcohol_consumption", 4.0), ("bmi", 50.0), ("physical_activity_level", 4.0),
     ("stress_level", 10.0), ("sleep_quality", 10.0), ("immune_function_score", 10.0),
     ("comorbidities_count", 10.0), ("medication_adherence", 4.0)]

  /** The anemia table has one entry per required field, no zero scale, and
    * exactly one entry reading the saturation. */
  lemma AnemiaTableFacts()
    ensures Features.ScalesNonZero(AnemiaFeatures)
    ensures |AnemiaFeatures| == 33 && AnemiaFeatures[12].0 == "transferrin_saturation"
    ensures forall k :: 0 <= k < 33 && k != 12 ==> AnemiaFeatures[k].0 != "transferrin_saturation"
  {
  }

  /** The cancer-recurrence table has no zero scale and exactly one entry
    * reading the examined nodes. */
  lemma CancerTableFacts()
    ensures Features.ScalesNonZero(CancerFeatures)
    ensures |CancerFeatures| == 35 && CancerFeatures[5].0 == "lymph_nodes_examined" && CancerFeatures[6].0 == "lymph_nodes_positive"
    ensures forall k :: 0 <= k < 35 && k != 5 ==> CancerFeatures[k].0 != "lymph_nodes_examined"
  {
  }

  /** Anemia `preprocess_data`: None is the KeyError of a missing field;
    * otherwise one feature per table entry, the saturation entry by the
    * saturation rule and every other entry its field over its scale. */
  function AnemiaFeatureVector(data: Record): (v: Option<seq<real>>)
    ensures Features.ScalesNonZero(AnemiaFeatures)
    ensures v.None? <==> exists k :: 0 <= k < |AnemiaFeatures| && AnemiaFeatures[k].0 !in data
    ensures v.Some? ==> |v.value| == |AnemiaFeatures| && "transferrin_saturation" in data
    ensures v.Some? ==> forall k :: 0 <= k < |AnemiaFeatures| ==>
              v.value[k] == if AnemiaFeatures[k].0 == "transferrin_saturation"
                            then SaturationFraction(data["transferrin_saturation"])
                            else data[AnemiaFeatures[k].0] / AnemiaFeatures[k].1
  {
    AnemiaTableFacts();
    if "transferrin_saturation" !in data then None
    else Features.WithDerived(AnemiaFeatures, data, map["transferrin_saturation" := SaturationFraction(data["transferrin_saturation"])])
  }

  /** Cancer-recurrence `preprocess_data`: one feature per table entry, the
    * examined-nodes entry replaced by the lymph node ratio (which never
    * divides by zero) and every other entry its field over its scale. */
  function CancerFeatureVector(data: Record): (v: Option<seq<real>>)
    ensures Features.ScalesNonZero(CancerFeatures)
    ensures v.None? <==> exists k :: 0 <= k < |CancerFeatures| && CancerFeatures[k].0 !in data
    ensures v.Some? ==> |v.value| == |CancerFeatures| && "lymph_nodes_positive" in data && "lymph_nodes_examined" in data
    ensures v.Some? ==> forall k :: 0 <= k < |CancerFeatures| ==>
              v.value[k] == if CancerFeatures[k].0 == "lymph_nodes_examined"
                            then LymphNodeRatio(data["lymph_nodes_positive"], data["lymph_nodes_examined"])
                            else data[CancerFeatures[k].0] / CancerFeatures[k].1
  {
    CancerTableFacts();
    if "lymph_nodes_positive" !in data || "lymph_nodes_examined" !in data then None
    else
      var ratio := LymphNodeRatio(data["lymph_nodes_positive"], data["lymph_nodes_examined"]);
      Features.WithDerived(CancerFeatures, data, map["lymph_nodes_examined" := ratio])
  }
}
