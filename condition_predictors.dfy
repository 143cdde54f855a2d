/** The hospital-condition predictors (`backend/predictors/condition_predictors.py`):
  * the effective `analyze_health_metrics` of the sepsis, ICU-mortality and
  * post-surgery predictors, the post-surgery contributing factors, the keys of
  * the `assess_lifestyle_impact` dictionaries and the sepsis feature table.
  *
  * The sepsis class defines `analyze_health_metrics` and
  * `assess_lifestyle_impact` three times each; the last definitions (lines
  * 436 and 479) are the ones in effect. These helpers read every field with
  * `data.get(key, default)`, so a missing reading takes its default (mostly
  * 0). */
module ConditionPredictors {
  import opened Records
  import BasePredictor
  import Features

  /** How many of four conditions hold. */
  lemma CountTrueOfFour(a: bool, b: bool, c: bool, d: bool)
    ensures CountTrue([a, b, c, d]) == (if a then 1 else 0) + (if b then 1 else 0) + (if c then 1 else 0) + (if d then 1 else 0)
  {
    assert CountTrue([d]) == (if d then 1 else 0) by { assert [d][1..] == []; }
    assert CountTrue([c, d]) == (if c then 1 else 0) + CountTrue([d]) by { assert [c, d][1..] == [d]; }
    assert CountTrue([b, c, d]) == (if b then 1 else 0) + CountTrue([c, d]) by { assert [b, c, d][1..] == [c, d]; }
    assert CountTrue([a, b, c, d]) == (if a then 1 else 0) + CountTrue([b, c, d]) by { assert [a, b, c, d][1..] == [b, c, d]; }
  }

  // ---------------------------------------------------------------------
  // Sepsis
  // ---------------------------------------------------------------------

  const SepsisSchema: BasePredictor.Schema :=
    [("age", BasePredictor.IntField), ("heart_rate", BasePredictor.FloatField),
     ("systolic_bp", BasePredictor.FloatField), ("mean_arterial_pressure", BasePredictor.FloatField),
     ("diastolic_bp", BasePredictor.FloatField), ("respiratory_rate", BasePredictor.FloatField),
     ("temperature", BasePredictor.FloatField), ("spo2", BasePredictor.FloatField),
     ("white_blood_cells", BasePredictor.FloatField), ("immature_granulocytes", BasePredictor.FloatField),
     ("platelets", BasePredictor.FloatField), ("creatinine", BasePredictor.FloatField),
     ("bun", BasePredictor.FloatField), ("lactate", BasePredictor.FloatField),
     ("glucose", BasePredictor.FloatField), ("magnesium", BasePredictor.FloatField),
     ("calcium", BasePredictor.FloatField), ("phosphate", BasePredictor.FloatField),
     ("potassium", BasePredictor.FloatField), ("sodium", BasePredictor.FloatField),
     ("chloride", BasePredictor.FloatField), ("hematocrit", BasePredictor.FloatField),
     ("hemoglobin", BasePredictor.FloatField), ("ptt", BasePredictor.FloatField),
     ("wbc_count", BasePredictor.FloatField), ("fibrinogen", BasePredictor.FloatField),
     ("troponin", BasePredictor.FloatField)]

  const SepsisFeatures: Features.FeatureTable :=
    [("age", 100.0), ("heart_rate", 200.0), ("systolic_bp", 200.0), ("mean_arterial_pressure", 150.0),
     ("diastolic_bp", 120.0), ("respiratory_rate", 50.0), ("temperature", 45.0), ("spo2", 100.0),
     ("white_blood_cells", 50.0), ("immature_granulocytes", 100.0), ("platelets", 1000.0),
     ("creatinine", 10.0), ("bun", 100.0), ("lactate", 20.0), ("glucose", 500.0), ("magnesium", 5.0),
     ("calcium", 15.0), ("phosphate", 10.0), ("potassium", 10.0), ("sodium", 200.0), ("chloride", 150.0),
     ("hematocrit", 100.0), ("hemoglobin", 20.0), ("ptt", 100.0), ("wbc_count", 50000.0),
     ("fibrinogen", 1000.0), ("troponin", 50.0)]

  /** Sepsis `preprocess_data` reads the 27 required fields in declaration
    * order, one feature each, and never divides by zero. */
  lemma SepsisFeaturesAligned()
    ensures Features.ScalesNonZero(SepsisFeatures) && Features.Names(SepsisFeatures) == Features.Names(SepsisSchema)
    ensures |SepsisFeatures| == 27
  {
  }

  datatype VitalStatus = VitalNormal | Concerning
  datatype MarkerStatus = MarkersNormal | MarkersAbnormal
  datatype OrganStatus = OrganNormal | OrganStable | OrganImpaired | MultiOrganFailure
  datatype Organ = Kidney | TissuePerfusion | Coagulation

  /** The entries of `severity_indicators` and `critical_indicators`. */
  datatype Indicator =
    | MultipleVitalAbnormalities | Dysfunction(organ: Organ)
    | ExtremeApache | MultipleOrganDysfunction | HemodynamicInstability

  /** The readings sepsis `analyze_health_metrics` takes, each with its
    * `get` default of 0. */
  datatype SepsisReadings = SepsisReadings(
    temperature: real, heartRate: real, respiratoryRate: real, systolicBp: real,
    whiteBloodCells: real, creatinine: real, lactate: real, platelets: real)

  function SepsisReadingsOf(data: Record): SepsisReadings
  {
    SepsisReadings(
      Get(data, "temperature", 0.0), Get(data, "heart_rate", 0.0), Get(data, "respiratory_rate", 0.0),
      Get(data, "systolic_bp", 0.0), Get(data, "white_blood_cells", 0.0), Get(data, "creatinine", 0.0),
      Get(data, "lactate", 0.0), Get(data, "platelets", 0.0))
  }

  /** The four vital-sign checks, in source order. */
  function SepsisVitalChecks(r: SepsisReadings): seq<bool>
  {
    [r.temperature > 38.3 || r.temperature < 36.0, r.heartRate > 90.0, r.respiratoryRate > 20.0, r.systolicBp < 90.0]
  }

  /** `organ_issues`: the organs found failing, in source order. */
  function SepsisOrganIssues(r: SepsisReadings): (issues: seq<Organ>)
    ensures Kidney in issues <==> r.creatinine > 1.2
    ensures TissuePerfusion in issues <==> r.lactate > 2.0
    ensures Coagulation in issues <==> r.platelets < 100.0
    ensures |issues| <= 3
  {
    AppendIf(AppendIf(AppendIf([], r.creatinine > 1.2, Kidney), r.lactate > 2.0, TissuePerfusion), r.platelets < 100.0, Coagulation)
  }

  /** `if c: f.append(x)`. */
  function AppendIf<T>(f: seq<T>, c: bool, x: T): seq<T>
  {
    if c then f + [x] else f
  }

  lemma InAppendIf<T>(f: seq<T>, c: bool, x: T, y: T)
    ensures y in AppendIf(f, c, x) <==> y in f || (c && y == x)
  {
  }

  /** `[f"{organ} dysfunction" for organ in organ_issues]`. */
  function Dysfunctions(issues: seq<Organ>): (d: seq<Indicator>)
    ensures |d| == |issues| && forall k :: 0 <= k < |issues| ==> d[k] == Dysfunction(issues[k])
  {
    seq(|issues|, k requires 0 <= k < |issues| => Dysfunction(issues[k]))
  }

  datatype SepsisAnalysis = SepsisAnalysis(
    vitalSigns: VitalStatus, infectionMarkers: MarkerStatus, organFunction: OrganStatus,
    severityIndicators: seq<Indicator>)

  /** Sepsis `analyze_health_metrics`: the vital signs are concerning iff at
    * least two of the four checks fail, the infection markers are abnormal
    * iff the white cell count is above 12 or below 4, and the organ function
    * is impaired iff any of creatinine > 1.2, lactate > 2 or platelets < 100
    * holds; the indicators list the vital-sign note first, then one
    * dysfunction per failing organ in that order. */
  method SepsisAnalyze(data: Record) returns (a: SepsisAnalysis)
    ensures a.vitalSigns == Concerning <==> CountTrue(SepsisVitalChecks(SepsisReadingsOf(data))) >= 2
    ensures a.infectionMarkers == MarkersAbnormal <==> SepsisReadingsOf(data).whiteBloodCells > 12.0 || SepsisReadingsOf(data).whiteBloodCells < 4.0
    ensures a.organFunction in {OrganNormal, OrganImpaired}
    ensures a.organFunction == OrganImpaired <==> SepsisReadingsOf(data).creatinine > 1.2 || SepsisReadingsOf(data).lactate > 2.0 || SepsisReadingsOf(data).platelets < 100.0
    ensures a.severityIndicators == AppendIf([], a.vitalSigns == Concerning, MultipleVitalAbnormalities) + Dysfunctions(SepsisOrganIssues(SepsisReadingsOf(data)))
  {
    var r := SepsisReadingsOf(data);
    var vitalSigns, infectionMarkers, organFunction := VitalNormal, MarkersNormal, OrganNormal;
    var indicators: seq<Indicator> := [];
    var vitalAbnormalities := 0;
    if r.temperature > 38.3 || r.temperature < 36.0 {
      vitalAbnormalities := vitalAbnormalities + 1;
    }
    if r.heartRate > 90.0 {
      vitalAbnormalities := vitalAbnormalities + 1;
    }
    if r.respiratoryRate > 20.0 {
      vitalAbnormalities := vitalAbnormalities + 1;
    }
    if r.systolicBp < 90.0 {
      vitalAbnormalities := vitalAbnormalities + 1;
    }
    ghost var checks := SepsisVitalChecks(r);
    CountTrueOfFour(checks[0], checks[1], checks[2], checks[3]);
    assert vitalAbnormalities == CountTrue(checks);
    if vitalAbnormalities >= 2 {
      vitalSigns := Concerning;
      indicators := indicators + [MultipleVitalAbnormalities];
    }
    if r.whiteBloodCells > 12.0 || r.whiteBloodCells < 4.0 {
      infectionMarkers := MarkersAbnormal;
    }
    var organIssues: seq<Organ> := [];
    if r.creatinine > 1.2 {
      organIssues := organIssues + [Kidney];
    }
    if r.lactate > 2.0 {
      organIssues := organIssues + [TissuePerfusion];
    }
    if r.platelets < 100.0 {
      organIssues := organIssues + [Coagulation];
    }
    assert organIssues == SepsisOrganIssues(r);
    if organIssues != [] {
      organFunction := OrganImpaired;
      indicators := indicators + Dysfunctions(organIssues);
    }
    a := SepsisAnalysis(vitalSigns, infectionMarkers, organFunction, indicators);
  }

  /** Missing readings take the default 0, and 0 is an abnormal temperature,
    * systolic pressure and platelet count: an empty request already has two
    * vital-sign abnormalities and a coagulation dysfunction. */
  lemma SepsisEmptyRequest()
    ensures CountTrue(SepsisVitalChecks(SepsisReadingsOf(map[]))) == 2
    ensures SepsisOrganIssues(SepsisReadingsOf(map[])) == [Coagulation]
  {
    var c := SepsisVitalChecks(SepsisReadingsOf(map[]));
    CountTrueOfFour(c[0], c[1], c[2], c[3]);
  }

  /** The keys of the `assess_lifestyle_impact` dictionaries; each key's text
    * is a fixed sentence. */
  datatype CareKey =
    | AgeFactor | InfectionPrevention | EarlyRecognition | ChronicConditions | ImmuneSupport
    | FamilySupport | RecoveryFocus | AgeConsiderations | Prevention | FollowUp
    | SmokingCessation | Nutrition | Mobility | DiabetesCare | PainManagement

  /** Sepsis `assess_lifestyle_impact`: the four general keys always, and the
    * age key exactly for patients over 65. */
  method SepsisLifestyle(data: Record) returns (keys: set<CareKey>)
    ensures {InfectionPrevention, EarlyRecognition, ChronicConditions, ImmuneSupport} <= keys
    ensures AgeFactor in keys <==> Get(data, "age", 0.0) > 65.0
    ensures keys <= {AgeFactor, InfectionPrevention, EarlyRecognition, ChronicConditions, ImmuneSupport}
  {
    keys := {};
    if Get(data, "age", 0.0) > 65.0 {
      keys := keys + {AgeFactor};
    }
    keys := keys + {InfectionPrevention};
    keys := keys + {EarlyRecognition};
    keys := keys + {ChronicConditions};
    keys := keys + {ImmuneSupport};
  }

  // ---------------------------------------------------------------------
  // Hospital readmission
  // ---------------------------------------------------------------------

  const ReadmissionSchema: BasePredictor.Schema :=
    [("age", BasePredictor.IntField), ("gender", BasePredictor.IntField),
     ("admission_type", BasePredictor.IntField), ("discharge_disposition", BasePredictor.IntField),
     ("admission_source", BasePredictor.IntField), ("time_in_hospital", BasePredictor.IntField),
     ("num_lab_procedures", BasePredictor.IntField), ("num_procedures", BasePredictor.IntField),
     ("num_medications", BasePredictor.IntField), ("number_outpatient", BasePredictor.IntField),
     ("number_emergency", BasePredictor.IntField), ("number_inpatient", BasePredictor.IntField),
     ("diag_1", BasePredictor.IntField), ("diag_2", BasePredictor.IntField),
     ("diag_3", BasePredictor.IntField), ("number_diagnoses", BasePredictor.IntField),
     ("max_glu_serum", BasePredictor.IntField), ("a1c_result", BasePredictor.IntField),
     ("metformin", BasePredictor.IntField), ("insulin", BasePredictor.IntField),
     ("change", BasePredictor.IntField), ("diabetesMed", BasePredictor.IntField),
     ("comorbidity_score", BasePredictor.IntField), ("previous_admissions", BasePredictor.IntField)]

  const ReadmissionFeatures: Features.FeatureTable :=
    [("age", 100.0), ("gender", 1.0), ("admission_type", 3.0), ("discharge_disposition", 3.0),
     ("admission_source", 3.0), ("time_in_hospital", 30.0), ("num_lab_procedures", 100.0), ("num_procedures", 20.0),
     ("num_medications", 50.0), ("number_outpatient", 20.0), ("number_emergency", 10.0), ("number_inpatient", 10.0),
     ("diag_1", 18.0), ("diag_2", 18.0), ("diag_3", 18.0), ("number_diagnoses", 20.0),
     ("max_glu_serum", 3.0), ("a1c_result", 3.0), ("metformin", 3.0), ("insulin", 3.0),
     ("change", 1.0), ("diabetesMed", 1.0), ("comorbidity_score", 10.0), ("previous_admissions", 10.0)]

  /** Hospital-readmission `preprocess_data` reads the 24 required fields in
    * declaration order, one feature each, with no zero scale. */
  lemma ReadmissionFeaturesAligned()
    ensures Features.ScalesNonZero(ReadmissionFeatures) && Features.Names(ReadmissionFeatures) == Features.Names(ReadmissionSchema)
    ensures |ReadmissionFeatures| == 24
  {
  }

  // ---------------------------------------------------------------------
  // ICU mortality
  // ---------------------------------------------------------------------

  const IcuSchema: BasePredictor.Schema :=
    [("age", BasePredictor.IntField), ("gender", BasePredictor.IntField),
     ("apache_score", BasePredictor.IntField), ("glasgow_coma_scale", BasePredictor.IntField),
     ("heart_rate", BasePredictor.FloatField), ("systolic_bp", BasePredictor.FloatField),
     ("diastolic_bp", BasePredictor.FloatField), ("mean_bp", BasePredictor.FloatField),
     ("respiratory_rate", BasePredictor.FloatField), ("temperature", BasePredictor.FloatField),
     ("spo2", BasePredictor.FloatField), ("urine_output", BasePredictor.FloatField),
     ("mechanical_ventilation", BasePredictor.IntField), ("vasopressor_use", BasePredictor.IntField),
     ("sedation_level", BasePredictor.IntField), ("creatinine", BasePredictor.FloatField),
     ("bun", BasePredictor.FloatField), ("glucose", BasePredictor.FloatField),
     ("sodium", BasePredictor.FloatField), ("potassium", BasePredictor.FloatField),
     ("chloride", BasePredictor.FloatField), ("hemoglobin", BasePredictor.FloatField),
     ("hematocrit", BasePredictor.FloatField), ("platelets", BasePredictor.FloatField),
     ("white_blood_cells", BasePredictor.FloatField), ("lactate", BasePredictor.FloatField),
     ("ph", BasePredictor.FloatField), ("pco2", BasePredictor.FloatField),
     ("po2", BasePredictor.FloatField), ("bicarbonate", BasePredictor.FloatField),
     ("admission_diagnosis", BasePredictor.IntField), ("comorbidities", BasePredictor.IntField),
     ("length_of_stay", BasePredictor.IntField)]

  const IcuFeatures: Features.FeatureTable :=
    [("age", 100.0), ("gender", 1.0), ("apache_score", 71.0), ("glasgow_coma_scale", 15.0),
     ("heart_rate", 200.0), ("systolic_bp", 200.0), ("diastolic_bp", 120.0), ("mean_bp", 150.0),
     ("respiratory_rate", 50.0), ("temperature", 45.0), ("spo2", 100.0), ("urine_output", 200.0),
     ("mechanical_ventilation", 1.0), ("vasopressor_use", 1.0), ("sedation_level", 4.0), ("creatinine", 10.0),
     ("bun", 100.0), ("glucose", 500.0), ("sodium", 200.0), ("potassium", 10.0),
     ("chloride", 150.0), ("hemoglobin", 20.0), ("hematocrit", 100.0), ("platelets", 1000.0),
     ("white_blood_cells", 50.0), ("lactate", 20.0), ("ph", 8.0), ("pco2", 100.0),
     ("po2", 500.0), ("bicarbonate", 50.0), ("admission_diagnosis", 20.0), ("comorbidities", 10.0),
     ("length_of_stay", 30.0)]

  /** ICU-mortality `preprocess_data` reads the 33 required fields in
    * declaration order, one feature each, with no zero scale. */
  lemma IcuFeaturesAligned()
    ensures Features.ScalesNonZero(IcuFeatures) && Features.Names(IcuFeatures) == Features.Names(IcuSchema)
    ensures |IcuFeatures| == 33
  {
  }


  datatype Severity = ModerateSeverity | SevereSeverity | CriticalSeverity
  datatype Hemodynamics = HemodynamicStable | HemodynamicUnstable

  /** The readings ICU `analyze_health_metrics` takes, with their `get`
    * defaults (15 for the Glasgow coma scale, 0 otherwise). */
  datatype IcuReadings = IcuReadings(
    apacheScore: real, creatinine: real, mechanicalVentilation: real, platelets: real,
    glasgowComaScale: real, vasopressorUse: real, meanBp: real)

  function IcuReadingsOf(data: Record): IcuReadings
  {
    IcuReadings(
      Get(data, "apache_score", 0.0), Get(data, "creatinine", 0.0), Get(data, "mechanical_ventilation", 0.0),
      Get(data, "platelets", 0.0), Get(data, "glasgow_coma_scale", 15.0), Get(data, "vasopressor_use", 0.0),
      Get(data, "mean_bp", 0.0))
  }

  /** The four organ-failure checks, in source order. */
  function IcuOrganChecks(r: IcuReadings): seq<bool>
  {
    [r.creatinine > 1.5, r.mechanicalVentilation == 1.0, r.platelets < 100.0, r.glasgowComaScale < 10.0]
  }

  predicate HemodynamicallyUnstable(r: IcuReadings)
  {
    r.vasopressorUse == 1.0 || r.meanBp < 65.0
  }

  datatype IcuAnalysis = IcuAnalysis(
    severity: Severity, organFunction: OrganStatus, hemodynamics: Hemodynamics, criticalIndicators: seq<Indicator>)

  /** ICU `analyze_health_metrics`: an APACHE II score above 30 is critical
    * and above 20 severe; three or more organ failures are multi-organ
    * failure and one or more impaired; vasopressors or a mean pressure below
    * 65 is unstable. Each of the critical cases adds its indicator, in that
    * order. */
  method IcuAnalyze(data: Record) returns (a: IcuAnalysis)
    ensures a.severity == CriticalSeverity <==> IcuReadingsOf(data).apacheScore > 30.0
    ensures a.severity == ModerateSeverity <==> IcuReadingsOf(data).apacheScore <= 20.0
    ensures a.organFunction == MultiOrganFailure <==> CountTrue(IcuOrganChecks(IcuReadingsOf(data))) >= 3
    ensures a.organFunction == OrganImpaired <==> 1 <= CountTrue(IcuOrganChecks(IcuReadingsOf(data))) < 3
    ensures a.organFunction == OrganStable <==> CountTrue(IcuOrganChecks(IcuReadingsOf(data))) == 0
    ensures a.hemodynamics == HemodynamicUnstable <==> HemodynamicallyUnstable(IcuReadingsOf(data))
    ensures a.criticalIndicators == AppendIf(AppendIf(AppendIf([], a.severity == CriticalSeverity, ExtremeApache), a.organFunction == MultiOrganFailure, MultipleOrganDysfunction), a.hemodynamics == HemodynamicUnstable, HemodynamicInstability)
  {
    var r := IcuReadingsOf(data);
    var severity, organFunction, hemodynamics := ModerateSeverity, OrganStable, HemodynamicStable;
    var indicators: seq<Indicator> := [];
    if r.apacheScore > 30.0 {
      severity := CriticalSeverity;
      indicators := indicators + [ExtremeApache];
    } else if r.apacheScore > 20.0 {
      severity := SevereSeverity;
    }
    var organFailures := 0;
    if r.creatinine > 1.5 {
      organFailures := organFailures + 1;
    }
    if r.mechanicalVentilation == 1.0 {
      organFailures := organFailures + 1;
    }
    if r.platelets < 100.0 {
      organFailures := organFailures + 1;
    }
    if r.glasgowComaScale < 10.0 {
      organFailures := organFailures + 1;
    }
    ghost var checks := IcuOrganChecks(r);
    CountTrueOfFour(checks[0], checks[1], checks[2], checks[3]);
    assert organFailures == CountTrue(checks);
    if organFailures >= 3 {
      organFunction := MultiOrganFailure;
      indicators := indicators + [MultipleOrganDysfunction];
    } else if organFailures >= 1 {
      organFunction := OrganImpaired;
    }
    if r.vasopressorUse == 1.0 || r.meanBp < 65.0 {
      hemodynamics := HemodynamicUnstable;
      indicators := indicators + [HemodynamicInstability];
    }
    a := IcuAnalysis(severity, organFunction, hemodynamics, indicators);
  }

  /** ICU `assess_lifestyle_impact`: four keys always, the age key exactly for
    * patients over 65. */
  method IcuLifestyle(data: Record) returns (keys: set<CareKey>)
    ensures {FamilySupport, RecoveryFocus, Prevention, FollowUp} <= keys
    ensures AgeConsiderations in keys <==> Get(data, "age", 0.0) > 65.0
    ensures keys <= {FamilySupport, RecoveryFocus, AgeConsiderations, Prevention, FollowUp}
  {
    keys := {};
    keys := keys + {FamilySupport};
    keys := keys + {RecoveryFocus};
    if Get(data, "age", 0.0) > 65.0 {
      keys := keys + {AgeConsiderations};
    }
    keys := keys + {Prevention};
    keys := keys + {FollowUp};
  }

  // ---------------------------------------------------------------------
  // Post-surgery complications
  // ---------------------------------------------------------------------

  const SurgerySchema: BasePredictor.Schema :=
    [("age", BasePredictor.IntField), ("gender", BasePredictor.IntField),
     ("bmi", BasePredictor.FloatField), ("surgery_type", BasePredictor.IntField),
     ("surgery_duration", BasePredictor.FloatField), ("anesthesia_type", BasePredictor.IntField),
     ("asa_score", BasePredictor.IntField), ("emergency_surgery", BasePredictor.IntField),
     ("preop_hemoglobin", BasePredictor.FloatField), ("preop_creatinine", BasePredictor.FloatField),
     ("preop_albumin", BasePredictor.FloatField), ("diabetes", BasePredictor.IntField),
     ("hypertension", BasePredictor.IntField), ("heart_disease", BasePredictor.IntField),
     ("copd", BasePredictor.IntField), ("kidney_disease", BasePredictor.IntField),
     ("liver_disease", BasePredictor.IntField), ("smoking_status", BasePredictor.IntField),
     ("alcohol_use", BasePredictor.IntField), ("functional_status", BasePredictor.IntField),
     ("blood_loss", BasePredictor.FloatField), ("transfusion_required", BasePredictor.IntField),
     ("postop_pain_score", BasePredictor.IntField), ("mobility_day1", BasePredictor.IntField),
     ("wound_class", BasePredictor.IntField)]

  const SurgeryFeatures: Features.FeatureTable :=
    [("age", 100.0), ("gender", 1.0), ("bmi", 50.0), ("surgery_type", 10.0),
     ("surgery_duration", 12.0), ("anesthesia_type", 3.0), ("asa_score", 5.0), ("emergency_surgery", 1.0),
     ("preop_hemoglobin", 20.0), ("preop_creatinine", 5.0), ("preop_albumin", 5.0), ("diabetes", 1.0),
     ("hypertension", 1.0), ("heart_disease", 1.0), ("copd", 1.0), ("kidney_disease", 1.0),
     ("liver_disease", 1.0), ("smoking_status", 2.0), ("alcohol_use", 3.0), ("functional_status", 3.0),
     ("blood_loss", 2000.0), ("transfusion_required", 1.0), ("postop_pain_score", 10.0), ("mobility_day1", 1.0),
     ("wound_class", 4.0)]

  /** Post-surgery `preprocess_data` reads the 25 required fields in
    * declaration order, one feature each, with no zero scale. */
  lemma SurgeryFeaturesAligned()
    ensures Features.ScalesNonZero(SurgeryFeatures) && Features.Names(SurgeryFeatures) == Features.Names(SurgerySchema)
    ensures |SurgeryFeatures| == 25
  {
  }


  /** The readings of the post-surgery helpers, each with its `get` default
    * of 0. */
  datatype SurgeryReadings = SurgeryReadings(
    age: real, bmi: real, asaScore: real, emergencySurgery: real, surgeryDuration: real,
    diabetes: real, hypertension: real, heartDisease: real, copd: real, kidneyDisease: real, liverDisease: real,
    hemoglobin: real, albumin: real, smokingStatus: real, functionalStatus: real, bloodLoss: real, woundClass: real)

  function SurgeryReadingsOf(data: Record): SurgeryReadings
  {
    SurgeryReadings(
      Get(data, "age", 0.0), Get(data, "bmi", 0.0), Get(data, "asa_score", 0.0), Get(data, "emergency_surgery", 0.0),
      Get(data, "surgery_duration", 0.0), Get(data, "diabetes", 0.0), Get(data, "hypertension", 0.0),
      Get(data, "heart_disease", 0.0), Get(data, "copd", 0.0), Get(data, "kidney_disease", 0.0),
      Get(data, "liver_disease", 0.0), Get(data, "preop_hemoglobin", 0.0), Get(data, "preop_albumin", 0.0),
      Get(data, "smoking_status", 0.0), Get(data, "functional_status", 0.0), Get(data, "blood_loss", 0.0),
      Get(data, "wound_class", 0.0))
  }

  /** The six comorbidity readings, in source order. */
  function Comorbidities(r: SurgeryReadings): seq<real>
  {
    [r.diabetes, r.hypertension, r.heartDisease, r.copd, r.kidneyDisease, r.liverDisease]
  }

  /** `sum([...])` of the six comorbidity readings. */
  function ComorbidityCount(r: SurgeryReadings): real
  {
    r.diabetes + r.hypertension + r.heartDisease + r.copd + r.kidneyDisease + r.liverDisease
  }

  /** When each comorbidity reading is a 0/1 flag, the count lies in [0, 6]
    * and is the number of flags set, so the factor needs three of them. */
  lemma ComorbidityCountOfFlags(r: SurgeryReadings)
    requires forall k :: 0 <= k < 6 ==> Comorbidities(r)[k] == 0.0 || Comorbidities(r)[k] == 1.0
    ensures 0.0 <= ComorbidityCount(r) <= 6.0
    ensures ComorbidityCount(r) == CountTrue(FlagsSet(Comorbidities(r))) as real
  {
    var c := Comorbidities(r);
    var f := FlagsSet(c);
    CountTrueOfSix(f);
    assert f[..2][1..] == [f[1]];
  }

  /** Which of six readings equal 1. */
  function FlagsSet(c: seq<real>): (f: seq<bool>)
    requires |c| == 6
    ensures |f| == 6 && forall k :: 0 <= k < 6 ==> (f[k] <==> c[k] == 1.0)
  {
    [c[0] == 1.0, c[1] == 1.0, c[2] == 1.0, c[3] == 1.0, c[4] == 1.0, c[5] == 1.0]
  }

  lemma CountTrueOfSix(f: seq<bool>)
    requires |f| == 6
    ensures CountTrue(f) == CountTrue(f[..2]) + CountTrueQuad(f[2..])
  {
    assert f[1..][1..] == f[2..];
    assert f[..2][1..][1..] == [];
    assert f[..2][1..] == [f[1]];
  }

  /** The number of the four conditions that hold, written out. */
  function CountTrueQuad(f: seq<bool>): (n: nat)
    requires |f| == 4
    ensures n == CountTrue(f)
  {
    CountTrueOfFour(f[0], f[1], f[2], f[3]);
    assert f == [f[0], f[1], f[2], f[3]];
    (if f[0] then 1 else 0) + (if f[1] then 1 else 0) + (if f[2] then 1 else 0) + (if f[3] then 1 else 0)
  }

  /** The entries of the post-surgery `identify_contributing_factors`. */
  datatype SurgeryFactor =
    | AdvancedAge | Obesity | HighAsaScore | EmergencySurgery | ProlongedSurgery
    | MultipleComorbidities | LowHemoglobin | LowAlbumin | CurrentSmoking
    | PoorFunctionalStatus | SignificantBloodLoss | ContaminatedWound

  /** Which factors the post-surgery list names: the patient and surgery
    * tests, the comorbidity and preoperative tests, and the lifestyle and
    * surgical tests. */
  predicate SurgeryFactorShown(r: SurgeryReadings, x: SurgeryFactor)
  {
    PatientSurgeryShown(r, x) || PreoperativeShown(r, x) || LifestyleSurgicalShown(r, x)
  }

  predicate PatientSurgeryShown(r: SurgeryReadings, x: SurgeryFactor)
  {
    || (x == AdvancedAge && r.age > 70.0)
    || (x == Obesity && r.bmi > 30.0)
    || (x == HighAsaScore && r.asaScore >= 4.0)
    || (x == EmergencySurgery && r.emergencySurgery == 1.0)
    || (x == ProlongedSurgery && r.surgeryDuration > 4.0)
  }

  predicate PreoperativeShown(r: SurgeryReadings, x: SurgeryFactor)
  {
    || (x == MultipleComorbidities && ComorbidityCount(r) >= 3.0)
    || (x == LowHemoglobin && r.hemoglobin < 10.0)
    || (x == LowAlbumin && r.albumin < 3.0)
  }

  predicate LifestyleSurgicalShown(r: SurgeryReadings, x: SurgeryFactor)
  {
    || (x == CurrentSmoking && r.smokingStatus == 2.0)
    || (x == PoorFunctionalStatus && r.functionalStatus >= 2.0)
    || (x == SignificantBloodLoss && r.bloodLoss > 500.0)
    || (x == ContaminatedWound && r.woundClass >= 3.0)
  }

  /** `f` extended by the patient and surgery factors (the first five
    * tests). */
  function WithPatientSurgeryFactors(f: seq<SurgeryFactor>, r: SurgeryReadings): seq<SurgeryFactor>
  {
    AppendIf(AppendIf(AppendIf(AppendIf(AppendIf(f, r.age > 70.0, AdvancedAge), r.bmi > 30.0, Obesity), r.asaScore >= 4.0, HighAsaScore), r.emergencySurgery == 1.0, EmergencySurgery), r.surgeryDuration > 4.0, ProlongedSurgery)
  }

  /** `f` extended by the comorbidity and preoperative factors (the next
    * three tests). */
  function WithPreoperativeFactors(f: seq<SurgeryFactor>, r: SurgeryReadings): seq<SurgeryFactor>
  {
    AppendIf(AppendIf(AppendIf(f, ComorbidityCount(r) >= 3.0, MultipleComorbidities), r.hemoglobin < 10.0, LowHemoglobin), r.albumin < 3.0, LowAlbumin)
  }

  /** `f` extended by the lifestyle and surgical factors (the last four
    * tests). */
  function WithLifestyleSurgicalFactors(f: seq<SurgeryFactor>, r: SurgeryReadings): seq<SurgeryFactor>
  {
    AppendIf(AppendIf(AppendIf(AppendIf(f, r.smokingStatus == 2.0, CurrentSmoking), r.functionalStatus >= 2.0, PoorFunctionalStatus), r.bloodLoss > 500.0, SignificantBloodLoss), r.woundClass >= 3.0, ContaminatedWound)
  }

  /** The post-surgery factor list, in source order. */
  function SurgeryFactors(r: SurgeryReadings): seq<SurgeryFactor>
  {
    WithLifestyleSurgicalFactors(WithPreoperativeFactors(WithPatientSurgeryFactors([], r), r), r)
  }

  lemma PatientSurgeryFactorsExactly(f: seq<SurgeryFactor>, r: SurgeryReadings)
    ensures forall x :: x in WithPatientSurgeryFactors(f, r) <==> x in f || PatientSurgeryShown(r, x)
    ensures |WithPatientSurgeryFactors(f, r)| <= |f| + 5
  {
    forall x
      ensures x in WithPatientSurgeryFactors(f, r) <==> x in f || PatientSurgeryShown(r, x)
    {
      InAppendIf(f, r.age > 70.0, AdvancedAge, x);
      var s1 := AppendIf(f, r.age > 70.0, AdvancedAge);
      InAppendIf(s1, r.bmi > 30.0, Obesity, x);
      var s2 := AppendIf(s1, r.bmi > 30.0, Obesity);
      InAppendIf(s2, r.asaScore >= 4.0, HighAsaScore, x);
      var s3 := AppendIf(s2, r.asaScore >= 4.0, HighAsaScore);
      InAppendIf(s3, r.emergencySurgery == 1.0, EmergencySurgery, x);
      var s4 := AppendIf(s3, r.emergencySurgery == 1.0, EmergencySurgery);
      InAppendIf(s4, r.surgeryDuration > 4.0, ProlongedSurgery, x);
    }
  }

  lemma PreoperativeFactorsExactly(f: seq<SurgeryFactor>, r: SurgeryReadings)
    ensures forall x :: x in WithPreoperativeFactors(f, r) <==> x in f || PreoperativeShown(r, x)
    ensures |WithPreoperativeFactors(f, r)| <= |f| + 3
  {
    forall x
      ensures x in WithPreoperativeFactors(f, r) <==> x in f || PreoperativeShown(r, x)
    {
      InAppendIf(f, ComorbidityCount(r) >= 3.0, MultipleComorbidities, x);
      var s1 := AppendIf(f, ComorbidityCount(r) >= 3.0, MultipleComorbidities);
      InAppendIf(s1, r.hemoglobin < 10.0, LowHemoglobin, x);
      var s2 := AppendIf(s1, r.hemoglobin < 10.0, LowHemoglobin);
      InAppendIf(s2, r.albumin < 3.0, LowAlbumin, x);
    }
  }

  lemma LifestyleSurgicalFactorsExactly(f: seq<SurgeryFactor>, r: SurgeryReadings)
    ensures forall x :: x in WithLifestyleSurgicalFactors(f, r) <==> x in f || LifestyleSurgicalShown(r, x)
    ensures |WithLifestyleSurgicalFactors(f, r)| <= |f| + 4
  {
    forall x
      ensures x in WithLifestyleSurgicalFactors(f, r) <==> x in f || LifestyleSurgicalShown(r, x)
    {
      InAppendIf(f, r.smokingStatus == 2.0, CurrentSmoking, x);
      var s1 := AppendIf(f, r.smokingStatus == 2.0, CurrentSmoking);
      InAppendIf(s1, r.functionalStatus >= 2.0, PoorFunctionalStatus, x);
      var s2 := AppendIf(s1, r.functionalStatus >= 2.0, PoorFunctionalStatus);
      InAppendIf(s2, r.bloodLoss > 500.0, SignificantBloodLoss, x);
      var s3 := AppendIf(s2, r.bloodLoss > 500.0, SignificantBloodLoss);
      InAppendIf(s3, r.woundClass >= 3.0, ContaminatedWound, x);
    }
  }

  /** Each factor appears exactly when its test holds, and at most twelve
    * appear. */
  lemma SurgeryFactorsExactly(r: SurgeryReadings)
    ensures forall x :: x in SurgeryFactors(r) <==> SurgeryFactorShown(r, x)
    ensures |SurgeryFactors(r)| <= 12
  {
    var first := WithPatientSurgeryFactors([], r);
    var second := WithPreoperativeFactors(first, r);
    PatientSurgeryFactorsExactly([], r);
    PreoperativeFactorsExactly(first, r);
    LifestyleSurgicalFactorsExactly(second, r);
  }

  /** Post-surgery `identify_contributing_factors`, one helper per group of
    * tests. */
  method IdentifySurgeryFactors(data: Record) returns (factors: seq<SurgeryFactor>)
    ensures factors == SurgeryFactors(SurgeryReadingsOf(data))
  {
    var r := SurgeryReadingsOf(data);
    factors := AddPatientSurgeryFactors(r, []);
    factors := AddPreoperativeFactors(r, factors);
    factors := AddLifestyleSurgicalFactors(r, factors);
  }

  /** The patient-risk and surgery-characteristic tests. */
  method AddPatientSurgeryFactors(r: SurgeryReadings, prior: seq<SurgeryFactor>) returns (factors: seq<SurgeryFactor>)
    ensures factors == WithPatientSurgeryFactors(prior, r)
  {
    factors := prior;
    if r.age > 70.0 {
      factors := factors + [AdvancedAge];
    }
    if r.bmi > 30.0 {
      factors := factors + [Obesity];
    }
    if r.asaScore >= 4.0 {
      factors := factors + [HighAsaScore];
    }
    if r.emergencySurgery == 1.0 {
      factors := factors + [EmergencySurgery];
    }
    if r.surgeryDuration > 4.0 {
      factors := factors + [ProlongedSurgery];
    }
  }

  /** The comorbidity and preoperative-status tests. */
  method AddPreoperativeFactors(r: SurgeryReadings, prior: seq<SurgeryFactor>) returns (factors: seq<SurgeryFactor>)
    ensures factors == WithPreoperativeFactors(prior, r)
  {
    factors := prior;
    var comorbidityCount := ComorbidityCount(r);
    if comorbidityCount >= 3.0 {
      factors := factors + [MultipleComorbidities];
    }
    if r.hemoglobin < 10.0 {
      factors := factors + [LowHemoglobin];
    }
    if r.albumin < 3.0 {
      factors := factors + [LowAlbumin];
    }
  }

  /** The lifestyle and surgical tests. */
  method AddLifestyleSurgicalFactors(r: SurgeryReadings, prior: seq<SurgeryFactor>) returns (factors: seq<SurgeryFactor>)
    ensures factors == WithLifestyleSurgicalFactors(prior, r)
  {
    factors := prior;
    if r.smokingStatus == 2.0 {
      factors := factors + [CurrentSmoking];
    }
    if r.functionalStatus >= 2.0 {
      factors := factors + [PoorFunctionalStatus];
    }
    if r.bloodLoss > 500.0 {
      factors := factors + [SignificantBloodLoss];
    }
    if r.woundClass >= 3.0 {
      factors := factors + [ContaminatedWound];
    }
  }

  /** The risk points of the post-surgery `analyze_health_metrics`: two each
    * for an ASA class of 3 or more and for emergency surgery, one each for
    * age over 65 and a BMI over 30. */
  function SurgeryRiskScore(r: SurgeryReadings): (s: int)
    ensures 0 <= s <= 6
    ensures s >= 4 <==> (r.asaScore >= 3.0 && r.emergencySurgery == 1.0) || ((r.asaScore >= 3.0 || r.emergencySurgery == 1.0) && r.age > 65.0 && r.bmi > 30.0)
    ensures s == 0 <==> r.asaScore < 3.0 && r.emergencySurgery != 1.0 && r.age <= 65.0 && r.bmi <= 30.0
  {
    (if r.asaScore >= 3.0 then 2 else 0) + (if r.emergencySurgery == 1.0 then 2 else 0) +
    (if r.age > 65.0 then 1 else 0) + (if r.bmi > 30.0 then 1 else 0)
  }

  datatype SurgicalRisk = ModerateSurgicalRisk | ModerateHighSurgicalRisk | HighSurgicalRisk
  datatype Outlook = GoodOutlook | GuardedOutlook
  datatype Complication = DiabetesHealing | SmokingHealing | PoorNutrition
  datatype Priority = GlucoseControl | NutritionalSupport | CardiacMonitoring | RenalFunction

  /** The complication factors, in source order. */
  function ComplicationFactors(r: SurgeryReadings): (c: seq<Complication>)
    ensures DiabetesHealing in c <==> r.diabetes == 1.0
    ensures SmokingHealing in c <==> r.smokingStatus >= 1.0
    ensures PoorNutrition in c <==> r.albumin < 3.5
  {
    AppendIf(AppendIf(AppendIf([], r.diabetes == 1.0, DiabetesHealing), r.smokingStatus >= 1.0, SmokingHealing), r.albumin < 3.5, PoorNutrition)
  }

  /** The monitoring priorities, in the order they are appended. */
  function MonitoringPriorities(r: SurgeryReadings): (p: seq<Priority>)
    ensures GlucoseControl in p <==> r.diabetes == 1.0
    ensures NutritionalSupport in p <==> r.albumin < 3.5
    ensures CardiacMonitoring in p <==> r.heartDisease == 1.0
    ensures RenalFunction in p <==> r.kidneyDisease == 1.0
  {
    AppendIf(AppendIf(AppendIf(AppendIf([], r.diabetes == 1.0, GlucoseControl), r.albumin < 3.5, NutritionalSupport), r.heartDisease == 1.0, CardiacMonitoring), r.kidneyDisease == 1.0, RenalFunction)
  }

  datatype SurgeryAnalysis = SurgeryAnalysis(
    risk: SurgicalRisk, outlook: Outlook, complications: seq<Complication>, priorities: seq<Priority>)

  /** Post-surgery `analyze_health_metrics`: four or more risk points are
    * high risk with a guarded outlook, two or three moderate-high. */
  method SurgeryAnalyze(data: Record) returns (a: SurgeryAnalysis)
    ensures a.risk == HighSurgicalRisk <==> SurgeryRiskScore(SurgeryReadingsOf(data)) >= 4
    ensures a.risk == ModerateHighSurgicalRisk <==> 2 <= SurgeryRiskScore(SurgeryReadingsOf(data)) < 4
    ensures a.outlook == GuardedOutlook <==> a.risk == HighSurgicalRisk
    ensures a.complications == ComplicationFactors(SurgeryReadingsOf(data))
    ensures a.priorities == MonitoringPriorities(SurgeryReadingsOf(data))
  {
    var r := SurgeryReadingsOf(data);
    var risk, outlook := ModerateSurgicalRisk, GoodOutlook;
    var riskScore := 0;
    if r.asaScore >= 3.0 {
      riskScore := riskScore + 2;
    }
    if r.emergencySurgery == 1.0 {
      riskScore := riskScore + 2;
    }
    if r.age > 65.0 {
      riskScore := riskScore + 1;
    }
    if r.bmi > 30.0 {
      riskScore := riskScore + 1;
    }
    assert riskScore == SurgeryRiskScore(r);
    if riskScore >= 4 {
      risk, outlook := HighSurgicalRisk, GuardedOutlook;
    } else if riskScore >= 2 {
      risk := ModerateHighSurgicalRisk;
    }
    var complications, priorities := SurgeryComplications(r);
    a := SurgeryAnalysis(risk, outlook, complications, priorities);
  }

  /** The complication half of post-surgery `analyze_health_metrics`. */
  method SurgeryComplications(r: SurgeryReadings) returns (complications: seq<Complication>, priorities: seq<Priority>)
    ensures complications == ComplicationFactors(r) && priorities == MonitoringPriorities(r)
  {
    complications, priorities := [], [];
    if r.diabetes == 1.0 {
      complications := complications + [DiabetesHealing];
      priorities := priorities + [GlucoseControl];
    }
    if r.smokingStatus >= 1.0 {
      complications := complications + [SmokingHealing];
    }
    if r.albumin < 3.5 {
      complications := complications + [PoorNutrition];
      priorities := priorities + [NutritionalSupport];
    }
    if r.heartDisease == 1.0 {
      priorities := priorities + [CardiacMonitoring];
    }
    if r.kidneyDisease == 1.0 {
      priorities := priorities + [RenalFunction];
    }
  }

  /** Post-surgery `assess_lifestyle_impact`: mobility, pain management,
    * follow-up and infection prevention always; smoking cessation for any
    * smoking history; nutrition for low albumin or obesity; diabetes care for
    * diabetics. */
  method SurgeryLifestyle(data: Record) returns (keys: set<CareKey>)
    ensures {Mobility, PainManagement, FollowUp, InfectionPrevention} <= keys
    ensures SmokingCessation in keys <==> SurgeryReadingsOf(data).smokingStatus >= 1.0
    ensures Nutrition in keys <==> SurgeryReadingsOf(data).albumin < 3.5 || SurgeryReadingsOf(data).bmi > 30.0
    ensures DiabetesCare in keys <==> SurgeryReadingsOf(data).diabetes == 1.0
    ensures keys <= {Mobility, PainManagement, FollowUp, InfectionPrevention, SmokingCessation, Nutrition, DiabetesCare}
  {
    var r := SurgeryReadingsOf(data);
    keys := {};
    if r.smokingStatus >= 1.0 {
      keys := keys + {SmokingCessation};
    }
    if r.albumin < 3.5 || r.bmi > 30.0 {
      keys := keys + {Nutrition};
    }
    keys := keys + {Mobility};
    if r.diabetes == 1.0 {
      keys := keys + {DiabetesCare};
    }
    keys := keys + {PainManagement};
    keys := keys + {FollowUp};
    keys := keys + {InfectionPrevention};
  }

  // ---------------------------------------------------------------------
  // Pregnancy complications
  // ---------------------------------------------------------------------

  const PregnancySchema: BasePredictor.Schema :=
    [("maternal_age", BasePredictor.IntField), ("gestational_age", BasePredictor.IntField),
     ("pre_pregnancy_bmi", BasePredictor.FloatField), ("weight_gain", BasePredictor.FloatField),
     ("systolic_bp", BasePredictor.FloatField), ("diastolic_bp", BasePredictor.FloatField),
     ("proteinuria", BasePredictor.IntField), ("glucose_tolerance_test", BasePredictor.FloatField),
     ("hemoglobin", BasePredictor.FloatField), ("platelet_count", BasePredictor.FloatField),
     ("creatinine", BasePredictor.FloatField), ("uric_acid", BasePredictor.FloatField),
     ("previous_pregnancies", BasePredictor.IntField), ("previous_complications", BasePredictor.IntField),
     ("family_history_diabetes", BasePredictor.IntField), ("family_history_hypertension", BasePredictor.IntField),
     ("smoking", BasePredictor.IntField), ("alcohol_use", BasePredictor.IntField),
     ("multiple_pregnancy", BasePredictor.IntField), ("assisted_reproduction", BasePredictor.IntField),
     ("chronic_hypertension", BasePredictor.IntField), ("diabetes_pre_pregnancy", BasePredictor.IntField),
     ("kidney_disease", BasePredictor.IntField), ("autoimmune_disease", BasePredictor.IntField),
     ("fetal_growth_restriction", BasePredictor.IntField)]

  const PregnancyFeatures: Features.FeatureTable :=
    [("maternal_age", 50.0), ("gestational_age", 42.0), ("pre_pregnancy_bmi", 50.0), ("weight_gain", 30.0),
     ("systolic_bp", 200.0), ("diastolic_bp", 120.0), ("proteinuria", 4.0), ("glucose_tolerance_test", 300.0),
     ("hemoglobin", 20.0), ("platelet_count", 1000.0), ("creatinine", 5.0), ("uric_acid", 15.0),
     ("previous_pregnancies", 10.0), ("previous_complications", 1.0), ("family_history_diabetes", 1.0), ("family_history_hypertension", 1.0),
     ("smoking", 1.0), ("alcohol_use", 1.0), ("multiple_pregnancy", 1.0), ("assisted_reproduction", 1.0),
     ("chronic_hypertension", 1.0), ("diabetes_pre_pregnancy", 1.0), ("kidney_disease", 1.0), ("autoimmune_disease", 1.0),
     ("fetal_growth_restriction", 1.0)]

  /** Pregnancy-complication `preprocess_data` reads the 25 required fields in
    * declaration order, one feature each, with no zero scale. */
  lemma PregnancyFeaturesAligned()
    ensures Features.ScalesNonZero(PregnancyFeatures) && Features.Names(PregnancyFeatures) == Features.Names(PregnancySchema)
    ensures |PregnancyFeatures| == 25
  {
  }
}
