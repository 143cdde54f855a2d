/** The shared prediction pipeline of every predictor: input validation and
  * coercion, the clamp of the model score, the four risk levels, the ranking
  * of risk factors, the composition of recommendations, the confidence value
  * and the chart payload.
  *
  * The learned model, the per-predictor preprocessing, the per-predictor
  * contribution rule and the per-predictor factor advice are parameters of
  * `Predict`. */
module BasePredictor {
  import opened Wrappers
  import opened Records

  // ---------------------------------------------------------------------
  // Schema and input validation
  // ---------------------------------------------------------------------

  /** The declared type of a required field. */
  datatype FieldType = FloatField | IntField | StrField | OtherField(name: string)

  /** The required fields of a predictor, in declaration order. */
  type Schema = seq<(string, FieldType)>

  /** A dict cannot hold the same key twice. */
  predicate DistinctNames(schema: Schema)
  {
    forall j, k :: 0 <= j < k < |schema| ==> schema[j].0 != schema[k].0
  }

  /** The conversions that `validate_input` borrows from Python: `float(s)` and
    * `int(s)` of a string (None when Python raises ValueError) and `str(v)`. */
  datatype Conversions = Conversions(
    parseFloat: string -> Option<real>,
    parseInt: string -> Option<int>,
    show: Value -> string)

  /** The exceptions `validate_input` lets escape. `TypeErrorOn` is the
    * TypeError of `float(None)` / `int(None)`, which `except ValueError`
    * does not catch. */
  datatype ValidationError =
    | MissingField(field: string)
    | NotANumber(field: string)
    | NotAnInteger(field: string)
    | TypeErrorOn(field: string)

  /** `int(x)` of a float truncates toward zero. */
  function Truncate(x: real): (n: int)
    ensures n as real <= x < n as real + 1.0 || n as real - 1.0 < x <= n as real
    ensures 0.0 <= x ==> n >= 0
    ensures x <= 0.0 ==> n <= 0
  {
    if x >= 0.0 then x.Floor else -((-x).Floor)
  }

  /** A value that satisfies its declared type once validation is done. */
  predicate Conforms(t: FieldType, v: Value)
  {
    match t
    case FloatField => IsNumber(v)
    case IntField => v.Int? || v.Bool?
    case StrField => v.Str?
    case OtherField(_) => true
  }

  /** The check and coercion of one present field. */
  function CoerceField(name: string, t: FieldType, v: Value, conv: Conversions): (r: Result<Value, ValidationError>)
    ensures r.Ok? ==> Conforms(t, r.value)
    ensures Conforms(t, v) ==> r == Ok(v)
    ensures r.Err? ==> r.error.field == name && !r.error.MissingField?
  {
    match t
    case FloatField =>
      if IsNumber(v) then Ok(v)
      else if v.Str? then
        (match conv.parseFloat(v.s)
         case Some(x) => Ok(Float(x))
         case None => Err(NotANumber(name)))
      else Err(TypeErrorOn(name))
    case IntField =>
      if v.Int? || v.Bool? then Ok(v)
      else if v.Float? then Ok(Int(Truncate(v.f)))
      else if v.Str? then
        (match conv.parseInt(v.s)
         case Some(n) => Ok(Int(n))
         case None => Err(NotAnInteger(name)))
      else Err(TypeErrorOn(name))
    case StrField =>
      if v.Str? then Ok(v) else Ok(Str(conv.show(v)))
    case OtherField(_) => Ok(v)
  }

  /** What validation does with one schema entry, read against the caller's dict. */
  function FieldCheck(entry: (string, FieldType), data: map<string, Value>, conv: Conversions): Result<Value, ValidationError>
  {
    if entry.0 !in data then Err(MissingField(entry.0))
    else CoerceField(entry.0, entry.1, data[entry.0], conv)
  }

  /** The reference meaning of `validate_input`: the outcome (success, or the
    * exception raised) and the dict as it is left, entries coerced so far
    * included. */
  function Validated(schema: Schema, data: map<string, Value>, conv: Conversions): (Result<(), ValidationError>, map<string, Value>)
    decreases |schema|
  {
    if schema == [] then (Ok(()), data)
    else
      match FieldCheck(schema[0], data, conv)
      case Err(e) => (Err(e), data)
      case Ok(v) => Validated(schema[1..], data[schema[0].0 := v], conv)
  }

  /** `validate_input`: check every required field in order, coercing in place. */
  method ValidateInput(schema: Schema, data: map<string, Value>, conv: Conversions)
    returns (outcome: Result<(), ValidationError>, updated: map<string, Value>)
    requires DistinctNames(schema)
    ensures (outcome, updated) == Validated(schema, data, conv)
    ensures updated.Keys == data.Keys
    ensures outcome.Ok? <==> forall j :: 0 <= j < |schema| ==> FieldCheck(schema[j], data, conv).Ok?
    ensures outcome.Ok? ==> forall j :: 0 <= j < |schema| ==>
              schema[j].0 in updated && updated[schema[j].0] == FieldCheck(schema[j], data, conv).value &&
              Conforms(schema[j].1, updated[schema[j].0])
    ensures outcome.Err? ==>
              (exists j :: 0 <= j < |schema| && FieldCheck(schema[j], data, conv) == Err(outcome.error) &&
                 forall k :: 0 <= k < j ==> FieldCheck(schema[k], data, conv).Ok?)
    ensures forall key :: key in data && (forall j :: 0 <= j < |schema| ==> schema[j].0 != key) ==> updated[key] == data[key]
  {
    var current := data;
    var i := 0;
    outcome := Ok(());
    while i < |schema|
      invariant 0 <= i <= |schema|
      invariant Validated(schema[i..], current, conv) == Validated(schema, data, conv)
    {
      var name := schema[i].0;
      if name !in current {
        outcome := Err(MissingField(name));
        break;
      }
      var checked := CoerceField(name, schema[i].1, current[name], conv);
      if checked.Err? {
        outcome := Err(checked.error);
        break;
      }
      assert schema[i..][1..] == schema[i + 1..];
      current := current[name := checked.value];
      i := i + 1;
    }
    updated := current;
    if i == |schema| {
      assert schema[i..] == [];
    } else {
      assert schema[i..][0] == schema[i];
    }
    ValidatedFacts(schema, data, conv);
  }

  /** The reference meaning of validation, stated field by field. */
  lemma {:induction false} ValidatedFacts(schema: Schema, data: map<string, Value>, conv: Conversions)
    requires DistinctNames(schema)
    ensures Validated(schema, data, conv).1.Keys == data.Keys
    ensures Validated(schema, data, conv).0.Ok? <==> forall j :: 0 <= j < |schema| ==> FieldCheck(schema[j], data, conv).Ok?
    ensures Validated(schema, data, conv).0.Ok? ==> forall j :: 0 <= j < |schema| ==>
              schema[j].0 in Validated(schema, data, conv).1 &&
              Validated(schema, data, conv).1[schema[j].0] == FieldCheck(schema[j], data, conv).value &&
              Conforms(schema[j].1, Validated(schema, data, conv).1[schema[j].0])
    ensures Validated(schema, data, conv).0.Err? ==>
              (exists j :: 0 <= j < |schema| &&
                 FieldCheck(schema[j], data, conv) == Err(Validated(schema, data, conv).0.error) &&
                 forall k :: 0 <= k < j ==> FieldCheck(schema[k], data, conv).Ok?)
    ensures forall key :: key in data && (forall j :: 0 <= j < |schema| ==> schema[j].0 != key) ==>
              Validated(schema, data, conv).1[key] == data[key]
    decreases |schema|
  {
    if schema != [] {
      var name := schema[0].0;
      var rest := schema[1..];
      match FieldCheck(schema[0], data, conv)
      case Err(e) =>
      case Ok(v) =>
        var data' := data[name := v];
        ValidatedFacts(rest, data', conv);
        // the later fields read the same values, because their names differ from `name`
        forall j | 0 <= j < |rest|
          ensures FieldCheck(rest[j], data', conv) == FieldCheck(schema[j + 1], data, conv)
        {
          assert rest[j] == schema[j + 1];
        }
        var out := Validated(schema, data, conv);
        assert out == Validated(rest, data', conv);
        if out.0.Ok? {
          forall j | 0 <= j < |schema|
            ensures schema[j].0 in out.1 && out.1[schema[j].0] == FieldCheck(schema[j], data, conv).value
          {
            if j > 0 {
              assert rest[j - 1] == schema[j];
            }
          }
        } else {
          var j :| 0 <= j < |rest| && FieldCheck(rest[j], data', conv) == Err(out.0.error) &&
                   forall k :: 0 <= k < j ==> FieldCheck(rest[k], data', conv).Ok?;
          assert FieldCheck(schema[j + 1], data, conv) == Err(out.0.error);
          forall k | 0 <= k < j + 1
            ensures FieldCheck(schema[k], data, conv).Ok?
          {
            if k > 0 {
              assert rest[k - 1] == schema[k];
            }
          }
        }
        forall j | 0 <= j < |schema| && FieldCheck(schema[j], data, conv).Err?
          ensures !out.0.Ok?
        {
          assert j > 0;
          assert rest[j - 1] == schema[j];
        }
    }
  }

  // ---------------------------------------------------------------------
  // Risk levels and bands
  // ---------------------------------------------------------------------

  /** The four risk levels; `Label` is the text the source returns. */
  datatype RiskLevel = Low | Moderate | High | VeryHigh
  {
    function Label(): string
    {
      match this
      case Low => "Low"
      case Moderate => "Moderate"
      case High => "High"
      case VeryHigh => "Very High"
    }

    function Rank(): nat
    {
      match this
      case Low => 0
      case Moderate => 1
      case High => 2
      case VeryHigh => 3
    }
  }

  /** The score after `max(0.0, min(1.0, score))`. */
  function Clamp01(score: real): (r: real)
    ensures 0.0 <= r <= 1.0
    ensures 0.0 <= score <= 1.0 ==> r == score
    ensures score < 0.0 ==> r == 0.0
    ensures score > 1.0 ==> r == 1.0
  {
    Max(0.0, Min(1.0, score))
  }

  /** `calculate_risk_level`: Low below 0.3, Moderate below 0.6, High below 0.8. */
  function CalculateRiskLevel(score: real): (level: RiskLevel)
    ensures level == Low <==> score < 0.3
    ensures level == Moderate <==> 0.3 <= score < 0.6
    ensures level == High <==> 0.6 <= score < 0.8
    ensures level == VeryHigh <==> 0.8 <= score
  {
    if score < 0.3 then Low
    else if score < 0.6 then Moderate
    else if score < 0.8 then High
    else VeryHigh
  }

  /** A higher score never gets a lower risk level. */
  lemma RiskLevelMonotone(a: real, b: real)
    requires a <= b
    ensures CalculateRiskLevel(a).Rank() <= CalculateRiskLevel(b).Rank()
  {
  }

  /** `categorize_field_risk`: the same four labels, cut at 0.2, 0.5 and 0.8. */
  function CategorizeFieldRisk(contribution: real): (level: RiskLevel)
    ensures level == Low <==> contribution < 0.2
    ensures level == Moderate <==> 0.2 <= contribution < 0.5
    ensures level == High <==> 0.5 <= contribution < 0.8
    ensures level == VeryHigh <==> 0.8 <= contribution
  {
    if contribution < 0.2 then Low
    else if contribution < 0.5 then Moderate
    else if contribution < 0.8 then High
    else VeryHigh
  }

  const Green := "#22c55e"
  const LimeGreen := "#84cc16"
  const Yellow := "#eab308"
  const Orange := "#f97316"
  const Red := "#ef4444"

  /** The chart colour that belongs to each factor risk label. */
  function ColorOfLevel(level: RiskLevel): string
  {
    match level
    case Low => Green
    case Moderate => Yellow
    case High => Orange
    case VeryHigh => Red
  }

  /** `get_risk_color`: green, yellow, orange and red cut at 0.2, 0.5 and 0.8. */
  function RiskColor(contribution: real): (color: string)
    ensures color == Green <==> contribution < 0.2
    ensures color == Yellow <==> 0.2 <= contribution < 0.5
    ensures color == Orange <==> 0.5 <= contribution < 0.8
    ensures color == Red <==> 0.8 <= contribution
  {
    if contribution < 0.2 then Green
    else if contribution < 0.5 then Yellow
    else if contribution < 0.8 then Orange
    else Red
  }

  /** A factor's label and its colour always agree, and distinct labels get
    * distinct colours. */
  lemma ColorMatchesCategory(contribution: real)
    ensures RiskColor(contribution) == ColorOfLevel(CategorizeFieldRisk(contribution))
    ensures forall l1: RiskLevel, l2: RiskLevel :: ColorOfLevel(l1) == ColorOfLevel(l2) ==> l1 == l2
  {
  }

  lemma ColorsMatchCategories()
    ensures forall c :: RiskColor(c) == ColorOfLevel(CategorizeFieldRisk(c))
  {
    forall c ensures RiskColor(c) == ColorOfLevel(CategorizeFieldRisk(c)) {
      ColorMatchesCategory(c);
    }
  }

  /** `assess_severity`: five bands cut at 0.2, 0.4, 0.6 and 0.8. */
  function AssessSeverity(score: real): (text: string)
    ensures score < 0.2 ==> text == "Minimal - Very low likelihood of developing the condition"
    ensures 0.2 <= score < 0.4 ==> text == "Mild - Low to moderate risk with good prognosis if managed"
    ensures 0.4 <= score < 0.6 ==> text == "Moderate - Significant risk requiring active management"
    ensures 0.6 <= score < 0.8 ==> text == "High - Elevated risk requiring immediate intervention"
    ensures 0.8 <= score ==> text == "Critical - Very high risk requiring urgent medical attention"
  {
    if score < 0.2 then "Minimal - Very low likelihood of developing the condition"
    else if score < 0.4 then "Mild - Low to moderate risk with good prognosis if managed"
    else if score < 0.6 then "Moderate - Significant risk requiring active management"
    else if score < 0.8 then "High - Elevated risk requiring immediate intervention"
    else "Critical - Very high risk requiring urgent medical attention"
  }

  /** The severity band index, 0 (Minimal) to 4 (Critical). */
  function SeverityBand(score: real): nat
  {
    if score < 0.2 then 0 else if score < 0.4 then 1 else if score < 0.6 then 2 else if score < 0.8 then 3 else 4
  }

  /** Severity is banded like the risk level but with a finer cut: Minimal and
    * Mild split Low at 0.2, and the Moderate/High boundaries coincide. */
  lemma SeverityRefinesRiskLevel(score: real)
    ensures SeverityBand(score) <= 1 <==> CalculateRiskLevel(score) == Low || (0.3 <= score < 0.4)
    ensures SeverityBand(score) == 3 <==> CalculateRiskLevel(score) == High
    ensures SeverityBand(score) == 4 <==> CalculateRiskLevel(score) == VeryHigh
  {
  }

  /** The default `calculate_field_risk_contribution`: distance of the
    * normalised feature from 0.5, doubled. */
  function DefaultContribution(normalized: real): (c: real)
    ensures c >= 0.0
    ensures 0.0 <= normalized <= 1.0 ==> c <= 1.0
    ensures c == 0.0 <==> normalized == 0.5
    ensures (normalized - 0.5) * (normalized - 0.5) * 4.0 == c * c
  {
    Abs(normalized - 0.5) * 2.0
  }

  // ---------------------------------------------------------------------
  // Recommendations
  // ---------------------------------------------------------------------

  const LowBank := ["Maintain your current healthy lifestyle",
                    "Continue regular check-ups with your healthcare provider",
                    "Stay physically active and eat a balanced diet"]

  const ModerateBank := ["Consider lifestyle modifications to reduce risk",
                         "Schedule more frequent health screenings",
                         "Consult with your healthcare provider about prevention strategies",
                         "Monitor relevant health metrics regularly"]

  const HighBank := ["Seek immediate consultation with a healthcare professional",
                     "Consider comprehensive health screening",
                     "Implement significant lifestyle changes",
                     "Follow up with specialist if recommended"]

  const VeryHighBank := ["Urgent medical consultation recommended",
                         "Comprehensive diagnostic testing may be needed",
                         "Consider immediate lifestyle interventions",
                         "Follow all medical advice strictly"]

  /** `get_recommendations`: the fixed advice bank of a risk level. */
  function Recommendations(level: RiskLevel): (recs: seq<string>)
    ensures |recs| == if level == Low then 3 else 4
  {
    match level
    case Low => LowBank
    case Moderate => ModerateBank
    case High => HighBank
    case VeryHigh => VeryHighBank
  }

  /** Each level's bank lists distinct items. */
  lemma RecommendationsDistinct(level: RiskLevel)
    ensures NoDuplicates(Recommendations(level))
  {
    var r := Recommendations(level);
    if level == High {
      assert r[1][0] != r[2][0];
    }
  }

  predicate NoDuplicates<T(==)>(s: seq<T>)
  {
    forall j, k :: 0 <= j < k < |s| ==> s[j] != s[k]
  }

  const LifestyleBank := ["Implement a heart-healthy diet rich in fruits and vegetables",
                          "Establish a regular exercise routine (150 minutes/week moderate activity)",
                          "Practice stress management techniques like meditation or yoga"]

  const MonitoringBank := ["Schedule regular follow-up appointments with your healthcare provider",
                           "Monitor key health metrics daily or weekly as advised",
                           "Keep a health diary to track symptoms and improvements"]

  /** `get_lifestyle_recommendations`: three lifestyle items above a score of 0.5. */
  function LifestyleRecommendations(score: real): (recs: seq<string>)
    ensures score > 0.5 ==> recs == LifestyleBank
    ensures score <= 0.5 ==> recs == []
  {
    if score > 0.5 then LifestyleBank else []
  }

  /** `get_monitoring_recommendations`: three monitoring items for High and Very High. */
  function MonitoringRecommendations(level: RiskLevel): (recs: seq<string>)
    ensures level in {High, VeryHigh} ==> recs == MonitoringBank
    ensures level !in {High, VeryHigh} ==> recs == []
  {
    if level == High || level == VeryHigh then MonitoringBank else []
  }

  // ---------------------------------------------------------------------
  // Risk factor ranking
  // ---------------------------------------------------------------------

  /** One entry of the returned risk-factor list (the explanation text is not modelled). */
  datatype RiskFactor = RiskFactor(factor: string, value: Value, riskLevel: RiskLevel, contribution: real)

  /** A predictor's `calculate_field_risk_contribution(field, value, normalised)`. */
  type ContributionRule = (string, Value, real) -> real

  /** The factor built from schema field `i` and feature `i`. */
  function FactorAt(schema: Schema, i: nat, data: map<string, Value>, processed: seq<real>,
                    descriptions: map<string, string>, rule: ContributionRule): RiskFactor
    requires i < |schema| && i < |processed|
  {
    var name := schema[i].0;
    var value := GetValue(data, name, Int(0));
    var c := rule(name, value, processed[i]);
    RiskFactor(if name in descriptions then descriptions[name] else name, value, CategorizeFieldRisk(c), c)
  }

  /** What the loop appends for field `i`: the factor, when there is a feature
    * for it and its contribution exceeds 0.1. */
  function EntryAt(schema: Schema, i: nat, data: map<string, Value>, processed: seq<real>,
                   descriptions: map<string, string>, rule: ContributionRule): seq<RiskFactor>
    requires i < |schema|
  {
    if i < |processed| && FactorAt(schema, i, data, processed, descriptions, rule).contribution > 0.1
    then [FactorAt(schema, i, data, processed, descriptions, rule)]
    else []
  }

  /** The unsorted list the loop has built after the first `n` fields. */
  function Candidates(schema: Schema, n: nat, data: map<string, Value>, processed: seq<real>,
                      descriptions: map<string, string>, rule: ContributionRule): seq<RiskFactor>
    requires n <= |schema|
  {
    if n == 0 then []
    else Candidates(schema, n - 1, data, processed, descriptions, rule) + EntryAt(schema, n - 1, data, processed, descriptions, rule)
  }

  /** The candidate list holds exactly the fields that have a feature and a
    * contribution above 0.1, each paired with its own feature, in schema order. */
  lemma {:induction false} CandidatesExactly(schema: Schema, n: nat, data: map<string, Value>, processed: seq<real>,
                                             descriptions: map<string, string>, rule: ContributionRule)
    requires n <= |schema|
    ensures |Candidates(schema, n, data, processed, descriptions, rule)| <= n
    ensures n <= |processed| || |Candidates(schema, n, data, processed, descriptions, rule)| <= |processed|
    ensures forall f :: f in Candidates(schema, n, data, processed, descriptions, rule) ==>
              exists i :: 0 <= i < n && i < |processed| && f == FactorAt(schema, i, data, processed, descriptions, rule) && f.contribution > 0.1
    ensures forall i :: 0 <= i < n && i < |processed| && FactorAt(schema, i, data, processed, descriptions, rule).contribution > 0.1 ==>
              FactorAt(schema, i, data, processed, descriptions, rule) in Candidates(schema, n, data, processed, descriptions, rule)
  {
    if n > 0 {
      CandidatesExactly(schema, n - 1, data, processed, descriptions, rule);
      var prev := Candidates(schema, n - 1, data, processed, descriptions, rule);
      var entry := EntryAt(schema, n - 1, data, processed, descriptions, rule);
      var all := Candidates(schema, n, data, processed, descriptions, rule);
      assert all == prev + entry;
      if n - 1 >= |processed| {
        assert entry == [];
      }
      forall f | f in all
        ensures exists i :: 0 <= i < n && i < |processed| && f == FactorAt(schema, i, data, processed, descriptions, rule) && f.contribution > 0.1
      {
        if f !in prev {
          assert f in entry;
          assert f == FactorAt(schema, n - 1, data, processed, descriptions, rule);
        }
      }
      forall i | 0 <= i < n && i < |processed| && FactorAt(schema, i, data, processed, descriptions, rule).contribution > 0.1
        ensures FactorAt(schema, i, data, processed, descriptions, rule) in all
      {
        if i == n - 1 {
          assert FactorAt(schema, i, data, processed, descriptions, rule) in entry;
        } else {
          assert FactorAt(schema, i, data, processed, descriptions, rule) in prev;
        }
      }
    }
  }

  predicate SortedDesc(s: seq<RiskFactor>)
  {
    forall j, k :: 0 <= j < k < |s| ==> s[j].contribution >= s[k].contribution
  }

  /** Insert `x` before the first element whose contribution is not larger:
    * an element inserted this way stays ahead of the equal ones. */
  function InsertDesc(x: RiskFactor, s: seq<RiskFactor>): seq<RiskFactor>
  {
    if s == [] || s[0].contribution <= x.contribution then [x] + s
    else [s[0]] + InsertDesc(x, s[1..])
  }

  /** `list.sort(key=contribution, reverse=True)`: a stable sort, largest first. */
  function StableSortDesc(s: seq<RiskFactor>): seq<RiskFactor>
  {
    if s == [] then [] else InsertDesc(s[0], StableSortDesc(s[1..]))
  }

  /** The elements whose contribution is exactly `c`, in order. */
  function WithContribution(s: seq<RiskFactor>, c: real): seq<RiskFactor>
  {
    if s == [] then []
    else (if s[0].contribution == c then [s[0]] else []) + WithContribution(s[1..], c)
  }

  lemma WithContributionCons(y: RiskFactor, t: seq<RiskFactor>, c: real)
    ensures WithContribution([y] + t, c) == (if y.contribution == c then [y] else []) + WithContribution(t, c)
  {
    assert ([y] + t)[1..] == t;
  }

  /** Inserting adds `x` and keeps every element of `s`. */
  lemma {:induction false} InsertDescMembers(x: RiskFactor, s: seq<RiskFactor>)
    ensures forall y :: y in InsertDesc(x, s) <==> y == x || y in s
  {
    if s != [] && s[0].contribution > x.contribution {
      InsertDescMembers(x, s[1..]);
      assert s == [s[0]] + s[1..];
    }
  }

  /** Prepending an element at least as large as every other keeps the order. */
  lemma SortedCons(y: RiskFactor, t: seq<RiskFactor>)
    requires SortedDesc(t) && forall z :: z in t ==> y.contribution >= z.contribution
    ensures SortedDesc([y] + t)
  {
    forall j, k | 0 <= j < k < |[y] + t|
      ensures ([y] + t)[j].contribution >= ([y] + t)[k].contribution
    {
      if j == 0 {
        assert ([y] + t)[k] == t[k - 1];
      } else {
        assert ([y] + t)[j] == t[j - 1] && ([y] + t)[k] == t[k - 1];
      }
    }
  }

  lemma {:induction false} InsertDescSorted(x: RiskFactor, s: seq<RiskFactor>)
    requires SortedDesc(s)
    ensures SortedDesc(InsertDesc(x, s))
    ensures multiset(InsertDesc(x, s)) == multiset([x] + s)
  {
    if s == [] || s[0].contribution <= x.contribution {
      SortedCons(x, s);
    } else {
      InsertDescSorted(x, s[1..]);
      InsertDescMembers(x, s[1..]);
      var t := InsertDesc(x, s[1..]);
      assert InsertDesc(x, s) == [s[0]] + t;
      assert s == [s[0]] + s[1..];
      forall y | y in t
        ensures s[0].contribution >= y.contribution
      {
        if y != x {
          var k :| 0 <= k < |s[1..]| && s[1..][k] == y;
          assert s[k + 1] == y;
        }
      }
      SortedCons(s[0], t);
    }
  }

  lemma {:induction false} InsertDescStable(x: RiskFactor, s: seq<RiskFactor>, c: real)
    requires SortedDesc(s)
    ensures WithContribution(InsertDesc(x, s), c) == WithContribution([x] + s, c)
  {
    if s != [] && s[0].contribution > x.contribution {
      InsertDescStable(x, s[1..], c);
      var t := InsertDesc(x, s[1..]);
      assert InsertDesc(x, s) == [s[0]] + t;
      assert s == [s[0]] + s[1..];
      WithContributionCons(s[0], t, c);
      WithContributionCons(x, s[1..], c);
      WithContributionCons(x, s, c);
      WithContributionCons(s[0], s[1..], c);
    }
  }

  /** The sort returns its input rearranged, largest contribution first. */
  lemma {:induction false} StableSortDescSorted(s: seq<RiskFactor>)
    ensures SortedDesc(StableSortDesc(s))
    ensures multiset(StableSortDesc(s)) == multiset(s)
    ensures |StableSortDesc(s)| == |s|
  {
    if s != [] {
      StableSortDescSorted(s[1..]);
      InsertDescSorted(s[0], StableSortDesc(s[1..]));
      assert s == [s[0]] + s[1..];
    }
    assert |StableSortDesc(s)| == |multiset(StableSortDesc(s))|;
  }

  /** Factors with the same contribution keep their schema order. */
  lemma {:induction false} StableSortDescStable(s: seq<RiskFactor>, c: real)
    ensures WithContribution(StableSortDesc(s), c) == WithContribution(s, c)
  {
    if s != [] {
      StableSortDescSorted(s[1..]);
      StableSortDescStable(s[1..], c);
      InsertDescStable(s[0], StableSortDesc(s[1..]), c);
      assert s == [s[0]] + s[1..];
      WithContributionCons(s[0], StableSortDesc(s[1..]), c);
      WithContributionCons(s[0], s[1..], c);
    }
  }

  /** `risk_factors[:n]`. */
  function Take<T>(s: seq<T>, n: nat): (r: seq<T>)
    ensures |r| == if |s| < n then |s| else n
    ensures r == s[..|r|]
  {
    if |s| <= n then s else s[..n]
  }

  /** The reference meaning of `analyze_risk_factors`. */
  function RankedFactors(schema: Schema, data: map<string, Value>, processed: seq<real>,
                         descriptions: map<string, string>, rule: ContributionRule): seq<RiskFactor>
  {
    Take(StableSortDesc(Candidates(schema, |schema|, data, processed, descriptions, rule)), 10)
  }

  /** `analyze_risk_factors`: collect the significant factors, sort them
    * largest first and keep ten. */
  method AnalyzeRiskFactors(schema: Schema, data: map<string, Value>, processed: seq<real>,
                            descriptions: map<string, string>, rule: ContributionRule)
    returns (factors: seq<RiskFactor>)
    ensures factors == RankedFactors(schema, data, processed, descriptions, rule)
    ensures |factors| <= 10
    ensures SortedDesc(factors)
    ensures forall k :: 0 <= k < |factors| ==> factors[k].contribution > 0.1
    ensures forall k :: 0 <= k < |factors| ==> factors[k].riskLevel == CategorizeFieldRisk(factors[k].contribution)
    ensures forall f :: f in factors ==>
              exists i :: 0 <= i < |schema| && i < |processed| && f == FactorAt(schema, i, data, processed, descriptions, rule)
  {
    var candidates: seq<RiskFactor> := [];
    var i := 0;
    while i < |schema|
      invariant 0 <= i <= |schema|
      invariant candidates == Candidates(schema, i, data, processed, descriptions, rule)
    {
      if i < |processed| {
        var name := schema[i].0;
        var value := GetValue(data, name, Int(0));
        var c := rule(name, value, processed[i]);
        if c > 0.1 {
          var shown := if name in descriptions then descriptions[name] else name;
          candidates := candidates + [RiskFactor(shown, value, CategorizeFieldRisk(c), c)];
        }
      }
      i := i + 1;
    }
    factors := Take(StableSortDesc(candidates), 10);
    RankedFactorsFacts(schema, data, processed, descriptions, rule);
  }

  /** Cutting the sorted list keeps it sorted and keeps only input elements. */
  lemma TopOfSorted(s: seq<RiskFactor>, n: nat)
    ensures |Take(StableSortDesc(s), n)| <= n
    ensures SortedDesc(Take(StableSortDesc(s), n))
    ensures forall f :: f in Take(StableSortDesc(s), n) ==> f in s
  {
    var sorted := StableSortDesc(s);
    StableSortDescSorted(s);
    forall f | f in Take(sorted, n)
      ensures f in s
    {
      assert f in sorted;
      assert f in multiset(sorted);
    }
  }

  /** The ranked list: at most ten factors, largest contribution first, each
    * above 0.1, labelled by its own contribution, and each built from a
    * field and the feature at the same position. */
  lemma RankedFactorsFacts(schema: Schema, data: map<string, Value>, processed: seq<real>,
                           descriptions: map<string, string>, rule: ContributionRule)
    ensures |RankedFactors(schema, data, processed, descriptions, rule)| <= 10
    ensures SortedDesc(RankedFactors(schema, data, processed, descriptions, rule))
    ensures forall f :: f in RankedFactors(schema, data, processed, descriptions, rule) ==>
              exists i :: 0 <= i < |schema| && i < |processed| && f == FactorAt(schema, i, data, processed, descriptions, rule)
    ensures forall k :: 0 <= k < |RankedFactors(schema, data, processed, descriptions, rule)| ==>
              var f := RankedFactors(schema, data, processed, descriptions, rule)[k];
              f.contribution > 0.1 && f.riskLevel == CategorizeFieldRisk(f.contribution)
  {
    var candidates := Candidates(schema, |schema|, data, processed, descriptions, rule);
    TopOfSorted(candidates, 10);
    CandidatesExactly(schema, |schema|, data, processed, descriptions, rule);
    var r := RankedFactors(schema, data, processed, descriptions, rule);
    forall k | 0 <= k < |r|
      ensures r[k].contribution > 0.1 && r[k].riskLevel == CategorizeFieldRisk(r[k].contribution)
    {
      assert r[k] in r;
    }
  }

  /** Everything dropped by the top-ten cut ranks no higher than anything kept. */
  lemma TopTenDominates(schema: Schema, data: map<string, Value>, processed: seq<real>,
                        descriptions: map<string, string>, rule: ContributionRule)
    ensures var all := Candidates(schema, |schema|, data, processed, descriptions, rule);
            var kept := RankedFactors(schema, data, processed, descriptions, rule);
            multiset(kept) <= multiset(all) &&
            (|all| <= 10 ==> multiset(kept) == multiset(all)) &&
            forall f, g :: f in kept && g in multiset(all) - multiset(kept) ==> f.contribution >= g.contribution
  {
    var all := Candidates(schema, |schema|, data, processed, descriptions, rule);
    var sorted := StableSortDesc(all);
    StableSortDescSorted(all);
    var kept := Take(sorted, 10);
    assert sorted == kept + sorted[|kept|..];
    assert multiset(sorted) == multiset(kept) + multiset(sorted[|kept|..]);
    forall f, g | f in kept && g in multiset(all) - multiset(kept)
      ensures f.contribution >= g.contribution
    {
      assert g in multiset(sorted[|kept|..]);
      assert g in sorted[|kept|..];
      var a :| 0 <= a < |kept| && kept[a] == f;
      var b :| 0 <= b < |sorted[|kept|..]| && sorted[|kept|..][b] == g;
      assert sorted[a] == f && sorted[|kept| + b] == g;
    }
  }

  // ---------------------------------------------------------------------
  // Enhanced recommendations
  // ---------------------------------------------------------------------

  /** The base class's `get_factor_specific_recommendation`, which every
    * predictor without an override of its own uses. */
  function FactorAdvice(f: RiskFactor): (advice: string)
    ensures |advice| > 0 && advice[0] == 'A'
  {
    "Address the " + f.factor + " to reduce risk."
  }

  /** A predictor's `get_factor_specific_recommendation`: the base class's
    * `FactorAdvice` or a subclass override, which may map several factors to
    * the same text or to the empty string. */
  type AdviceRule = RiskFactor -> string

  /** The advice list after the deduplicating pass over `factors`. */
  function AddAdvice(recs: seq<string>, factors: seq<RiskFactor>, advice: AdviceRule): seq<string>
    decreases |factors|
  {
    if factors == [] then recs
    else
      var a := advice(factors[0]);
      AddAdvice(if a != "" && a !in recs then recs + [a] else recs, factors[1..], advice)
  }

  /** The deduplicating pass only appends, appends at most one item per
    * factor, never repeats an item, leaves every factor's non-empty advice
    * present and adds nothing else. */
  lemma {:induction false} AddAdviceFacts(recs: seq<string>, factors: seq<RiskFactor>, advice: AdviceRule)
    ensures |recs| <= |AddAdvice(recs, factors, advice)| <= |recs| + |factors|
    ensures AddAdvice(recs, factors, advice)[..|recs|] == recs
    ensures NoDuplicates(recs) ==> NoDuplicates(AddAdvice(recs, factors, advice))
    ensures forall f :: f in factors && advice(f) != "" ==> advice(f) in AddAdvice(recs, factors, advice)
    ensures forall x :: x in AddAdvice(recs, factors, advice) ==>
              x in recs || exists f :: f in factors && x == advice(f) && x != ""
    decreases |factors|
  {
    if factors != [] {
      var a := advice(factors[0]);
      var next := if a != "" && a !in recs then recs + [a] else recs;
      AddAdviceFacts(next, factors[1..], advice);
      var out := AddAdvice(recs, factors, advice);
      assert out == AddAdvice(next, factors[1..], advice);
      assert next[..|recs|] == recs;
      assert out[..|recs|] == out[..|next|][..|recs|];
      if NoDuplicates(recs) {
        assert NoDuplicates(next);
      }
      assert a != "" ==> a in next;
      assert next[..|next|] == next;
      assert forall x :: x in next ==> x in out[..|next|];
      forall x | x in out
        ensures x in recs || exists f :: f in factors && x == advice(f) && x != ""
      {
        if x !in recs && x in next {
          assert x == a;
          assert factors[0] in factors;
        } else if x !in next {
          var f :| f in factors[1..] && x == advice(f) && x != "";
          assert f in factors;
        }
      }
      forall f | f in factors && advice(f) != ""
        ensures advice(f) in out
      {
        if f != factors[0] {
          assert f in factors[1..];
        }
      }
    }
  }

  /** A rule that gives the same non-empty text for two factors puts it in
    * the list once: the pass over both adds one item. */
  lemma SharedAdviceAddedOnce(recs: seq<string>, f: RiskFactor, g: RiskFactor, advice: AdviceRule)
    requires advice(f) == advice(g) && advice(f) != "" && advice(f) !in recs
    ensures AddAdvice(recs, [f, g], advice) == recs + [advice(f)]
  {
    var once := recs + [advice(f)];
    assert [f, g][1..] == [g];
    assert AddAdvice(recs, [f, g], advice) == AddAdvice(once, [g], advice);
    assert advice(g) in once;
    assert AddAdvice(once, [g], advice) == AddAdvice(once, [], advice);
  }

  /** The reference meaning of `get_enhanced_recommendations`, before the cut at 15. */
  function AllRecommendations(score: real, level: RiskLevel, factors: seq<RiskFactor>, advice: AdviceRule): seq<string>
  {
    AddAdvice(Recommendations(level), Take(factors, 5), advice) + LifestyleRecommendations(score) + MonitoringRecommendations(level)
  }

  /** At most 4 + 5 + 3 + 3 items are ever composed, so the cut at 15 never
    * drops anything. */
  lemma AllRecommendationsFitCap(score: real, level: RiskLevel, factors: seq<RiskFactor>, advice: AdviceRule)
    ensures |AllRecommendations(score, level, factors, advice)| <= 15
  {
    AddAdviceFacts(Recommendations(level), Take(factors, 5), advice);
  }

  /** `get_enhanced_recommendations`. */
  method EnhancedRecommendations(score: real, level: RiskLevel, factors: seq<RiskFactor>, advice: AdviceRule)
    returns (recs: seq<string>)
    ensures recs == Take(AllRecommendations(score, level, factors, advice), 15)
    ensures recs == AllRecommendations(score, level, factors, advice)
    ensures |Recommendations(level)| <= |recs| <= 15
    ensures recs[..|Recommendations(level)|] == Recommendations(level)
    ensures forall k :: 0 <= k < |factors| && k < 5 && advice(factors[k]) != "" ==> advice(factors[k]) in recs
    ensures |recs| - |AddAdvice(Recommendations(level), Take(factors, 5), advice)| ==
              (if score > 0.5 then 3 else 0) + (if level.Rank() >= 2 then 3 else 0)
    ensures score > 0.5 ==> forall x :: x in LifestyleBank ==> x in recs
    ensures level == High || level == VeryHigh ==> forall x :: x in MonitoringBank ==> x in recs
  {
    var top := Take(factors, 5);
    recs := Recommendations(level);
    var i := 0;
    while i < |top|
      invariant 0 <= i <= |top|
      invariant AddAdvice(recs, top[i..], advice) == AddAdvice(Recommendations(level), top, advice)
    {
      var a := advice(top[i]);
      assert top[i..][1..] == top[i + 1..];
      if a != "" && a !in recs {
        recs := recs + [a];
      }
      i := i + 1;
    }
    assert top[i..] == [];
    recs := recs + LifestyleRecommendations(score);
    recs := recs + MonitoringRecommendations(level);
    var all := recs;
    AllRecommendationsFitCap(score, level, factors, advice);
    recs := Take(all, 15);
    RecommendationContents(score, level, factors, advice);
  }

  /** What the composed list contains: the level bank first, every top-five
    * factor's advice, the lifestyle items above 0.5 and the monitoring items
    * for High and Very High, each block of three present exactly in its case. */
  lemma RecommendationContents(score: real, level: RiskLevel, factors: seq<RiskFactor>, advice: AdviceRule)
    ensures var all := AllRecommendations(score, level, factors, advice);
            var withAdvice := AddAdvice(Recommendations(level), Take(factors, 5), advice);
            |Recommendations(level)| <= |withAdvice| <= |all| &&
            all[..|Recommendations(level)|] == Recommendations(level) &&
            (forall k :: 0 <= k < |factors| && k < 5 && advice(factors[k]) != "" ==> advice(factors[k]) in all) &&
            |all| - |withAdvice| == (if score > 0.5 then 3 else 0) + (if level.Rank() >= 2 then 3 else 0) &&
            (score > 0.5 ==> forall x :: x in LifestyleBank ==> x in all) &&
            (level == High || level == VeryHigh ==> forall x :: x in MonitoringBank ==> x in all)
  {
    var base := Recommendations(level);
    var top := Take(factors, 5);
    var withAdvice := AddAdvice(base, top, advice);
    AddAdviceFacts(base, top, advice);
    var all := AllRecommendations(score, level, factors, advice);
    assert all == withAdvice + LifestyleRecommendations(score) + MonitoringRecommendations(level);
    assert all[..|withAdvice|] == withAdvice;
    assert all[..|base|] == withAdvice[..|base|];
    forall k | 0 <= k < |factors| && k < 5 && advice(factors[k]) != ""
      ensures advice(factors[k]) in all
    {
      assert top[k] == factors[k];
      assert factors[k] in top;
    }
  }

  /** With the base class's advice, which is never empty, every one of the
    * top five factors has its advice in the list. */
  lemma BaseAdviceAlwaysListed(score: real, level: RiskLevel, factors: seq<RiskFactor>)
    ensures forall k :: 0 <= k < |factors| && k < 5 ==>
              FactorAdvice(factors[k]) in AllRecommendations(score, level, factors, FactorAdvice)
  {
    RecommendationContents(score, level, factors, FactorAdvice);
  }

  // ---------------------------------------------------------------------
  // Confidence
  // ---------------------------------------------------------------------

  /** A value that `calculate_confidence` counts as provided (`v is not None and v != ''`). */
  predicate Provided(v: Value)
  {
    v != NoneValue && v != Str("")
  }

  function ProvidedCount(data: map<string, Value>): nat
  {
    |set key | key in data && Provided(data[key])|
  }

  /** The unclamped confidence. The completeness `provided / required` may
    * exceed 1 when the request carries extra keys. */
  function RawConfidence(required: nat, provided: nat, score: real, factorCount: nat): real
    requires required > 0
  {
    var completeness := provided as real / required as real;
    var certainty := 1.0 - Abs(0.5 - score) * 2.0;
    var factorConfidence := Min(1.0, factorCount as real / 5.0);
    0.75 * (0.4 * completeness + 0.4 * certainty + 0.2 * factorConfidence)
  }

  /** `calculate_confidence`; None is the ZeroDivisionError of a predictor
    * with no required fields. */
  function Confidence(required: nat, provided: nat, score: real, factorCount: nat): (r: Option<real>)
    ensures r.None? <==> required == 0
    ensures r.Some? ==> 0.60 <= r.value <= 0.95
    ensures r.Some? && 0.60 <= RawConfidence(required, provided, score, factorCount) <= 0.95 ==>
              r.value == RawConfidence(required, provided, score, factorCount)
  {
    if required == 0 then None
    else Some(Min(0.95, Max(0.60, RawConfidence(required, provided, score, factorCount))))
  }

  /** Providing more non-empty values never lowers the confidence. */
  lemma ConfidenceMonotoneInProvided(required: nat, p1: nat, p2: nat, score: real, factorCount: nat)
    requires required > 0 && p1 <= p2
    ensures Confidence(required, p1, score, factorCount).value <= Confidence(required, p2, score, factorCount).value
  {
    DivideMonotone(p1 as real, p2 as real, required as real);
  }

  lemma DivideMonotone(a: real, b: real, d: real)
    requires a <= b && d > 0.0
    ensures a / d <= b / d
  {
    assert b / d - a / d == (b - a) / d;
  }

  /** More ranked factors (up to five) never lower the confidence either. */
  lemma ConfidenceMonotoneInFactors(required: nat, provided: nat, score: real, n1: nat, n2: nat)
    requires required > 0 && n1 <= n2
    ensures Confidence(required, provided, score, n1).value <= Confidence(required, provided, score, n2).value
  {
  }

  // ---------------------------------------------------------------------
  // Chart payload
  // ---------------------------------------------------------------------

  datatype GaugeRange = GaugeRange(from: int, to: int, color: string, caption: string)

  const GaugeRanges := [GaugeRange(0, 20, Green, "Low Risk"),
                        GaugeRange(20, 40, LimeGreen, "Mild Risk"),
                        GaugeRange(40, 60, Yellow, "Moderate Risk"),
                        GaugeRange(60, 80, Orange, "High Risk"),
                        GaugeRange(80, 100, Red, "Very High Risk")]

  /** The gauge and bar-chart parts of `generate_chart_data`. */
  datatype Chart = Chart(gaugeValue: real, ranges: seq<GaugeRange>, labels: seq<string>, data: seq<real>, colors: seq<string>)

  function GenerateChartData(score: real, factors: seq<RiskFactor>): (chart: Chart)
    ensures 0.0 <= score <= 1.0 ==> 0.0 <= chart.gaugeValue <= 100.0
    ensures |chart.ranges| == 5
    ensures chart.ranges[0].from == 0 && chart.ranges[|chart.ranges| - 1].to == 100
    ensures forall k :: 0 <= k < |chart.ranges| - 1 ==> chart.ranges[k].to == chart.ranges[k + 1].from
    ensures |chart.labels| == |chart.data| == |chart.colors| == |Take(factors, 8)|
    ensures forall k :: 0 <= k < |chart.labels| ==>
              chart.labels[k] == factors[k].factor &&
              chart.data[k] == factors[k].contribution * 100.0 &&
              chart.colors[k] == ColorOfLevel(CategorizeFieldRisk(factors[k].contribution))
  {
    var bars := Take(factors, 8);
    ColorsMatchCategories();
    Chart(score * 100.0, GaugeRanges,
          seq(|bars|, k requires 0 <= k < |bars| => bars[k].factor),
          seq(|bars|, k requires 0 <= k < |bars| => bars[k].contribution * 100.0),
          seq(|bars|, k requires 0 <= k < |bars| => RiskColor(bars[k].contribution)))
  }

  // ---------------------------------------------------------------------
  // predict
  // ---------------------------------------------------------------------

  datatype Prediction = Prediction(
    riskScore: real,
    riskLevel: RiskLevel,
    severity: string,
    riskFactors: seq<RiskFactor>,
    recommendations: seq<string>,
    confidence: real,
    chart: Chart)

  datatype PredictError = Invalid(cause: ValidationError) | NoRequiredFields

  /** The reference meaning of `predict`, with the learned model, the
    * preprocessing, the contribution rule and the factor advice of the
    * concrete predictor as parameters: validate, preprocess, score, clamp, classify, rank,
    * recommend, rate the confidence, chart. */
  function Predicted(schema: Schema, descriptions: map<string, string>, data: map<string, Value>, conv: Conversions,
                     preprocess: map<string, Value> -> seq<real>, model: seq<real> -> real, rule: ContributionRule, advice: AdviceRule)
    : Result<Prediction, PredictError>
  {
    var (outcome, valid) := Validated(schema, data, conv);
    if outcome.Err? then Err(Invalid(outcome.error))
    else if |schema| == 0 then Err(NoRequiredFields)
    else
      var processed := preprocess(valid);
      var score := Clamp01(model(processed));
      var level := CalculateRiskLevel(score);
      var factors := RankedFactors(schema, valid, processed, descriptions, rule);
      Ok(Prediction(score, level, AssessSeverity(score), factors, AllRecommendations(score, level, factors, advice),
                    Confidence(|schema|, ProvidedCount(valid), score, |factors|).value,
                    GenerateChartData(score, factors)))
  }

  /** A prediction fails exactly on invalid input or a predictor without
    * fields, and an invalid input reports the validation error. */
  lemma PredictedFailures(schema: Schema, descriptions: map<string, string>, data: map<string, Value>, conv: Conversions,
                          preprocess: map<string, Value> -> seq<real>, model: seq<real> -> real, rule: ContributionRule, advice: AdviceRule)
    ensures var r := Predicted(schema, descriptions, data, conv, preprocess, model, rule, advice);
            (r.Err? <==> Validated(schema, data, conv).0.Err? || |schema| == 0) &&
            (Validated(schema, data, conv).0.Err? ==> r == Err(Invalid(Validated(schema, data, conv).0.error)))
  {
  }

  /** What a successful prediction promises: its score lies in [0, 1], its
    * level and severity follow the score, at most ten factors come largest
    * first, at most fifteen recommendations start with the level's bank, and
    * the confidence lies in [0.60, 0.95]. */
  lemma PredictedFacts(schema: Schema, descriptions: map<string, string>, data: map<string, Value>, conv: Conversions,
                       preprocess: map<string, Value> -> seq<real>, model: seq<real> -> real, rule: ContributionRule, advice: AdviceRule)
    ensures var r := Predicted(schema, descriptions, data, conv, preprocess, model, rule, advice);
            r.Ok? ==>
              var p := r.value;
              0.0 <= p.riskScore <= 1.0 &&
              p.riskLevel == CalculateRiskLevel(p.riskScore) &&
              p.severity == AssessSeverity(p.riskScore) &&
              |p.riskFactors| <= 10 && SortedDesc(p.riskFactors) &&
              |p.recommendations| <= 15 &&
              |Recommendations(p.riskLevel)| <= |p.recommendations| &&
              p.recommendations[..|Recommendations(p.riskLevel)|] == Recommendations(p.riskLevel) &&
              0.60 <= p.confidence <= 0.95 &&
              0.0 <= p.chart.gaugeValue <= 100.0
  {
    var (outcome, valid) := Validated(schema, data, conv);
    if outcome.Ok? && |schema| > 0 {
      var processed := preprocess(valid);
      var score := Clamp01(model(processed));
      var level := CalculateRiskLevel(score);
      var factors := RankedFactors(schema, valid, processed, descriptions, rule);
      RankedFactorsFacts(schema, valid, processed, descriptions, rule);
      AllRecommendationsFitCap(score, level, factors, advice);
      RecommendationContents(score, level, factors, advice);
      var confidence := Confidence(|schema|, ProvidedCount(valid), score, |factors|);
      assert Predicted(schema, descriptions, data, conv, preprocess, model, rule, advice).value
          == Prediction(score, level, AssessSeverity(score), factors, AllRecommendations(score, level, factors, advice),
                        confidence.value, GenerateChartData(score, factors));
    }
  }

  /** `predict`. */
  method Predict(schema: Schema, descriptions: map<string, string>, data: map<string, Value>, conv: Conversions,
                 preprocess: map<string, Value> -> seq<real>, model: seq<real> -> real, rule: ContributionRule, advice: AdviceRule)
    returns (r: Result<Prediction, PredictError>)
    requires DistinctNames(schema)
    ensures r == Predicted(schema, descriptions, data, conv, preprocess, model, rule, advice)
  {
    var outcome, valid := ValidateInput(schema, data, conv);
    if outcome.Err? {
      return Err(Invalid(outcome.error));
    }
    var processed := preprocess(valid);
    var score := Clamp01(model(processed));
    var level := CalculateRiskLevel(score);
    var severity := AssessSeverity(score);
    var factors := AnalyzeRiskFactors(schema, valid, processed, descriptions, rule);
    var recs := EnhancedRecommendations(score, level, factors, advice);
    var confidence := Confidence(|schema|, ProvidedCount(valid), score, |factors|);
    if confidence.None? {
      return Err(NoRequiredFields);
    }
    var chart := GenerateChartData(score, factors);
    r := Ok(Prediction(score, level, severity, factors, recs, confidence.value, chart));
  }
}
