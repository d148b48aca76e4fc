/** The diagnosis service (WekaModelService.java): it owns the classifier and
    the data-set structure, turns a SymptomInput into an instance, assembles
    the label, the score map and the explanation, and reports readiness. */
module ModelService {
  import opened Wrappers
  import opened Text
  import opened Symptoms
  import opened Classification
  import opened Results

  /** A WEKA attribute: numeric, or nominal with its declared labels. */
  datatype Attribute = Numeric(name: string) | Nominal(name: string, values: seq<string>)

  /** The header of a WEKA data set: relation name, attributes, class index. */
  datatype Dataset = Dataset(relation: string, attributes: seq<Attribute>, classIndex: nat)

  /** The labels of the class attribute, in class-index order. */
  const ClassValues: seq<string> := ["Healthy", "Moderate Risk", "Severe Risk"]

  /** The attributes createDataStructure declares, in training-data order. */
  const HeartAttributes: seq<Attribute> := [
    Numeric("age"),
    Nominal("sex", ["male", "female"]),
    Nominal("chestPain", ["typical", "atypical", "non-anginal", "asymptomatic"]),
    Numeric("bloodPressure"),
    Numeric("cholesterol"),
    Nominal("fastingBS", ["0", "1"]),
    Nominal("restECG", ["normal", "st-t-abnormality", "left-ventricular-hypertrophy"]),
    Numeric("maxHeartRate"),
    Nominal("exerciseAngina", ["no", "yes"]),
    Numeric("oldpeak"),
    Nominal("thallium", ["normal", "fixed-defect", "reversible-defect"]),
    Numeric("bmi"),
    Nominal("class", ClassValues)
  ]

  /** The "HeartDisease" structure, class attribute last. */
  const HeartDataset: Dataset := Dataset("HeartDisease", HeartAttributes, |HeartAttributes| - 1)

  /** `classAttribute().value(i)` of the heart-disease structure. */
  function ClassLabel(i: nat): (name: string)
    requires i < NumClasses
    ensures name == ClassValues[i]
  {
    HeartDataset.attributes[HeartDataset.classIndex].values[i]
  }

  /** The labels the structure declares for nominal attribute `i`. */
  function NominalValues(i: nat): seq<string>
    requires i < |HeartAttributes| && HeartAttributes[i].Nominal?
  {
    HeartAttributes[i].values
  }

  /** Why classify throws: the data-set structure is still null (classify
      before initializeModel), a null field is unboxed (a null Integer, Double
      or the null BMI), or a label is not declared by its attribute. */
  datatype Fault = Uninitialised | NullValue(attribute: string) | UndefinedNominal(attribute: string)

  /** The exception's message, as the controller receives it. */
  function FaultMessage(f: Fault): string {
    match f
    case Uninitialised => "dataStructure is null"
    case NullValue(a) => "null value for attribute " + a
    case UndefinedNominal(a) => "value not defined for nominal attribute " + a
  }

  /** Setting nominal attribute `i` from a possibly null label. */
  function NominalFault(i: nat, v: Option<string>): Option<Fault>
    requires i < |HeartAttributes| && HeartAttributes[i].Nominal?
  {
    if v.None? then Some(NullValue(HeartAttributes[i].name))
    else if v.value !in NominalValues(i) then Some(UndefinedNominal(HeartAttributes[i].name))
    else None
  }

  /** The twelve `setValue` calls of classify, in order: the first one that
      throws decides the fault; otherwise the finished instance. */
  function BuildInstance(s: Symptoms): (r: Result<Instance, Fault>)
    ensures r.Success? ==> Bmi(s).Some? && r.value.bmi == Bmi(s).value
    ensures r.Success? ==> s.age.Some? && r.value.age == s.age.value as real
    ensures r.Success? ==> s.bloodPressure.Some? && r.value.bloodPressure == s.bloodPressure.value as real
    ensures r.Success? ==> s.cholesterol.Some? && r.value.cholesterol == s.cholesterol.value as real
    ensures r.Success? ==> s.maxHeartRate.Some? && r.value.maxHeartRate == s.maxHeartRate.value as real
    ensures r.Success? ==> s.fastingBS.Some? && s.exerciseAngina.Some? && s.oldpeak.Some? && s.thallium.Some?
  {
    if s.age.None? then Failure(NullValue("age"))
    else if NominalFault(1, s.sex).Some? then Failure(NominalFault(1, s.sex).value)
    else if NominalFault(2, s.chestPain).Some? then Failure(NominalFault(2, s.chestPain).value)
    else if s.bloodPressure.None? then Failure(NullValue("bloodPressure"))
    else if s.cholesterol.None? then Failure(NullValue("cholesterol"))
    else if s.fastingBS.None? then Failure(NullValue("fastingBS"))
    else if IntToString(s.fastingBS.value) !in NominalValues(5) then Failure(UndefinedNominal("fastingBS"))
    else if NominalFault(6, s.restECG).Some? then Failure(NominalFault(6, s.restECG).value)
    else if s.maxHeartRate.None? then Failure(NullValue("maxHeartRate"))
    else if NominalFault(8, s.exerciseAngina).Some? then Failure(NominalFault(8, s.exerciseAngina).value)
    else if s.oldpeak.None? then Failure(NullValue("oldpeak"))
    else if NominalFault(10, s.thallium).Some? then Failure(NominalFault(10, s.thallium).value)
    else if Bmi(s).None? then Failure(NullValue("bmi"))
    else Success(Instance(
      s.age.value as real, s.sex.value, s.chestPain.value,
      s.bloodPressure.value as real, s.cholesterol.value as real,
      IntToString(s.fastingBS.value), s.restECG.value, s.maxHeartRate.value as real,
      s.exerciseAngina.value, s.oldpeak.value, s.thallium.value, Bmi(s).value))
  }

  /** The fields generateExplanation unboxes. */
  predicate Explainable(s: Symptoms) {
    s.age.Some? && s.bloodPressure.Some? && s.cholesterol.Some? && s.fastingBS.Some? &&
    s.exerciseAngina.Some? && s.oldpeak.Some? && s.thallium.Some?
  }

  /** The seven risk-factor phrases, in the order they are tested. */
  const FactorPhrases: seq<string> := [
    "age over 65", "high blood pressure", "high cholesterol", "elevated blood sugar",
    "exercise-induced angina", "significant ST depression", "thallium scan abnormalities"
  ]

  /** Whether the `k`-th risk factor is present; each threshold is strict. */
  predicate HasFactor(s: Symptoms, k: nat)
    requires Explainable(s) && k < |FactorPhrases|
  {
    match k
    case 0 => s.age.value > 65
    case 1 => s.bloodPressure.value > 140
    case 2 => s.cholesterol.value > 240
    case 3 => s.fastingBS.value == 1
    case 4 => s.exerciseAngina.value == "yes"
    case 5 => s.oldpeak.value > 2.0
    case _ => s.thallium.value == "fixed-defect" || s.thallium.value == "reversible-defect"
  }

  /** The phrases of the factors among the first `n` that are present, in order. */
  function FactorsUpTo(s: Symptoms, n: nat): (fs: seq<string>)
    requires Explainable(s) && n <= |FactorPhrases|
    ensures |fs| <= n
  {
    if n == 0 then []
    else FactorsUpTo(s, n - 1) + (if HasFactor(s, n - 1) then [FactorPhrases[n - 1]] else [])
  }

  /** The risk factors of an input, independent of the predicted class. */
  function RiskFactors(s: Symptoms): seq<string>
    requires Explainable(s)
  {
    FactorsUpTo(s, |FactorPhrases|)
  }

  /** No phrase is listed twice. */
  lemma FactorPhrasesDistinct()
    ensures forall a, b :: 0 <= a < b < |FactorPhrases| ==> FactorPhrases[a] != FactorPhrases[b]
  {
  }

  /** A phrase is in the list exactly when its factor is present, the list
      holds nothing else, and it keeps the fixed order: of two listed phrases
      the earlier one belongs to the earlier factor. */
  lemma {:induction false} FactorsUpToMembership(s: Symptoms, n: nat)
    requires Explainable(s) && n <= |FactorPhrases|
    ensures forall k :: 0 <= k < |FactorPhrases| ==>
              (FactorPhrases[k] in FactorsUpTo(s, n) <==> k < n && HasFactor(s, k))
    ensures forall x :: x in FactorsUpTo(s, n) ==> x in FactorPhrases[..n]
    ensures forall i, j, a, b ::
              (0 <= i < j < |FactorsUpTo(s, n)| && 0 <= a < |FactorPhrases| && 0 <= b < |FactorPhrases| &&
               FactorsUpTo(s, n)[i] == FactorPhrases[a] && FactorsUpTo(s, n)[j] == FactorPhrases[b]) ==> a < b
  {
    FactorPhrasesDistinct();
    if n > 0 {
      FactorsUpToMembership(s, n - 1);
      var prev := FactorsUpTo(s, n - 1);
      var fs := FactorsUpTo(s, n);
      var tail := if HasFactor(s, n - 1) then [FactorPhrases[n - 1]] else [];
      assert fs == prev + tail;
      forall x | x in fs ensures x in FactorPhrases[..n] {
        if x in prev {
          assert FactorPhrases[..n - 1] <= FactorPhrases[..n];
        } else {
          assert x == FactorPhrases[n - 1];
        }
      }
      forall i, j, a, b |
        0 <= i < j < |fs| && 0 <= a < |FactorPhrases| && 0 <= b < |FactorPhrases| &&
        fs[i] == FactorPhrases[a] && fs[j] == FactorPhrases[b]
        ensures a < b
      {
        if j >= |prev| {
          assert fs[j] == FactorPhrases[n - 1];
          assert b == n - 1;
          assert fs[i] == prev[i];
          assert prev[i] in prev;
          assert prev[i] in FactorPhrases[..n - 1];
          var a' :| 0 <= a' < n - 1 && FactorPhrases[a'] == prev[i];
          assert a' == a;
        } else {
          assert fs[i] == prev[i] && fs[j] == prev[j];
        }
      }
    }
  }

  lemma RiskFactorMembership(s: Symptoms, k: nat)
    requires Explainable(s) && k < |FactorPhrases|
    ensures FactorPhrases[k] in RiskFactors(s) <==> HasFactor(s, k)
  {
    FactorsUpToMembership(s, |FactorPhrases|);
  }

  /** The thresholds are strict: 65, 140, 240 and 2.0 themselves add nothing. */
  lemma RiskFactorBoundaries(s: Symptoms)
    requires Explainable(s)
    ensures s.age.value == 65 ==> "age over 65" !in RiskFactors(s)
    ensures s.age.value == 66 ==> "age over 65" in RiskFactors(s)
    ensures s.bloodPressure.value == 140 ==> "high blood pressure" !in RiskFactors(s)
    ensures s.cholesterol.value == 240 ==> "high cholesterol" !in RiskFactors(s)
    ensures s.oldpeak.value == 2.0 ==> "significant ST depression" !in RiskFactors(s)
  {
    RiskFactorMembership(s, 0);
    RiskFactorMembership(s, 1);
    RiskFactorMembership(s, 2);
    RiskFactorMembership(s, 5);
  }

  /** The explanation: fixed prefix, the factors or the no-factor sentence,
      and the predicted label's score as a one-decimal percentage. */
  function ExplanationText(factors: seq<string>, score: real): string {
    "Based on your symptoms: " + FactorSentence(factors) + ConfidenceSentence(score)
  }

  /** The middle of the explanation: the listed factors, or the no-factor sentence. */
  function FactorSentence(factors: seq<string>): string {
    if |factors| > 0 then "Key risk factors identified: " + Join(", ", factors)
    else "No major risk factors identified"
  }

  /** The end of the explanation: the score as a one-decimal percentage. */
  function ConfidenceSentence(score: real): string {
    ". Confidence: " + FormatFixed1(score * 100.0) + "%"
  }

  /** The score map put together from the first `n` slots of a distribution. */
  function ScoresUpTo(d: seq<real>, n: nat): map<string, real>
    requires n <= |d| && n <= NumClasses
  {
    if n == 0 then map[] else ScoresUpTo(d, n - 1)[ClassValues[n - 1] := d[n - 1]]
  }

  /** The score map of a three-slot distribution. */
  function ScoreMap(d: seq<real>): map<string, real>
    requires |d| == NumClasses
  {
    ScoresUpTo(d, NumClasses)
  }

  /** Exactly the three class names are keys, each bound to its own slot. */
  lemma ScoreMapShape(d: seq<real>)
    requires |d| == NumClasses
    ensures ScoreMap(d).Keys == {"Healthy", "Moderate Risk", "Severe Risk"}
    ensures forall i :: 0 <= i < NumClasses ==> ScoreMap(d)[ClassValues[i]] == d[i]
  {
    assert ScoresUpTo(d, 1) == map["Healthy" := d[0]];
    assert ScoresUpTo(d, 2) == map["Healthy" := d[0], "Moderate Risk" := d[1]];
    assert ScoreMap(d) == map["Healthy" := d[0], "Moderate Risk" := d[1], "Severe Risk" := d[2]];
  }

  /** What classify computes for an input, without the clock and the object. */
  datatype Verdict = Verdict(predictedLabel: string, scores: map<string, real>, explanation: string)

  function Diagnosis(s: Symptoms): Result<Verdict, Fault> {
    match BuildInstance(s)
    case Failure(f) => Failure(f)
    case Success(x) =>
      var c := ClassifyInstance(x);
      var scores := ScoreMap(Distribution(c));
      assert ClassValues[c] in scores by { ScoreMapShape(Distribution(c)); }
      Success(Verdict(ClassValues[c], scores, ExplanationText(RiskFactors(s), scores[ClassValues[c]])))
  }

  /** A successful diagnosis carries a score for each class and nothing else,
      the scores form a probability distribution, the label holds the unique
      largest score, and with the mock classifier the confidence is 85.0%. */
  lemma DiagnosisScores(s: Symptoms)
    requires Diagnosis(s).Success?
    ensures var v := Diagnosis(s).value;
            v.scores.Keys == {"Healthy", "Moderate Risk", "Severe Risk"} &&
            v.scores["Healthy"] + v.scores["Moderate Risk"] + v.scores["Severe Risk"] == 1.0 &&
            (forall k :: k in v.scores ==> v.scores[k] >= 0.0) &&
            v.predictedLabel in v.scores &&
            (forall k :: k in v.scores && k != v.predictedLabel ==> v.scores[k] < v.scores[v.predictedLabel]) &&
            v.explanation == ExplanationText(RiskFactors(s), 0.85)
  {
    var x := BuildInstance(s).value;
    var c := ClassifyInstance(x);
    DistributionIsProbability(c);
    ScoreMapShape(Distribution(c));
  }

  /** The confidence sentence of the mock classifier's predicted class. */
  lemma MockConfidenceText()
    ensures FormatFixed1(0.85 * 100.0) == "85.0"
    ensures ConfidenceSentence(0.85) == ". Confidence: 85.0%"
  {
    FormatWholeTenths(850);
    assert 850 as real / 10.0 == 0.85 * 100.0;
    assert NatToString(85) == NatToString(8) + [DigitChar(5)];
  }

  /** The explanation of every successful diagnosis: prefix, factors, and
      the fixed suffix ". Confidence: 85.0%". */
  lemma DiagnosisExplanation(s: Symptoms)
    requires Diagnosis(s).Success?
    ensures Diagnosis(s).value.explanation ==
            "Based on your symptoms: " + FactorSentence(RiskFactors(s)) + ". Confidence: 85.0%"
  {
    DiagnosisScores(s);
    MockConfidenceText();
  }

  /** Every listed factor occurs in the explanation; with none listed the
      explanation says so. */
  lemma ExplanationMentions(factors: seq<string>, score: real)
    ensures forall k :: 0 <= k < |factors| ==> Contains(ExplanationText(factors, score), factors[k])
    ensures |factors| == 0 ==> Contains(ExplanationText(factors, score), "No major risk factors identified")
  {
    var lead := "Based on your symptoms: ";
    var tail := ConfidenceSentence(score);
    if |factors| == 0 {
      assert Occurs("No major risk factors identified", FactorSentence(factors), 0);
      ContainsInSuffix(lead, FactorSentence(factors), "No major risk factors identified");
      ContainsInPrefix(lead + FactorSentence(factors), tail, "No major risk factors identified");
    }
    forall k | 0 <= k < |factors|
      ensures Contains(ExplanationText(factors, score), factors[k])
    {
      JoinContainsParts(", ", factors, k);
      ContainsInSuffix("Key risk factors identified: ", Join(", ", factors), factors[k]);
      ContainsInSuffix(lead, FactorSentence(factors), factors[k]);
      ContainsInPrefix(lead + FactorSentence(factors), tail, factors[k]);
    }
  }

  /** With no factor present the list is empty. */
  lemma {:induction false} NoFactorsUpTo(s: Symptoms, n: nat)
    requires Explainable(s) && n <= |FactorPhrases|
    requires forall j :: 0 <= j < n ==> !HasFactor(s, j)
    ensures FactorsUpTo(s, n) == []
  {
    if n > 0 {
      NoFactorsUpTo(s, n - 1);
    }
  }

  /** A diagnosis names every risk factor the input has. */
  lemma DiagnosisMentionsRiskFactors(s: Symptoms, k: nat)
    requires Diagnosis(s).Success? && k < |FactorPhrases|
    ensures Explainable(s)
    ensures HasFactor(s, k) ==> Contains(Diagnosis(s).value.explanation, FactorPhrases[k])
  {
    DiagnosisScores(s);
    var fs := RiskFactors(s);
    ExplanationMentions(fs, 0.85);
    if HasFactor(s, k) {
      RiskFactorMembership(s, k);
      var i :| 0 <= i < |fs| && fs[i] == FactorPhrases[k];
    }
  }

  /** A diagnosis of an input without risk factors says there is none. */
  lemma DiagnosisMentionsNoFactors(s: Symptoms)
    requires Diagnosis(s).Success?
    ensures Explainable(s)
    ensures (forall j :: 0 <= j < |FactorPhrases| ==> !HasFactor(s, j)) ==>
              Contains(Diagnosis(s).value.explanation, "No major risk factors identified")
  {
    DiagnosisScores(s);
    if forall j :: 0 <= j < |FactorPhrases| ==> !HasFactor(s, j) {
      NoFactorsUpTo(s, |FactorPhrases|);
      ExplanationMentions(RiskFactors(s), 0.85);
    }
  }

  /** Of the validation rules, only the height can stop a valid input from
      being classified: it is classified exactly when the height is positive,
      and otherwise fails on the null BMI. */
  lemma ValidInputClassifiedIffPositiveHeight(s: Symptoms)
    requires Valid(s)
    ensures Diagnosis(s).Success? <==> s.heightM.value > 0.0
    ensures s.heightM.value == 0.0 ==> Diagnosis(s) == Failure(NullValue("bmi"))
  {
    assert IntToString(0) == "0" && IntToString(1) == "1";
  }

  /** The input built by the controller test (DiagnosticControllerTest). */
  const ControllerTestSymptoms: Symptoms :=
    Symptoms(Some(45), Some("male"), Some("typical"), Some(140), Some(230), Some(1),
             Some("normal"), Some(150), Some("no"), Some(2.3), Some("normal"),
             Some(1.75), Some(70.0))

  /** As written: height 0 passes validation ("Height must be positive" is
      declared with @Min(0)), and that valid input then fails in classify. */
  lemma ZeroHeightIsValidButFails()
    ensures var s := ControllerTestSymptoms.(heightM := Some(0.0));
            Valid(s) && Diagnosis(s) == Failure(NullValue("bmi"))
  {
    ValidInputClassifiedIffPositiveHeight(ControllerTestSymptoms.(heightM := Some(0.0)));
  }

  /** Corrected: with a strictly positive height every valid input is
      classified. */
  lemma PositiveHeightInputsAreClassified(s: Symptoms)
    requires ValidPositiveHeight(s)
    ensures Diagnosis(s).Success?
  {
    ValidInputClassifiedIffPositiveHeight(s);
  }

  /** The test input's risk factors: blood sugar and ST depression only
      (blood pressure 140 is not above 140). */
  lemma ControllerTestFactors()
    ensures Explainable(ControllerTestSymptoms)
    ensures RiskFactors(ControllerTestSymptoms) == ["elevated blood sugar", "significant ST depression"]
  {
    var s := ControllerTestSymptoms;
    assert FactorsUpTo(s, 3) == [] by {
      assert FactorsUpTo(s, 1) == [] && FactorsUpTo(s, 2) == [];
    }
    assert FactorsUpTo(s, 5) == ["elevated blood sugar"] by {
      assert FactorsUpTo(s, 4) == ["elevated blood sugar"];
    }
    assert FactorsUpTo(s, 6) == ["elevated blood sugar", "significant ST depression"];
  }

  lemma ControllerTestBuilds()
    ensures BuildInstance(ControllerTestSymptoms).Success?
  {
    var s := ControllerTestSymptoms;
    assert IntToString(1) == "1";
    assert Bmi(s).Some?;
  }

  /** The test input is Severe Risk (age 45, cholesterol 230 over 200, blood
      pressure 140 over 130). */
  lemma ControllerTestLabel()
    ensures Diagnosis(ControllerTestSymptoms).Success?
    ensures Diagnosis(ControllerTestSymptoms).value.predictedLabel == "Severe Risk"
  {
    ControllerTestBuilds();
    var x := BuildInstance(ControllerTestSymptoms).value;
    assert ClassifyInstance(x) == 2;
  }

  lemma TwoFactorSentence()
    ensures FactorSentence(["elevated blood sugar", "significant ST depression"]) ==
            "Key risk factors identified: " + ("elevated blood sugar" + ", " + "significant ST depression")
  {
    JoinTwo(", ", "elevated blood sugar", "significant ST depression");
  }

  /** The test input is explained by its two risk factors at 85.0%. */
  lemma ControllerTestExplanation()
    ensures Diagnosis(ControllerTestSymptoms).Success?
    ensures Diagnosis(ControllerTestSymptoms).value.explanation ==
              "Based on your symptoms: "
              + ("Key risk factors identified: " + ("elevated blood sugar" + ", " + "significant ST depression"))
              + ". Confidence: 85.0%"
  {
    ControllerTestBuilds();
    ControllerTestFactors();
    TwoFactorSentence();
    DiagnosisExplanation(ControllerTestSymptoms);
  }

  class WekaModelService {
    var classifier: Option<Classifier>
    var dataStructure: Option<Dataset>
    var attributes: Option<seq<Attribute>>

    /** Either nothing is set yet or initializeModel has set all three. */
    ghost predicate Valid()
      reads this
    {
      || (classifier.None? && dataStructure.None? && attributes.None?)
      || (classifier == Some(MockClassifier) && dataStructure == Some(HeartDataset) &&
          attributes == Some(HeartAttributes))
    }

    /** Before the post-construct step nothing is set. */
    constructor ()
      ensures Valid() && classifier.None? && dataStructure.None? && attributes.None?
    {
      classifier, dataStructure, attributes := None, None, None;
    }

    /** initializeModel: installs the mock classifier and the structure. */
    method InitializeModel()
      modifies this
      ensures Valid() && IsModelLoaded()
      ensures classifier == Some(MockClassifier) && dataStructure == Some(HeartDataset)
      ensures attributes == Some(HeartAttributes)
    {
      classifier := Some(MockClassifier);
      CreateDataStructure();
    }

    /** createDataStructure: the attribute list and the data-set header. */
    method CreateDataStructure()
      modifies this
      ensures attributes == Some(HeartAttributes) && dataStructure == Some(HeartDataset)
      ensures classifier == old(classifier)
    {
      var attrs: seq<Attribute> := [];
      attrs := attrs + [Numeric("age")];
      attrs := attrs + [Nominal("sex", ["male", "female"])];
      attrs := attrs + [Nominal("chestPain", ["typical", "atypical", "non-anginal", "asymptomatic"])];
      attrs := attrs + [Numeric("bloodPressure")];
      attrs := attrs + [Numeric("cholesterol")];
      attrs := attrs + [Nominal("fastingBS", ["0", "1"])];
      attrs := attrs + [Nominal("restECG", ["normal", "st-t-abnormality", "left-ventricular-hypertrophy"])];
      attrs := attrs + [Numeric("maxHeartRate")];
      attrs := attrs + [Nominal("exerciseAngina", ["no", "yes"])];
      attrs := attrs + [Numeric("oldpeak")];
      attrs := attrs + [Nominal("thallium", ["normal", "fixed-defect", "reversible-defect"])];
      attrs := attrs + [Numeric("bmi")];
      var classValues := ["Healthy", "Moderate Risk", "Severe Risk"];
      attrs := attrs + [Nominal("class", classValues)];
      assert attrs == HeartAttributes;
      attributes := Some(attrs);
      dataStructure := Some(Dataset("HeartDisease", attrs, |attrs| - 1));
    }

    /** isModelLoaded. */
    function IsModelLoaded(): bool
      reads this
    {
      classifier.Some? && dataStructure.Some?
    }

    /** getModelInfo. */
    function GetModelInfo(): string
      reads this
    {
      if classifier.Some? then classifier.value.SimpleName() + " (v1.0)" else "Model not loaded"
    }

    /** classify: before initialisation it fails on the null structure;
        otherwise it fails with the fault of the first setValue that throws,
        or returns a fresh result holding the label, the score map and the
        explanation Diagnosis describes, stamped with `now`. */
    method Classify(input: SymptomInput, now: int) returns (r: Result<DiagnosisResult, Fault>)
      requires Valid()
      ensures !IsModelLoaded() ==> r == Failure(Uninitialised)
      ensures IsModelLoaded() ==> (Diagnosis(input.Snapshot()).Failure? <==> r.Failure?)
      ensures IsModelLoaded() && r.Failure? ==> r.error == Diagnosis(input.Snapshot()).error
      ensures r.Success? ==> (IsModelLoaded() && fresh(r.value) &&
                var v := Diagnosis(input.Snapshot()).value;
                r.value.Record() == ResultRecord(Some(v.predictedLabel), Some(v.scores),
                                                 Some(v.explanation), Some(ModelVersion), now))
    {
      if dataStructure.None? {
        return Failure(Uninitialised);
      }
      var built := BuildInstance(input.Snapshot());
      if built.Failure? {
        return Failure(built.error);
      }
      var instance := built.value;
      var distribution := DistributionForInstance(instance);
      var predictedClass := ClassifyInstance(instance);
      var predictedLabel := ClassLabel(predictedClass);
      ghost var d := Distribution(predictedClass);
      var scores: map<string, real> := map[];
      for i := 0 to distribution.Length
        invariant distribution[..] == d
        invariant scores == ScoresUpTo(d, i)
      {
        scores := scores[ClassLabel(i) := distribution[i]];
      }
      ScoreMapShape(d);
      var explanation := GenerateExplanation(predictedLabel, scores, input);
      var result := new DiagnosisResult.Of(Some(predictedLabel), Some(scores), Some(explanation), now);
      return Success(result);
    }

    /** generateExplanation: the factor list and the text built step by step. */
    method GenerateExplanation(predictedLabel: string, scores: map<string, real>, input: SymptomInput)
      returns (e: string)
      requires predictedLabel in scores && Explainable(input.Snapshot())
      ensures e == ExplanationText(RiskFactors(input.Snapshot()), scores[predictedLabel])
    {
      ghost var s := input.Snapshot();
      var explanation := "Based on your symptoms: ";
      var riskFactors: seq<string> := [];
      if input.age.value > 65 { riskFactors := riskFactors + ["age over 65"]; }
      assert riskFactors == FactorsUpTo(s, 1);
      if input.bloodPressure.value > 140 { riskFactors := riskFactors + ["high blood pressure"]; }
      assert riskFactors == FactorsUpTo(s, 2);
      if input.cholesterol.value > 240 { riskFactors := riskFactors + ["high cholesterol"]; }
      assert riskFactors == FactorsUpTo(s, 3);
      if input.fastingBS.value == 1 { riskFactors := riskFactors + ["elevated blood sugar"]; }
      assert riskFactors == FactorsUpTo(s, 4);
      if input.exerciseAngina.value == "yes" { riskFactors := riskFactors + ["exercise-induced angina"]; }
      assert riskFactors == FactorsUpTo(s, 5);
      if input.oldpeak.value > 2.0 { riskFactors := riskFactors + ["significant ST depression"]; }
      assert riskFactors == FactorsUpTo(s, 6);
      if input.thallium.value == "fixed-defect" || input.thallium.value == "reversible-defect" {
        riskFactors := riskFactors + ["thallium scan abnormalities"];
      }
      assert riskFactors == RiskFactors(s);
      if |riskFactors| > 0 {
        explanation := explanation + "Key risk factors identified: ";
        explanation := explanation + Join(", ", riskFactors);
        Concat3("Based on your symptoms: ", "Key risk factors identified: ", Join(", ", riskFactors));
      } else {
        explanation := explanation + "No major risk factors identified";
      }
      assert explanation == "Based on your symptoms: " + FactorSentence(riskFactors);
      explanation := explanation + ". Confidence: ";
      explanation := explanation + FormatFixed1(scores[predictedLabel] * 100.0);
      explanation := explanation + "%";
      Concat4(". Confidence: ", FormatFixed1(scores[predictedLabel] * 100.0), "%",
              "Based on your symptoms: " + FactorSentence(riskFactors));
      e := explanation;
    }
  }

  /** isModelLoaded holds exactly in the state initializeModel leaves behind. */
  lemma LoadedIffInitialised(svc: WekaModelService)
    requires svc.Valid()
    ensures svc.IsModelLoaded() <==>
              svc.classifier == Some(MockClassifier) && svc.dataStructure == Some(HeartDataset) &&
              svc.attributes == Some(HeartAttributes)
    ensures !svc.IsModelLoaded() <==> svc.classifier.None? && svc.dataStructure.None? && svc.attributes.None?
  {
  }

  /** For a service in either of its states, getModelInfo reports the same
      readiness as isModelLoaded. */
  lemma ModelInfoMatchesReadiness(svc: WekaModelService)
    requires svc.Valid()
    ensures svc.IsModelLoaded() <==> svc.GetModelInfo() == "MockClassifier (v1.0)"
    ensures !svc.IsModelLoaded() <==> svc.GetModelInfo() == "Model not loaded"
  {
  }
}
