/** The request body of a diagnosis (SymptomInput.java): thirteen nullable
    fields changed by setters, the range and enumeration constraints declared
    on them, and the derived body-mass index. */
module Symptoms {
  import opened Wrappers

  /** The values of a SymptomInput's fields at one moment; `None` is Java's null. */
  datatype Symptoms = Symptoms(
    age: Option<int>,
    sex: Option<string>,
    chestPain: Option<string>,
    bloodPressure: Option<int>,
    cholesterol: Option<int>,
    fastingBS: Option<int>,
    restECG: Option<string>,
    maxHeartRate: Option<int>,
    exerciseAngina: Option<string>,
    oldpeak: Option<real>,
    thallium: Option<string>,
    heightM: Option<real>,
    weightKg: Option<real>)

  const SexValues: set<string> := {"male", "female"}
  const ChestPainValues: set<string> := {"typical", "atypical", "non-anginal", "asymptomatic"}
  const RestEcgValues: set<string> := {"normal", "st-t-abnormality", "left-ventricular-hypertrophy"}
  const ExerciseAnginaValues: set<string> := {"yes", "no"}
  const ThalliumValues: set<string> := {"normal", "fixed-defect", "reversible-defect"}

  /** A present integer within the inclusive bounds of @Min/@Max. */
  predicate IntIn(v: Option<int>, lo: int, hi: int) {
    v.Some? && lo <= v.value <= hi
  }

  /** A present decimal within the inclusive bounds of @Min/@Max. */
  predicate RealIn(v: Option<real>, lo: real, hi: real) {
    v.Some? && lo <= v.value <= hi
  }

  /** A present string matching one of the alternatives of its @Pattern
      (@NotBlank rules out null). */
  predicate OneOf(v: Option<string>, values: set<string>) {
    v.Some? && v.value in values
  }

  /** The bean-validation constraints declared on the fields: what `@Valid`
      admits before the controller sees the input. */
  predicate Valid(s: Symptoms) {
    && IntIn(s.age, 1, 120)
    && OneOf(s.sex, SexValues)
    && OneOf(s.chestPain, ChestPainValues)
    && IntIn(s.bloodPressure, 50, 300)
    && IntIn(s.cholesterol, 100, 600)
    && IntIn(s.fastingBS, 0, 1)
    && OneOf(s.restECG, RestEcgValues)
    && IntIn(s.maxHeartRate, 60, 220)
    && OneOf(s.exerciseAngina, ExerciseAnginaValues)
    && RealIn(s.oldpeak, 0.0, 10.0)
    && OneOf(s.thallium, ThalliumValues)
    && RealIn(s.heightM, 0.0, 3.0)
    && RealIn(s.weightKg, 10.0, 500.0)
  }

  /** Valid with the height strictly positive, as the message of the height's
      lower bound ("Height must be positive") intends. */
  predicate ValidPositiveHeight(s: Symptoms) {
    Valid(s) && s.heightM.value > 0.0
  }

  /** getBmi: weight over height squared, absent unless both are present and
      the height is positive. */
  function Bmi(s: Symptoms): (bmi: Option<real>)
    ensures bmi.Some? <==> s.heightM.Some? && s.weightKg.Some? && s.heightM.value > 0.0
    ensures bmi.Some? ==> bmi.value * s.heightM.value * s.heightM.value == s.weightKg.value
  {
    if s.heightM.Some? && s.weightKg.Some? && s.heightM.value > 0.0 then
      Some(s.weightKg.value / (s.heightM.value * s.heightM.value))
    else
      None
  }

  /** Every numeric constraint is inclusive at both ends: each declared bound
      is itself valid and one step beyond it is not. */
  lemma ValidBoundaries(s: Symptoms)
    requires Valid(s)
    ensures Valid(s.(age := Some(1))) && Valid(s.(age := Some(120)))
    ensures !Valid(s.(age := Some(0))) && !Valid(s.(age := Some(121)))
    ensures Valid(s.(bloodPressure := Some(50))) && Valid(s.(bloodPressure := Some(300)))
    ensures !Valid(s.(bloodPressure := Some(49))) && !Valid(s.(bloodPressure := Some(301)))
    ensures Valid(s.(cholesterol := Some(100))) && Valid(s.(cholesterol := Some(600)))
    ensures !Valid(s.(cholesterol := Some(99))) && !Valid(s.(cholesterol := Some(601)))
    ensures Valid(s.(fastingBS := Some(0))) && Valid(s.(fastingBS := Some(1)))
    ensures !Valid(s.(fastingBS := Some(-1))) && !Valid(s.(fastingBS := Some(2)))
    ensures Valid(s.(maxHeartRate := Some(60))) && Valid(s.(maxHeartRate := Some(220)))
    ensures !Valid(s.(maxHeartRate := Some(59))) && !Valid(s.(maxHeartRate := Some(221)))
    ensures Valid(s.(oldpeak := Some(0.0))) && Valid(s.(oldpeak := Some(10.0)))
    ensures !Valid(s.(oldpeak := Some(-0.1))) && !Valid(s.(oldpeak := Some(10.1)))
    ensures Valid(s.(heightM := Some(0.0))) && Valid(s.(heightM := Some(3.0)))
    ensures !Valid(s.(heightM := Some(-0.1))) && !Valid(s.(heightM := Some(3.1)))
    ensures Valid(s.(weightKg := Some(10.0))) && Valid(s.(weightKg := Some(500.0)))
    ensures !Valid(s.(weightKg := Some(9.9))) && !Valid(s.(weightKg := Some(500.1)))
  {
  }

  /** Each enumerated field admits exactly its listed spellings: every listed
      value is valid, while null, a different case or a value from another
      field's list is not. */
  lemma ValidEnumerations(s: Symptoms)
    requires Valid(s)
    ensures Valid(s.(sex := Some("male"))) && Valid(s.(sex := Some("female")))
    ensures !Valid(s.(sex := Some("Male"))) && !Valid(s.(sex := None))
    ensures forall v :: v in ChestPainValues ==> Valid(s.(chestPain := Some(v)))
    ensures !Valid(s.(chestPain := Some("Typical"))) && !Valid(s.(chestPain := None))
    ensures forall v :: v in RestEcgValues ==> Valid(s.(restECG := Some(v)))
    ensures !Valid(s.(restECG := Some("abnormal"))) && !Valid(s.(restECG := None))
    ensures Valid(s.(exerciseAngina := Some("yes"))) && Valid(s.(exerciseAngina := Some("no")))
    ensures !Valid(s.(exerciseAngina := Some("true"))) && !Valid(s.(exerciseAngina := None))
    ensures forall v :: v in ThalliumValues ==> Valid(s.(thallium := Some(v)))
    ensures !Valid(s.(thallium := Some("normal "))) && !Valid(s.(thallium := None))
  {
  }

  /** The SymptomInput bean. The default constructor leaves every field null. */
  class SymptomInput {
    var age: Option<int>
    var sex: Option<string>
    var chestPain: Option<string>
    var bloodPressure: Option<int>
    var cholesterol: Option<int>
    var fastingBS: Option<int>
    var restECG: Option<string>
    var maxHeartRate: Option<int>
    var exerciseAngina: Option<string>
    var oldpeak: Option<real>
    var thallium: Option<string>
    var heightM: Option<real>
    var weightKg: Option<real>

    /** What the getters return, all at once. */
    function Snapshot(): Symptoms
      reads this
    {
      Symptoms(age, sex, chestPain, bloodPressure, cholesterol, fastingBS, restECG,
               maxHeartRate, exerciseAngina, oldpeak, thallium, heightM, weightKg)
    }

    constructor ()
      ensures Snapshot() == Symptoms(None, None, None, None, None, None, None,
                                     None, None, None, None, None, None)
    {
      age, sex, chestPain, bloodPressure, cholesterol := None, None, None, None, None;
      fastingBS, restECG, maxHeartRate, exerciseAngina := None, None, None, None;
      oldpeak, thallium, heightM, weightKg := None, None, None, None;
    }

    /** getBmi on the current field values. */
    function GetBmi(): Option<real>
      reads this
    {
      Bmi(Snapshot())
    }

    // Each setter changes its own field and nothing else, so the matching
    // getter (a field of Snapshot) returns the value last set.

    method SetAge(v: Option<int>)
      modifies this
      ensures Snapshot() == old(Snapshot()).(age := v)
    { age := v; }

    method SetSex(v: Option<string>)
      modifies this
      ensures Snapshot() == old(Snapshot()).(sex := v)
    { sex := v; }

    method SetChestPain(v: Option<string>)
      modifies this
      ensures Snapshot() == old(Snapshot()).(chestPain := v)
    { chestPain := v; }

    method SetBloodPressure(v: Option<int>)
      modifies this
      ensures Snapshot() == old(Snapshot()).(bloodPressure := v)
    { bloodPressure := v; }

    method SetCholesterol(v: Option<int>)
      modifies this
      ensures Snapshot() == old(Snapshot()).(cholesterol := v)
    { cholesterol := v; }

    method SetFastingBS(v: Option<int>)
      modifies this
      ensures Snapshot() == old(Snapshot()).(fastingBS := v)
    { fastingBS := v; }

    method SetRestECG(v: Option<string>)
      modifies this
      ensures Snapshot() == old(Snapshot()).(restECG := v)
    { restECG := v; }

    method SetMaxHeartRate(v: Option<int>)
      modifies this
      ensures Snapshot() == old(Snapshot()).(maxHeartRate := v)
    { maxHeartRate := v; }

    method SetExerciseAngina(v: Option<string>)
      modifies this
      ensures Snapshot() == old(Snapshot()).(exerciseAngina := v)
    { exerciseAngina := v; }

    method SetOldpeak(v: Option<real>)
      modifies this
      ensures Snapshot() == old(Snapshot()).(oldpeak := v)
    { oldpeak := v; }

    method SetThallium(v: Option<string>)
      modifies this
      ensures Snapshot() == old(Snapshot()).(thallium := v)
    { thallium := v; }

    method SetHeightM(v: Option<real>)
      modifies this
      ensures Snapshot() == old(Snapshot()).(heightM := v)
    { heightM := v; }

    method SetWeightKg(v: Option<real>)
      modifies this
      ensures Snapshot() == old(Snapshot()).(weightKg := v)
    { weightKg := v; }
  }
}
