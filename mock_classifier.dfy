/** The rule-based stand-in for a trained model (MockClassifier.java): a
    threshold rule over four features and a fixed confidence allocation. */
module Classification {

  /** A WEKA instance of the heart-disease data set, one field per attribute
      in data-set order (index 0 to 11). Numeric attributes hold the double
      WEKA stores; nominal ones keep the label they were set from. */
  datatype Instance = Instance(
    age: real,             // 0
    sex: string,           // 1
    chestPain: string,     // 2
    bloodPressure: real,   // 3
    cholesterol: real,     // 4
    fastingBS: string,     // 5
    restECG: string,       // 6
    maxHeartRate: real,    // 7
    exerciseAngina: string,// 8
    oldpeak: real,         // 9
    thallium: string,      // 10
    bmi: real)             // 11

  /** The classifiers the service can hold; the repository has one. */
  datatype Classifier = MockClassifier {
    /** `getClass().getSimpleName()`. */
    function SimpleName(): string {
      "MockClassifier"
    }
  }

  const NumClasses: nat := 3
  const PredictedConfidence: real := 0.85
  const RemainingConfidence: real := 0.15

  /** classifyInstance: the class index (0 Healthy, 1 Moderate Risk, 2 Severe
      Risk) chosen by the nested threshold rule. */
  function ClassifyInstance(x: Instance): (c: nat)
    ensures c < NumClasses
  {
    if x.age <= 50.0 then
      if x.cholesterol <= 200.0 then 0
      else if x.bloodPressure <= 130.0 then 1
      else 2
    else
      if x.maxHeartRate <= 130.0 then 2
      else 1
  }

  /** Two instances that agree on age, blood pressure, cholesterol and
      maximum heart rate get the same class, whatever their other features. */
  lemma OnlyFourFeaturesDecide(x: Instance, y: Instance)
    requires x.age == y.age && x.bloodPressure == y.bloodPressure
    requires x.cholesterol == y.cholesterol && x.maxHeartRate == y.maxHeartRate
    ensures ClassifyInstance(x) == ClassifyInstance(y)
  {
  }

  /** The decision regions, boundaries included in the lower branch. */
  lemma ClassifyRegions(x: Instance)
    ensures x.age <= 50.0 && x.cholesterol <= 200.0 ==> ClassifyInstance(x) == 0
    ensures x.age <= 50.0 && x.cholesterol > 200.0 ==>
              ClassifyInstance(x) == (if x.bloodPressure <= 130.0 then 1 else 2)
    ensures x.age > 50.0 ==> ClassifyInstance(x) == (if x.maxHeartRate <= 130.0 then 2 else 1)
    ensures ClassifyInstance(x) == 0 <==> x.age <= 50.0 && x.cholesterol <= 200.0
  {
  }

  /** The distribution distributionForInstance returns for predicted class
      `c`: 0.85 at `c`, the remaining 0.15 split evenly over the others. */
  function Distribution(c: nat): seq<real>
    requires c < NumClasses
  {
    seq(NumClasses, i requires 0 <= i < NumClasses =>
      if i == c then PredictedConfidence else RemainingConfidence / (NumClasses - 1) as real)
  }

  function Sum(s: seq<real>): real {
    if s == [] then 0.0 else s[0] + Sum(s[1..])
  }

  /** The distribution is a probability distribution whose unique maximum is
      the predicted class. */
  lemma DistributionIsProbability(c: nat)
    requires c < NumClasses
    ensures var d := Distribution(c);
            |d| == NumClasses && Sum(d) == 1.0 &&
            (forall i :: 0 <= i < |d| ==> d[i] >= 0.0) &&
            d[c] == 0.85 &&
            (forall i :: 0 <= i < |d| && i != c ==> d[i] == 0.075 && d[i] < d[c])
  {
    var d := Distribution(c);
    assert Sum(d[2..]) == d[2] by { assert d[2..][1..] == []; }
    assert Sum(d[1..]) == d[1] + Sum(d[2..]) by { assert d[1..][1..] == d[2..]; }
    assert Sum(d) == d[0] + d[1] + d[2];
  }

  /** distributionForInstance: a fresh three-slot array, the predicted slot
      set first and the others filled by the loop. */
  method DistributionForInstance(x: Instance) returns (d: array<real>)
    ensures fresh(d)
    ensures d[..] == Distribution(ClassifyInstance(x))
  {
    d := new real[NumClasses];
    var predicted := ClassifyInstance(x);
    d[predicted] := PredictedConfidence;
    var remaining := RemainingConfidence;
    for i := 0 to d.Length
      invariant d[predicted] == PredictedConfidence
      invariant forall j :: 0 <= j < i ==> d[j] == Distribution(predicted)[j]
    {
      if i != predicted {
        d[i] := remaining / (d.Length - 1) as real;
      }
    }
  }

  /** The instance-level result: the array's largest slot is the class
      classifyInstance returns for the same instance. */
  lemma ArgmaxIsPrediction(x: Instance)
    ensures var d := Distribution(ClassifyInstance(x)); var c := ClassifyInstance(x);
            forall i :: 0 <= i < NumClasses && d[i] >= d[c] ==> i == c
  {
    DistributionIsProbability(ClassifyInstance(x));
  }
}
