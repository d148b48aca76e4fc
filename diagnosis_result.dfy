/** The response body of a diagnosis (DiagnosisResult.java): a mutable record
    whose constructors stamp the model version and the clock. */
module Results {
  import opened Wrappers

  const ModelVersion: string := "v1.0"

  /** The values of a DiagnosisResult's fields at one moment; `None` is null.
      `labelText` is the Java field `label` (a reserved word in Dafny). */
  datatype ResultRecord = ResultRecord(
    labelText: Option<string>,
    scores: Option<map<string, real>>,
    explanation: Option<string>,
    modelVersion: Option<string>,
    timestamp: int)

  class DiagnosisResult {
    var labelText: Option<string>
    var scores: Option<map<string, real>>
    var explanation: Option<string>
    var modelVersion: Option<string>
    var timestamp: int

    /** What the getters return, all at once. */
    function Record(): ResultRecord
      reads this
    {
      ResultRecord(labelText, scores, explanation, modelVersion, timestamp)
    }

    /** The no-argument constructor: version "v1.0", timestamp `now` (the
        clock reading, passed in), everything else null. */
    constructor (now: int)
      ensures Record() == ResultRecord(None, None, None, Some(ModelVersion), now)
    {
      labelText, scores, explanation := None, None, None;
      modelVersion, timestamp := Some(ModelVersion), now;
    }

    /** The three-argument constructor: the given label, scores and
        explanation, and what the no-argument constructor sets. */
    constructor Of(labelText: Option<string>, scores: Option<map<string, real>>,
                   explanation: Option<string>, now: int)
      ensures Record() == ResultRecord(labelText, scores, explanation, Some(ModelVersion), now)
    {
      this.labelText, this.scores, this.explanation := labelText, scores, explanation;
      modelVersion, timestamp := Some(ModelVersion), now;
    }

    // Each setter changes its own field and nothing else.

    method SetLabel(v: Option<string>)
      modifies this
      ensures Record() == old(Record()).(labelText := v)
    { labelText := v; }

    method SetScores(v: Option<map<string, real>>)
      modifies this
      ensures Record() == old(Record()).(scores := v)
    { scores := v; }

    method SetExplanation(v: Option<string>)
      modifies this
      ensures Record() == old(Record()).(explanation := v)
    { explanation := v; }

    method SetModelVersion(v: Option<string>)
      modifies this
      ensures Record() == old(Record()).(modelVersion := v)
    { modelVersion := v; }

    method SetTimestamp(v: int)
      modifies this
      ensures Record() == old(Record()).(timestamp := v)
    { timestamp := v; }
  }
}
