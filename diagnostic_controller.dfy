/** The REST controller (DiagnosticController.java): the diagnose endpoint's
    branching over readiness and exceptions, the error result, and the health
    and model-info maps. HTTP status codes stand for the ResponseEntity kinds. */
module Controller {
  import opened Wrappers
  import opened Symptoms
  import opened Results
  import opened ModelService

  /** A ResponseEntity: status code and body. */
  datatype Response<T> = Response(status: int, body: T)

  const StatusOk: int := 200
  const StatusInternalServerError: int := 500

  /** The values a health map holds (a String, a Boolean, a long). */
  datatype JsonValue = JString(str: string) | JBool(flag: bool) | JNumber(num: int)

  const NotLoadedMessage: string := "Model not loaded. Please try again later."
  const FailurePrefix: string := "Diagnosis failed: "

  /** The scores of an error result: every class at 0.0. */
  const ErrorScores: map<string, real> := map["Healthy" := 0.0, "Moderate Risk" := 0.0, "Severe Risk" := 0.0]

  /** The fields of an error result carrying `message`, created at `now`. */
  function ErrorRecord(message: string, now: int): ResultRecord {
    ResultRecord(Some("Error"), Some(ErrorScores), Some(message), Some(ModelVersion), now)
  }

  /** The fields of the result classify returns for a verdict. */
  function VerdictRecord(v: Verdict, now: int): ResultRecord {
    ResultRecord(Some(v.predictedLabel), Some(v.scores), Some(v.explanation), Some(ModelVersion), now)
  }

  /** An error result has the same keys as a real score map, all at zero, and
      its label is none of the class names. */
  lemma ErrorScoresShape(d: seq<real>)
    requires |d| == 3
    ensures ErrorScores.Keys == ScoreMap(d).Keys
    ensures forall k :: k in ErrorScores ==> ErrorScores[k] == 0.0
    ensures "Error" !in ClassValues
  {
    ScoreMapShape(d);
  }

  class DiagnosticController {
    var service: WekaModelService

    constructor (service: WekaModelService)
      ensures this.service == service
    {
      this.service := service;
    }

    /** diagnose: the not-loaded error without classifying, otherwise the
        service's result as it is, or the error built from its exception. */
    method Diagnose(input: SymptomInput, now: int) returns (resp: Response<DiagnosisResult>)
      requires service.Valid()
      ensures fresh(resp.body)
      ensures !service.IsModelLoaded() ==>
                resp.status == StatusInternalServerError &&
                resp.body.Record() == ErrorRecord(NotLoadedMessage, now)
      ensures service.IsModelLoaded() && Diagnosis(input.Snapshot()).Failure? ==>
                resp.status == StatusInternalServerError &&
                resp.body.Record() ==
                  ErrorRecord(FailurePrefix + FaultMessage(Diagnosis(input.Snapshot()).error), now)
      ensures service.IsModelLoaded() && Diagnosis(input.Snapshot()).Success? ==>
                resp.status == StatusOk &&
                resp.body.Record() == VerdictRecord(Diagnosis(input.Snapshot()).value, now)
    {
      if !service.IsModelLoaded() {
        var error := CreateErrorResult(NotLoadedMessage, now);
        return Response(StatusInternalServerError, error);
      }
      var result := service.Classify(input, now);
      match result {
        case Success(r) =>
          return Response(StatusOk, r);
        case Failure(f) =>
          var error := CreateErrorResult(FailurePrefix + FaultMessage(f), now);
          return Response(StatusInternalServerError, error);
      }
    }

    /** createErrorResult: label "Error", the message as explanation, zero scores. */
    method CreateErrorResult(message: string, now: int) returns (r: DiagnosisResult)
      ensures fresh(r) && r.Record() == ErrorRecord(message, now)
    {
      r := new DiagnosisResult(now);
      r.SetLabel(Some("Error"));
      r.SetExplanation(Some(message));
      var errorScores: map<string, real> := map[];
      errorScores := errorScores["Healthy" := 0.0];
      errorScores := errorScores["Moderate Risk" := 0.0];
      errorScores := errorScores["Severe Risk" := 0.0];
      r.SetScores(Some(errorScores));
    }

    /** health: always "UP", with the service's readiness and description
        and the clock reading `now`. */
    method Health(now: int) returns (resp: Response<map<string, JsonValue>>)
      ensures resp.status == StatusOk
      ensures resp.body.Keys == {"status", "modelLoaded", "modelInfo", "timestamp"}
      ensures resp.body["status"] == JString("UP")
      ensures resp.body["modelLoaded"] == JBool(service.IsModelLoaded())
      ensures resp.body["modelInfo"] == JString(service.GetModelInfo())
      ensures resp.body["timestamp"] == JNumber(now)
    {
      var health: map<string, JsonValue> := map[];
      health := health["status" := JString("UP")];
      health := health["modelLoaded" := JBool(service.IsModelLoaded())];
      health := health["modelInfo" := JString(service.GetModelInfo())];
      health := health["timestamp" := JNumber(now)];
      return Response(StatusOk, health);
    }

    /** modelInfo: the description, "loaded" or "not loaded", version "v1.0". */
    method ModelInfo() returns (resp: Response<map<string, string>>)
      ensures resp.status == StatusOk
      ensures resp.body.Keys == {"modelType", "status", "version"}
      ensures resp.body["modelType"] == service.GetModelInfo()
      ensures resp.body["status"] == (if service.IsModelLoaded() then "loaded" else "not loaded")
      ensures resp.body["version"] == ModelVersion
    {
      var info: map<string, string> := map[];
      info := info["modelType" := service.GetModelInfo()];
      info := info["status" := if service.IsModelLoaded() then "loaded" else "not loaded"];
      info := info["version" := "v1.0"];
      return Response(StatusOk, info);
    }
  }

  /** Once the service is initialised, a valid input with a positive height
      gets status 200 and a label among the class names; with height 0 it gets
      the failure result instead. */
  lemma DiagnoseOutcomeOfValidInput(s: Symptoms)
    requires Valid(s)
    ensures s.heightM.value > 0.0 ==> Diagnosis(s).Success? && Diagnosis(s).value.predictedLabel in ClassValues
    ensures s.heightM.value == 0.0 ==> Diagnosis(s) == Failure(NullValue("bmi"))
  {
    ValidInputClassifiedIffPositiveHeight(s);
    if s.heightM.value > 0.0 {
      DiagnosisScores(s);
    }
  }
}
