# Heart diagnostic system: a verified model of its core

This project models the diagnosis path of the heart diagnostic system.

Back end:
- A `SymptomInput` bean of thirteen nullable fields, with bean-validation constraints.
- A rule-based `MockClassifier` standing in for a trained WEKA model.
- `WekaModelService`. It builds a WEKA instance from the input, classifies it, builds the score map and writes the textual explanation.
- A `DiagnosisResult` record.
- The `DiagnosticController` endpoints: diagnose, health and model info.

Front end:
- The `useErrorHandler` composable. It keeps the list of displayed errors and the loading flags, and turns a failed API call into an error.
- The router's `beforeEach` guard.

Java's `null` is `None` of an `Option`. A thrown exception is the `Failure` of a `Result`, carrying a `Fault`. Numbers are mathematical integers and reals. Objects whose fields the source updates become classes. The two beans, `SymptomInput` and `DiagnosisResult`, have a snapshot function (`Snapshot`, `Record`) that their setters are specified against. `WekaModelService` and `ErrorHandler` state their new fields directly, and `DiagnosticController` changes no field of its own. The rest becomes datatypes and functions.

The model follows the code in three places where its behaviour differs from what a reader might expect:
- An absent BMI does not give a degraded answer. `setValue` on the null BMI throws, and the controller answers with an error result.
- Blood pressure 140 does not count as "high blood pressure". The test is strictly `> 140`.
- `fastingBS` is an `Integer`, and `exerciseAngina` is a string `"yes"`/`"no"`. Neither is a boolean.

## Model

| member | source | states |
|---|---|---|
| Symptoms.Valid | backend/src/main/java/com/heartdiagnostic/service/model/SymptomInput.java:8-77 | the declared constraints: every field present, inclusive numeric bounds, enumerated strings |
| Symptoms.ValidBoundaries | backend/src/main/java/com/heartdiagnostic/service/model/SymptomInput.java:8-77 | for each of the eight numeric fields, both declared bounds are valid and one step outside either bound is not (age 0/121, pressure 49/301, cholesterol 99/601, fastingBS −1/2, heart rate 59/221, oldpeak −0.1/10.1, height −0.1/3.1, weight 9.9/500.1) |
| Symptoms.ValidEnumerations | backend/src/main/java/com/heartdiagnostic/service/model/SymptomInput.java:13-65 | every listed value of the five enumerated fields is valid; null, another letter case, or an unlisted value is not |
| Symptoms.Bmi | backend/src/main/java/com/heartdiagnostic/service/model/SymptomInput.java:123-128 | `getBmi` (the class's `GetBmi` applies it to the current fields): present exactly when height and weight are present and height > 0; then bmi·h·h equals the weight |
| Symptoms.SymptomInput.constructor | backend/src/main/java/com/heartdiagnostic/service/model/SymptomInput.java:80 | every field is null |
| Symptoms.SymptomInput.SetAge | backend/src/main/java/com/heartdiagnostic/service/model/SymptomInput.java:84 | only `age` changes, to the given value |
| Symptoms.SymptomInput.SetSex | backend/src/main/java/com/heartdiagnostic/service/model/SymptomInput.java:87 | only `sex` changes, to the given value |
| Symptoms.SymptomInput.SetChestPain | backend/src/main/java/com/heartdiagnostic/service/model/SymptomInput.java:90 | only `chestPain` changes, to the given value |
| Symptoms.SymptomInput.SetBloodPressure | backend/src/main/java/com/heartdiagnostic/service/model/SymptomInput.java:93 | only `bloodPressure` changes, to the given value |
| Symptoms.SymptomInput.SetCholesterol | backend/src/main/java/com/heartdiagnostic/service/model/SymptomInput.java:96 | only `cholesterol` changes, to the given value |
| Symptoms.SymptomInput.SetFastingBS | backend/src/main/java/com/heartdiagnostic/service/model/SymptomInput.java:99 | only `fastingBS` changes, to the given value |
| Symptoms.SymptomInput.SetRestECG | backend/src/main/java/com/heartdiagnostic/service/model/SymptomInput.java:102 | only `restECG` changes, to the given value |
| Symptoms.SymptomInput.SetMaxHeartRate | backend/src/main/java/com/heartdiagnostic/service/model/SymptomInput.java:105 | only `maxHeartRate` changes, to the given value |
| Symptoms.SymptomInput.SetExerciseAngina | backend/src/main/java/com/heartdiagnostic/service/model/SymptomInput.java:108 | only `exerciseAngina` changes, to the given value |
| Symptoms.SymptomInput.SetOldpeak | backend/src/main/java/com/heartdiagnostic/service/model/SymptomInput.java:111 | only `oldpeak` changes, to the given value |
| Symptoms.SymptomInput.SetThallium | backend/src/main/java/com/heartdiagnostic/service/model/SymptomInput.java:114 | only `thallium` changes, to the given value |
| Symptoms.SymptomInput.SetHeightM | backend/src/main/java/com/heartdiagnostic/service/model/SymptomInput.java:117 | only `heightM` changes, to the given value |
| Symptoms.SymptomInput.SetWeightKg | backend/src/main/java/com/heartdiagnostic/service/model/SymptomInput.java:120 | only `weightKg` changes, to the given value |
| Classification.ClassifyInstance | backend/src/main/java/com/heartdiagnostic/service/service/MockClassifier.java:14-37 | the class index is one of the three classes |
| Classification.ClassifyRegions | backend/src/main/java/com/heartdiagnostic/service/service/MockClassifier.java:22-36 | the decision regions, boundaries in the lower branch; class 0 exactly when age ≤ 50 and cholesterol ≤ 200 |
| Classification.OnlyFourFeaturesDecide | backend/src/main/java/com/heartdiagnostic/service/service/MockClassifier.java:16-19 | instances agreeing on age, blood pressure, cholesterol and maximum heart rate get the same class |
| Classification.DistributionIsProbability | backend/src/main/java/com/heartdiagnostic/service/service/MockClassifier.java:40-52 | `Distribution`, the array's contents: three slots, non-negative, summing to 1; 0.85 at the predicted class; 0.075 and strictly smaller elsewhere |
| Classification.DistributionForInstance | backend/src/main/java/com/heartdiagnostic/service/service/MockClassifier.java:39-55 | a fresh array whose contents are the distribution of the instance's predicted class |
| Classification.ArgmaxIsPrediction | backend/src/main/java/com/heartdiagnostic/service/service/MockClassifier.java:41-44 | the largest slot of the distribution is the class classifyInstance returns, and only that slot is largest |
| Text.NatToString | backend/src/main/java/com/heartdiagnostic/service/service/WekaModelService.java:81 | `Integer.toString` of a natural: non-empty, all digits, no leading zero |
| Text.NatToStringRoundTrip | backend/src/main/java/com/heartdiagnostic/service/service/WekaModelService.java:81 | reading the decimal digits back gives the number |
| Text.RoundTenths | backend/src/main/java/com/heartdiagnostic/service/service/WekaModelService.java:137 | `%.1f` rounding: the chosen number of tenths is within half a tenth of the value, halves upwards |
| Text.TenthsToStringParses | backend/src/main/java/com/heartdiagnostic/service/service/WekaModelService.java:137 | the rendering is the whole part, a point and one digit, and reads back as the number of tenths |
| Text.FormatWholeTenths | backend/src/main/java/com/heartdiagnostic/service/service/WekaModelService.java:137 | `FormatFixed1`: a value that is a whole number of tenths is printed exactly |
| Text.JoinAppend | backend/src/main/java/com/heartdiagnostic/service/service/WekaModelService.java:132 | `Join`, as `String.join`: joining one more part appends the separator and that part |
| Text.JoinContainsParts | backend/src/main/java/com/heartdiagnostic/service/service/WekaModelService.java:132 | every part occurs in the joined text |
| Text.JoinTwo | backend/src/main/java/com/heartdiagnostic/service/service/WekaModelService.java:132 | joining two parts puts the separator between them |
| ModelService.ClassLabel | backend/src/main/java/com/heartdiagnostic/service/service/WekaModelService.java:62-67 | the class attribute's i-th value is the i-th of Healthy, Moderate Risk, Severe Risk |
| ModelService.BuildInstance | backend/src/main/java/com/heartdiagnostic/service/service/WekaModelService.java:76-87 | a built instance carries the input's age, pressure, cholesterol and heart rate as doubles and the input's BMI; every field it unboxes was present |
| ModelService.FactorsUpTo | backend/src/main/java/com/heartdiagnostic/service/service/WekaModelService.java:119-129 | the first n factor tests list at most n phrases |
| ModelService.FactorPhrasesDistinct | backend/src/main/java/com/heartdiagnostic/service/service/WekaModelService.java:121-128 | the seven phrases are pairwise distinct |
| ModelService.FactorsUpToMembership | backend/src/main/java/com/heartdiagnostic/service/service/WekaModelService.java:119-129 | a phrase is listed exactly when its factor holds; nothing else is listed; phrases keep the test order |
| ModelService.RiskFactorMembership | backend/src/main/java/com/heartdiagnostic/service/service/WekaModelService.java:119-129 | `RiskFactors` and `HasFactor`: the k-th phrase is in the risk factors exactly when the k-th test holds |
| ModelService.RiskFactorBoundaries | backend/src/main/java/com/heartdiagnostic/service/service/WekaModelService.java:121-126 | the thresholds are strict: age 65, pressure 140, cholesterol 240 and ST depression 2.0 add no factor; age 66 does |
| ModelService.ScoreMapShape | backend/src/main/java/com/heartdiagnostic/service/service/WekaModelService.java:97-101 | `ScoreMap`: the score map's keys are exactly the three class names, each bound to its own slot |
| ModelService.DiagnosisScores | backend/src/main/java/com/heartdiagnostic/service/service/WekaModelService.java:70-107 | `Diagnosis`: a successful diagnosis scores exactly the three classes; the scores are non-negative and sum to 1; the label alone holds the largest score; the explanation uses confidence 0.85 |
| ModelService.MockConfidenceText | backend/src/main/java/com/heartdiagnostic/service/service/WekaModelService.java:137 | 0.85 is printed as "85.0" and the confidence sentence is ". Confidence: 85.0%" |
| ModelService.ExplanationMentions | backend/src/main/java/com/heartdiagnostic/service/service/WekaModelService.java:131-137 | `ExplanationText`: every listed factor occurs in the text; with none listed it says "No major risk factors identified" |
| ModelService.NoFactorsUpTo | backend/src/main/java/com/heartdiagnostic/service/service/WekaModelService.java:119-129 | an input with no factor present gets an empty factor list |
| ModelService.DiagnosisMentionsRiskFactors | backend/src/main/java/com/heartdiagnostic/service/service/WekaModelService.java:116-139 | every risk factor the input has is named in its explanation |
| ModelService.DiagnosisMentionsNoFactors | backend/src/main/java/com/heartdiagnostic/service/service/WekaModelService.java:131-135 | an input without risk factors is told that none were identified |
| ModelService.DiagnosisExplanation | backend/src/main/java/com/heartdiagnostic/service/service/WekaModelService.java:116-139 | every explanation is the prefix, the factor sentence and ". Confidence: 85.0%" |
| ModelService.ValidInputClassifiedIffPositiveHeight | backend/src/main/java/com/heartdiagnostic/service/model/SymptomInput.java:67-69 | a valid input is classified exactly when its height is positive; with height 0 the diagnosis fails on the null BMI |
| ModelService.ZeroHeightIsValidButFails | backend/src/main/java/com/heartdiagnostic/service/model/SymptomInput.java:68 | the test input with height 0 passes validation yet fails in classify |
| ModelService.PositiveHeightInputsAreClassified | backend/src/main/java/com/heartdiagnostic/service/model/SymptomInput.java:68 | with the intended strictly positive height, every valid input is classified |
| ModelService.ControllerTestFactors | backend/src/test/java/com/heartdiagnostic/service/DiagnosticControllerTest.java:84-100 | the test input's risk factors are elevated blood sugar and significant ST depression, in that order |
| ModelService.ControllerTestBuilds | backend/src/test/java/com/heartdiagnostic/service/DiagnosticControllerTest.java:84-100 | the test input builds an instance |
| ModelService.ControllerTestLabel | backend/src/test/java/com/heartdiagnostic/service/DiagnosticControllerTest.java:84-100 | the real service labels the test input Severe Risk, not the mocked Moderate Risk |
| ModelService.TwoFactorSentence | backend/src/main/java/com/heartdiagnostic/service/service/WekaModelService.java:131-132 | the factor sentence of two factors joins them with ", " |
| ModelService.ControllerTestExplanation | backend/src/test/java/com/heartdiagnostic/service/DiagnosticControllerTest.java:84-100 | the full explanation text the real service gives the test input |
| ModelService.WekaModelService.constructor | backend/src/main/java/com/heartdiagnostic/service/service/WekaModelService.java:28-30 | before initialisation no field is set |
| ModelService.WekaModelService.InitializeModel | backend/src/main/java/com/heartdiagnostic/service/service/WekaModelService.java:33-42 | installs the mock classifier, the attribute list and the data-set header; the model is then loaded |
| ModelService.WekaModelService.CreateDataStructure | backend/src/main/java/com/heartdiagnostic/service/service/WekaModelService.java:44-68 | the thirteen attributes in training order, class last; relation "HeartDisease" with class index 12; classifier unchanged |
| ModelService.WekaModelService.Classify | backend/src/main/java/com/heartdiagnostic/service/service/WekaModelService.java:70-107 | before initialisation it fails on the null structure; once loaded it fails exactly when the specification fails, with the same fault; otherwise a fresh result with the specified label, scores and explanation, version v1.0, stamped now |
| ModelService.WekaModelService.GenerateExplanation | backend/src/main/java/com/heartdiagnostic/service/service/WekaModelService.java:109-140 | the text is the explanation of the input's risk factors at the predicted label's score |
| ModelService.LoadedIffInitialised | backend/src/main/java/com/heartdiagnostic/service/service/WekaModelService.java:142-144 | `IsModelLoaded` holds exactly in the state initializeModel leaves; otherwise no field is set |
| ModelService.ModelInfoMatchesReadiness | backend/src/main/java/com/heartdiagnostic/service/service/WekaModelService.java:146-151 | `GetModelInfo` reports "MockClassifier (v1.0)" exactly when the model is loaded, "Model not loaded" otherwise |
| Results.DiagnosisResult.constructor | backend/src/main/java/com/heartdiagnostic/service/model/DiagnosisResult.java:14-17 | version v1.0, timestamp now, all else null |
| Results.DiagnosisResult.Of | backend/src/main/java/com/heartdiagnostic/service/model/DiagnosisResult.java:19-24 | the given label, scores and explanation, plus version v1.0 and timestamp now |
| Results.DiagnosisResult.SetLabel | backend/src/main/java/com/heartdiagnostic/service/model/DiagnosisResult.java:28 | only the label changes |
| Results.DiagnosisResult.SetScores | backend/src/main/java/com/heartdiagnostic/service/model/DiagnosisResult.java:31 | only the scores change |
| Results.DiagnosisResult.SetExplanation | backend/src/main/java/com/heartdiagnostic/service/model/DiagnosisResult.java:34 | only the explanation changes |
| Results.DiagnosisResult.SetModelVersion | backend/src/main/java/com/heartdiagnostic/service/model/DiagnosisResult.java:37 | only the model version changes |
| Results.DiagnosisResult.SetTimestamp | backend/src/main/java/com/heartdiagnostic/service/model/DiagnosisResult.java:40 | only the timestamp changes |
| Controller.ErrorScoresShape | backend/src/main/java/com/heartdiagnostic/service/controller/DiagnosticController.java:67-70 | an error result scores the same three keys as a real one, all 0.0, and its label "Error" is no class name |
| Controller.DiagnosticController.constructor | backend/src/main/java/com/heartdiagnostic/service/controller/DiagnosticController.java:19-20 | holds the injected service |
| Controller.DiagnosticController.Diagnose | backend/src/main/java/com/heartdiagnostic/service/controller/DiagnosticController.java:22-39 | not loaded: status 500 with the not-loaded error result; classify throws: 500 with "Diagnosis failed: " and the message; otherwise 200 with the service's result |
| Controller.DiagnosticController.CreateErrorResult | backend/src/main/java/com/heartdiagnostic/service/controller/DiagnosticController.java:62-74 | a fresh result labelled "Error", the message as explanation, zero scores, version v1.0 |
| Controller.DiagnosticController.Health | backend/src/main/java/com/heartdiagnostic/service/controller/DiagnosticController.java:41-50 | status 200; exactly the keys status "UP", modelLoaded, modelInfo and timestamp, taken from the service and the clock |
| Controller.DiagnosticController.ModelInfo | backend/src/main/java/com/heartdiagnostic/service/controller/DiagnosticController.java:52-60 | status 200; exactly modelType, status ("loaded"/"not loaded" by readiness) and version "v1.0" |
| Controller.DiagnoseOutcomeOfValidInput | backend/src/main/java/com/heartdiagnostic/service/controller/DiagnosticController.java:23-38 | a valid input with positive height is classified with a label among the class names; with height 0 it meets the null-BMI fault |
| ErrorHandling.FindIndex | frontend/src/composables/useErrorHandler.ts:44 | -1 exactly when no error has the id; otherwise the first index holding it |
| ErrorHandling.RemoveFirstAbsent | frontend/src/composables/useErrorHandler.ts:43-48 | removing an absent id leaves the list unchanged |
| ErrorHandling.RemoveFirstAt | frontend/src/composables/useErrorHandler.ts:43-48 | removing a present id deletes exactly its first occurrence and keeps the rest in order |
| ErrorHandling.SetLoadingEffect | frontend/src/composables/useErrorHandler.ts:54-71 | after setting, the key is loading with its message and something is loading; after clearing, a non-empty key is not loading and has no message; other keys are unaffected |
| ErrorHandling.LoadingQueries | frontend/src/composables/useErrorHandler.ts:54-71 | `IsLoading` and `GetLoadingMessage`: setLoading keeps every entry loading; then a non-empty key is loading exactly when present; the empty key asks about the whole map, as no key does; a loading key means something is loading; a key with a message is loading |
| ErrorHandling.ClearLastLoading | frontend/src/composables/useErrorHandler.ts:58-66 | clearing the only loading key leaves nothing loading |
| ErrorHandling.StatusKinds | frontend/src/composables/useErrorHandler.ts:86-151 | `StatusInfo`: validation exactly for 400 and 422, auth exactly for 401 and 403, server for every other status |
| ErrorHandling.ApiErrorActions | frontend/src/composables/useErrorHandler.ts:81-168 | Login only for 401; Retry exactly for 429, 500 and a request without response; no action exactly for every other status and the unknown-error branch |
| ErrorHandling.UnlistedStatusMessage | frontend/src/composables/useErrorHandler.ts:147-150 | an unlisted status is a server error with the message "Server error (<status>)" |
| ErrorHandling.ApiErrorFallbacks | frontend/src/composables/useErrorHandler.ts:81-190 | `StatusInfo`, `ApiErrorInfo` and handleNetworkError's details: an absent or "" text falls back to the fixed default, a non-empty one is used unchanged (400 message and details, 422 details, unlisted-status details, unknown-error message, context, network details) |
| ErrorHandling.ApiErrorDismissal | frontend/src/composables/useErrorHandler.ts:33-38 | an API error disappears by itself exactly when there was no response, or the status was 400 or 422 |
| ErrorHandling.ErrorHandler.constructor | frontend/src/composables/useErrorHandler.ts:20-21 | no errors and no loading states |
| ErrorHandling.ErrorHandler.AddError | frontend/src/composables/useErrorHandler.ts:24-41 | appends exactly one error with the given fields and id and returns the id; loading states unchanged |
| ErrorHandling.ErrorHandler.RemoveError | frontend/src/composables/useErrorHandler.ts:43-48 | the list loses its first error with the id, one element shorter exactly when the id was present |
| ErrorHandling.ErrorHandler.ClearAllErrors | frontend/src/composables/useErrorHandler.ts:50-52 | no errors remain; loading states unchanged |
| ErrorHandling.ErrorHandler.SetLoading | frontend/src/composables/useErrorHandler.ts:54-60 | sets the key to loading with the message, or deletes it |
| ErrorHandling.ErrorHandler.HandleApiError | frontend/src/composables/useErrorHandler.ts:73-176 | appends the error ApiErrorInfo describes for the failure and its context |
| ErrorHandling.ErrorHandler.HandleValidationError | frontend/src/composables/useErrorHandler.ts:178-184 | appends a validation error "<field>: <message>" with the fixed details text |
| ErrorHandling.ErrorHandler.HandleNetworkError | frontend/src/composables/useErrorHandler.ts:186-198 | appends a network error with a Retry action; the context, when truthy, as details |
| ErrorHandling.ErrorHandler.WithErrorHandling | frontend/src/composables/useErrorHandler.ts:200-221 | success: the value and no new error; failure: None and the handleApiError error; either way a truthy loading key is cleared |
| Router.MetaOfIgnoresTrailingSlash | frontend/src/router/index.ts:41-44 | `MetaOf` matches like the default, non-strict matcher: a trailing '/' reaches the same route |
| Router.MetaOfIgnoresCase | frontend/src/router/index.ts:41-44 | `MetaOf` matches like the default, case-insensitive matcher: paths differing only in letter case reach the same route |
| Router.VariantPathsGuarded | frontend/src/router/index.ts:41-70 | a signed-out user asking for "/Diagnose", "/diagnose/" or "/HISTORY/" is still sent to "/login" |
| Router.MetaOfTable | frontend/src/router/index.ts:9-39 | the route table's meta flags: "/" none, "/login" and "/register" guest-only, "/diagnose" and "/history" auth-only |
| Router.DecideCases | frontend/src/router/index.ts:69-75 | `Decide`: to "/login" exactly when auth is required and missing; to "/" exactly when a signed-in user opens a guest page; on otherwise |
| Router.RedirectSettles | frontend/src/router/index.ts:69-75 | the target of a redirect lets the same session through, so no redirect loop |
| Router.RouteTableDecisions | frontend/src/router/index.ts:9-39 | signed-out users go from the protected pages to "/login"; signed-in users go from the guest pages to "/"; "/" is always open |
| Router.GuardOutcome | frontend/src/router/index.ts:47-76 | `BeforeEach` and `Navigate`: the guard defers exactly while loading, and a navigation that waited ends where one started in the first settled state ends |
| Router.DeferredDecision | frontend/src/router/index.ts:51-66 | `AfterChanges`: a deferred guard makes the immediate decision on the first state in which loading is over; later changes do not matter |
| Router.StillLoadingPending | frontend/src/router/index.ts:51-66 | while every change still shows loading, `next` has not been called |

## Left out

- WEKA's own machinery is left out. The model does not encode an instance as doubles: nominal labels stay strings, and the `Instances` object is only a relation name, an attribute list and a class index. The exception texts in `FaultMessage` are stand-ins for WEKA's and Java's own messages.
- `MockClassifier.buildClassifier` is left out: it does nothing.
- `MockClassifier.getCapabilities` is left out: WEKA configuration with no effect on results.
- The model does not compute the sorted entry list in `generateExplanation`. The source never reads it.
- `String.format` is modelled with a '.' decimal separator. The source formats in the JVM's default locale, which writes "85,0%" under a comma-decimal locale.
- MetaOf: vue-router's matching is modelled as letter case ignored and one trailing '/' dropped. Percent-decoding, repeated slashes, query and hash are not modelled.
- Numbers are exact reals, not IEEE doubles. Scores such as 0.15/2 and the BMI are exact, and `%.1f` acts on the exact value.
- The back end's clock, `System.currentTimeMillis`, is a `now` parameter. The front end's `Date.now` only feeds the generated error id, which is an `id` parameter together with its random part.
- AppError's `timestamp: new Date()` is left out: `AppError` has no timestamp field and `AddError` takes no clock.
- The ten-second `setTimeout` in `addError` is only the `AutoDismissed` predicate. Timers are not modelled.
- The action click handlers are not modelled: `window.location` changes, reload, console logging. Neither is the `console.error`/`System.out` logging.
- WithErrorHandling: the awaited operation is given by its outcome, so side effects on the handler during the operation are not modelled.
- Spring is not modelled: injection, `@PostConstruct`, request binding and the `@Valid` check itself. `Valid` states what that check admits, and the controller is specified for any input.
- Vue is not modelled: reactivity, `$subscribe` and `unsubscribe`. The guard's subscription is the sequence of store states that follow.
- The model does not capture that the score `HashMap` is shared between the service and the result. Maps are values here.
- The pieces around the core are not part of this model: the auth and diagnosis stores, the types file, the model trainer, the training script and the unused `modelPath`/`ResourceLoader`.
- The Mockito-mocked service of `DiagnosticControllerTest` is not modelled. The lemmas about that test input use the real service.

## Findings

| source | as written | input that shows it | evidently intended | confidence | as-written member | corrected member |
|---|---|---|---|---|---|---|
| backend/src/main/java/com/heartdiagnostic/service/model/SymptomInput.java:67-69 | height is bounded by `@Min(0)` although its message says "Height must be positive"; `getBmi` returns null for height 0, and `setValue` on that null throws in classify | the controller test's input with height 0.0: it passes validation, then diagnose answers 500 "Diagnosis failed: …" | height strictly positive, so every valid input is classified | not executed | ModelService.ZeroHeightIsValidButFails | ModelService.PositiveHeightInputsAreClassified (over Symptoms.ValidPositiveHeight) |
