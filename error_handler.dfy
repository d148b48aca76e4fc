/** The front end's shared error and loading bookkeeping (useErrorHandler.ts):
    a list of displayed errors, a key-to-loading-state map, and the mapping
    from a failed API call to the error it displays. */
module ErrorHandling {
  import opened Wrappers
  import opened Text

  datatype ErrorType = Network | Validation | Auth | Server | Unknown

  /** An error's action button; its click handler is not modelled. */
  datatype Action = Action(caption: string)

  /** A displayed error; the creation timestamp is not modelled. */
  datatype AppError = AppError(id: string, kind: ErrorType, message: string,
                               details: Option<string>, action: Option<Action>)

  datatype LoadingState = LoadingState(isLoading: bool, message: Option<string>)

  /** Whether addError schedules the ten-second auto-removal: every type
      except the critical ones, server and auth. */
  predicate AutoDismissed(kind: ErrorType) {
    kind != Server && kind != Auth
  }

  /** JavaScript truthiness of an optional string: absent and "" are false. */
  predicate Truthy(v: Option<string>) {
    v.Some? && v.value != ""
  }

  /** `v || fallback` on an optional string. */
  function OrElse(v: Option<string>, fallback: string): string {
    if Truthy(v) then v.value else fallback
  }

  /** The index of the first error with `id`, or -1 (findIndex). */
  method FindIndex(errors: seq<AppError>, id: string) returns (index: int)
    ensures -1 <= index < |errors|
    ensures index == -1 <==> forall j :: 0 <= j < |errors| ==> errors[j].id != id
    ensures 0 <= index ==> errors[index].id == id && forall j :: 0 <= j < index ==> errors[j].id != id
  {
    var i := 0;
    while i < |errors|
      invariant 0 <= i <= |errors|
      invariant forall j :: 0 <= j < i ==> errors[j].id != id
    {
      if errors[i].id == id {
        return i;
      }
      i := i + 1;
    }
    return -1;
  }

  /** The list with its first error carrying `id` taken out. */
  function RemoveFirst(errors: seq<AppError>, id: string): seq<AppError> {
    if errors == [] then []
    else if errors[0].id == id then errors[1..]
    else [errors[0]] + RemoveFirst(errors[1..], id)
  }

  /** Removing an id that is absent changes nothing. */
  lemma {:induction false} RemoveFirstAbsent(errors: seq<AppError>, id: string)
    requires forall j :: 0 <= j < |errors| ==> errors[j].id != id
    ensures RemoveFirst(errors, id) == errors
  {
    if errors != [] {
      RemoveFirstAbsent(errors[1..], id);
    }
  }

  /** Removing a present id deletes exactly its first occurrence, keeping
      the others in order. */
  lemma {:induction false} RemoveFirstAt(errors: seq<AppError>, id: string, k: nat)
    requires k < |errors| && errors[k].id == id
    requires forall j :: 0 <= j < k ==> errors[j].id != id
    ensures RemoveFirst(errors, id) == errors[..k] + errors[k + 1..]
  {
    if k > 0 {
      RemoveFirstAt(errors[1..], id, k - 1);
      assert errors[1..][..k - 1] == errors[1..k];
      assert errors[1..][k..] == errors[k + 1..];
      assert errors[..k] == [errors[0]] + errors[1..k];
    }
  }

  /** The loading map after setLoading(key, loading, message). */
  function WithLoading(states: map<string, LoadingState>, key: string, loading: bool,
                       message: Option<string>): map<string, LoadingState>
  {
    if loading then states[key := LoadingState(true, message)] else states - {key}
  }

  /** isLoading(key) on a given map: a truthy key asks about that key, no key
      (or "") asks whether anything is loading. */
  function LoadingIn(states: map<string, LoadingState>, key: Option<string>): bool {
    if Truthy(key) then key.value in states && states[key.value].isLoading
    else |states| > 0
  }

  /** getLoadingMessage(key) on a given map. */
  function MessageIn(states: map<string, LoadingState>, key: string): Option<string> {
    if key in states then states[key].message else None
  }

  /** After setLoading(key, true, m) the key is loading with message m; after
      setLoading(key, false) it is not (for a non-empty key); other keys keep
      their state either way. The empty key is falsy, so isLoading("") asks
      about the whole map. */
  lemma SetLoadingEffect(states: map<string, LoadingState>, key: string, message: Option<string>)
    ensures LoadingIn(WithLoading(states, key, true, message), Some(key))
    ensures MessageIn(WithLoading(states, key, true, message), key) == message
    ensures LoadingIn(WithLoading(states, key, true, message), None)
    ensures key != "" ==> !LoadingIn(WithLoading(states, key, false, None), Some(key))
    ensures MessageIn(WithLoading(states, key, false, None), key) == None
    ensures forall other :: other != key ==>
              MessageIn(WithLoading(states, key, true, message), other) == MessageIn(states, other) &&
              MessageIn(WithLoading(states, key, false, None), other) == MessageIn(states, other)
    ensures forall other :: other != key && other != "" ==>
              (LoadingIn(WithLoading(states, key, true, message), Some(other)) <==> LoadingIn(states, Some(other))) &&
              (LoadingIn(WithLoading(states, key, false, None), Some(other)) <==> LoadingIn(states, Some(other)))
  {
  }

  /** Every entry was put there by setLoading(key, true, ...), so it says loading. */
  predicate AllLoading(states: map<string, LoadingState>) {
    forall k :: k in states ==> states[k].isLoading
  }

  /** setLoading keeps every entry loading, so isLoading of a non-empty key
      is just whether the key is present, the empty key asks about the whole
      map like no key, any loading key means something is loading, and a key
      with a message is a loading key. */
  lemma LoadingQueries(states: map<string, LoadingState>, key: string, loading: bool,
                       message: Option<string>, k: string)
    requires AllLoading(states)
    ensures AllLoading(WithLoading(states, key, loading, message))
    ensures k != "" ==> (LoadingIn(states, Some(k)) <==> k in states)
    ensures LoadingIn(states, Some("")) == LoadingIn(states, None)
    ensures LoadingIn(states, Some(k)) ==> LoadingIn(states, None)
    ensures k != "" && MessageIn(states, k).Some? ==> LoadingIn(states, Some(k))
  {
    if k in states {
      assert k in states.Keys;
      assert |states| > 0;
    }
  }

  /** Clearing the only loading key leaves nothing loading. */
  lemma ClearLastLoading(states: map<string, LoadingState>, key: string)
    requires states.Keys == {key}
    ensures !LoadingIn(WithLoading(states, key, false, None), None)
  {
    assert WithLoading(states, key, false, None).Keys == {};
  }

  /** The error handleApiError records, without its id. */
  datatype ErrorInfo = ErrorInfo(kind: ErrorType, message: string, details: string, action: Option<Action>)

  /** The parts of an axios error the handler looks at. */
  datatype ResponseData = ResponseData(message: Option<string>, details: Option<string>)
  datatype HttpResponse = HttpResponse(status: int, data: Option<ResponseData>)
  datatype HttpError = HttpError(response: Option<HttpResponse>, request: bool, message: Option<string>)

  const Retry: Action := Action("Retry")
  const NetworkDetails: string := "Please check your internet connection and try again"
  const Login: Action := Action("Login")

  function DataMessage(data: Option<ResponseData>): Option<string> {
    if data.Some? then data.value.message else None
  }

  function DataDetails(data: Option<ResponseData>): Option<string> {
    if data.Some? then data.value.details else None
  }

  /** The switch over the response status. */
  function StatusInfo(r: HttpResponse): ErrorInfo {
    match r.status
    case 400 => ErrorInfo(Validation, OrElse(DataMessage(r.data), "Invalid request data"),
                          OrElse(DataDetails(r.data), "Please check your input and try again"), None)
    case 401 => ErrorInfo(Auth, "Authentication required", "Please log in to continue", Some(Login))
    case 403 => ErrorInfo(Auth, "Access denied", "You do not have permission to perform this action", None)
    case 404 => ErrorInfo(Server, "Resource not found", "The requested resource could not be found", None)
    case 422 => ErrorInfo(Validation, "Validation failed", OrElse(DataMessage(r.data), "Please check your input data"), None)
    case 429 => ErrorInfo(Server, "Too many requests", "Please wait a moment before trying again", Some(Retry))
    case 500 => ErrorInfo(Server, "Server error", "An internal server error occurred. Please try again later.", Some(Retry))
    case 503 => ErrorInfo(Server, "Service unavailable", "The service is temporarily unavailable. Please try again later.", None)
    case _ => ErrorInfo(Server, "Server error (" + IntToString(r.status) + ")",
                        OrElse(DataMessage(r.data), "An unexpected server error occurred"), None)
  }

  /** What handleApiError records for `error` raised in `context`. */
  function ApiErrorInfo(error: HttpError, context: Option<string>): ErrorInfo {
    if error.response.Some? then StatusInfo(error.response.value)
    else if error.request then
      ErrorInfo(Network, "Network connection failed", NetworkDetails, Some(Retry))
    else
      ErrorInfo(Unknown, OrElse(error.message, "An unexpected error occurred"),
                if Truthy(context) then "Context: " + context.value else "", None)
  }

  /** The error type follows the status class: 400 and 422 are validation,
      401 and 403 are auth, every other status is a server error. */
  lemma StatusKinds(r: HttpResponse)
    ensures StatusInfo(r).kind == Validation <==> r.status == 400 || r.status == 422
    ensures StatusInfo(r).kind == Auth <==> r.status == 401 || r.status == 403
    ensures StatusInfo(r).kind == Server <==> !(r.status in {400, 401, 403, 422})
  {
  }

  /** Only 401 offers Login; 429, 500 and a network failure offer Retry;
      nothing else has an action. */
  lemma ApiErrorActions(error: HttpError, context: Option<string>)
    ensures var info := ApiErrorInfo(error, context);
            (info.action == Some(Login) <==> error.response.Some? && error.response.value.status == 401) &&
            (info.action == Some(Retry) <==>
               (error.response.Some? && error.response.value.status in {429, 500}) ||
               (error.response.None? && error.request)) &&
            (info.action.None? <==>
               !((error.response.Some? && error.response.value.status in {401, 429, 500}) ||
                 (error.response.None? && error.request)))
  {
  }

  /** An unlisted status is reported as "Server error (<status>)". */
  lemma UnlistedStatusMessage(r: HttpResponse)
    requires !(r.status in {400, 401, 403, 404, 422, 429, 500, 503})
    ensures StatusInfo(r).kind == Server
    ensures StatusInfo(r).message == "Server error (" + IntToString(r.status) + ")"
  {
  }

  /** The `||` fallbacks: an absent or empty text falls back to the fixed
      default, a non-empty one is shown as it is. */
  lemma ApiErrorFallbacks(status: int, data: Option<ResponseData>, request: bool,
                          message: Option<string>, context: Option<string>)
    ensures var info := StatusInfo(HttpResponse(400, data));
            (Truthy(DataMessage(data)) ==> info.message == DataMessage(data).value) &&
            (!Truthy(DataMessage(data)) ==> info.message == "Invalid request data") &&
            (Truthy(DataDetails(data)) ==> info.details == DataDetails(data).value) &&
            (!Truthy(DataDetails(data)) ==> info.details == "Please check your input and try again")
    ensures var info := StatusInfo(HttpResponse(422, data));
            (Truthy(DataMessage(data)) ==> info.details == DataMessage(data).value) &&
            (!Truthy(DataMessage(data)) ==> info.details == "Please check your input data")
    ensures !(status in {400, 401, 403, 404, 422, 429, 500, 503}) ==>
              var info := StatusInfo(HttpResponse(status, data));
              (Truthy(DataMessage(data)) ==> info.details == DataMessage(data).value) &&
              (!Truthy(DataMessage(data)) ==> info.details == "An unexpected server error occurred")
    ensures var info := ApiErrorInfo(HttpError(None, false, message), context);
            (Truthy(message) ==> info.message == message.value) &&
            (!Truthy(message) ==> info.message == "An unexpected error occurred") &&
            (Truthy(context) ==> info.details == "Context: " + context.value) &&
            (!Truthy(context) ==> info.details == "")
    ensures Truthy(context) ==> OrElse(context, NetworkDetails) == context.value
    ensures !Truthy(context) ==> OrElse(context, NetworkDetails) == NetworkDetails
    ensures StatusInfo(HttpResponse(400, Some(ResponseData(Some(""), None)))).message == "Invalid request data"
  {
  }

  /** Only validation, network and unknown errors go away by themselves: of
      the responses, exactly 400 and 422. */
  lemma ApiErrorDismissal(error: HttpError, context: Option<string>)
    ensures AutoDismissed(ApiErrorInfo(error, context).kind) <==>
              error.response.None? || error.response.value.status in {400, 422}
  {
  }

  /** The module-level `errors` list and `loadingStates` map, shared by every
      use of the composable. */
  class ErrorHandler {
    var errors: seq<AppError>
    var loadingStates: map<string, LoadingState>

    constructor ()
      ensures errors == [] && loadingStates == map[]
    {
      errors, loadingStates := [], map[];
    }

    /** addError: appends one error with the given id (the generated
        `error_<time>_<random>` string, passed in) and returns that id. */
    method AddError(kind: ErrorType, message: string, details: Option<string>,
                    action: Option<Action>, id: string) returns (newId: string)
      modifies this
      ensures newId == id
      ensures errors == old(errors) + [AppError(id, kind, message, details, action)]
      ensures loadingStates == old(loadingStates)
    {
      errors := errors + [AppError(id, kind, message, details, action)];
      newId := id;
    }

    /** removeError: deletes the first error with the id, if there is one. */
    method RemoveError(id: string)
      modifies this
      ensures errors == RemoveFirst(old(errors), id)
      ensures |errors| == |old(errors)| - (if exists j :: 0 <= j < |old(errors)| && old(errors)[j].id == id then 1 else 0)
      ensures loadingStates == old(loadingStates)
    {
      var index := FindIndex(errors, id);
      if index > -1 {
        RemoveFirstAt(errors, id, index);
        errors := errors[..index] + errors[index + 1..];
      } else {
        RemoveFirstAbsent(errors, id);
      }
    }

    /** clearAllErrors. */
    method ClearAllErrors()
      modifies this
      ensures errors == [] && loadingStates == old(loadingStates)
    {
      errors := [];
    }

    /** setLoading. */
    method SetLoading(key: string, loading: bool, message: Option<string>)
      modifies this
      ensures loadingStates == WithLoading(old(loadingStates), key, loading, message)
      ensures errors == old(errors)
    {
      if loading {
        loadingStates := loadingStates[key := LoadingState(true, message)];
      } else {
        loadingStates := loadingStates - {key};
      }
    }

    /** isLoading. */
    function IsLoading(key: Option<string>): bool
      reads this
    {
      LoadingIn(loadingStates, key)
    }

    /** getLoadingMessage. */
    function GetLoadingMessage(key: string): Option<string>
      reads this
    {
      MessageIn(loadingStates, key)
    }

    /** handleApiError: records the error ApiErrorInfo describes. */
    method HandleApiError(error: HttpError, context: Option<string>, id: string) returns (newId: string)
      modifies this
      ensures newId == id
      ensures var info := ApiErrorInfo(error, context);
              errors == old(errors) + [AppError(id, info.kind, info.message, Some(info.details), info.action)]
      ensures loadingStates == old(loadingStates)
    {
      var info := ApiErrorInfo(error, context);
      newId := AddError(info.kind, info.message, Some(info.details), info.action, id);
    }

    /** handleValidationError: a validation error "<field>: <message>". */
    method HandleValidationError(field: string, message: string, id: string) returns (newId: string)
      modifies this
      ensures newId == id
      ensures errors == old(errors) + [AppError(id, Validation, field + ": " + message,
                                                Some("Please correct the highlighted field and try again"), None)]
      ensures loadingStates == old(loadingStates)
    {
      newId := AddError(Validation, field + ": " + message,
                        Some("Please correct the highlighted field and try again"), None, id);
    }

    /** handleNetworkError: a network error with a Retry action. */
    method HandleNetworkError(context: Option<string>, id: string) returns (newId: string)
      modifies this
      ensures newId == id
      ensures errors == old(errors) + [AppError(id, Network, "Network connection failed",
                                                Some(OrElse(context, NetworkDetails)),
                                                Some(Retry))]
      ensures loadingStates == old(loadingStates)
    {
      newId := AddError(Network, "Network connection failed",
                        Some(OrElse(context, NetworkDetails)), Some(Retry), id);
    }

    /** withErrorHandling around an operation whose outcome is given: the
        truthy loading key is loading while it runs and cleared afterwards
        whether it succeeded or not; a failure is recorded by handleApiError
        under `id` and yields None. */
    method WithErrorHandling<T>(outcome: Result<T, HttpError>, loadingKey: Option<string>,
                                loadingMessage: Option<string>, context: Option<string>, id: string)
      returns (r: Option<T>)
      modifies this
      ensures outcome.Success? ==> r == Some(outcome.value) && errors == old(errors)
      ensures outcome.Failure? ==> r.None?
      ensures outcome.Failure? ==>
                var info := ApiErrorInfo(outcome.error, context);
                errors == old(errors) + [AppError(id, info.kind, info.message, Some(info.details), info.action)]
      ensures loadingStates == if Truthy(loadingKey) then old(loadingStates) - {loadingKey.value} else old(loadingStates)
    {
      if Truthy(loadingKey) {
        SetLoading(loadingKey.value, true, loadingMessage);
      }
      if outcome.Success? {
        r := Some(outcome.value);
      } else {
        var _ := HandleApiError(outcome.error, context, id);
        r := None;
      }
      if Truthy(loadingKey) {
        SetLoading(loadingKey.value, false, None);
      }
    }
  }
}
