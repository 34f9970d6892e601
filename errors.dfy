/** The application's error objects: `AniSageError` and the subclasses that
    give it fixed codes, levels and detail fields, and its `to_dict` form. */
module Errors {
  import opened Common
  import opened Values

  /** The Python class of an error; `to_dict` falls back to its name. */
  datatype ErrorClass = AniSageError | ConfigError | MetadataError | APIError | ValidationError | AnalysisError

  function ClassName(c: ErrorClass): (name: string)
    ensures name != ""
  {
    match c
    case AniSageError => "AniSageError"
    case ConfigError => "ConfigError"
    case MetadataError => "MetadataError"
    case APIError => "APIError"
    case ValidationError => "ValidationError"
    case AnalysisError => "AnalysisError"
  }

  /** An error object. `code` keeps what the constructor was given (possibly
      `None`); `statusCode` is only set by `APIError`. */
  datatype Error = Error(
    cls: ErrorClass,
    message: string,
    code: Option<string>,
    details: Details,
    level: string,
    statusCode: Option<int>)

  /** Raised by `ValidationError` when a field is given together with an
      explicit `details=None`: the code then indexes into `None`. */
  datatype TypeError = NoneNotSubscriptable

  /** `AniSageError(message, code, details, level)`; also the constructor of
      the subclasses that add nothing (`ConfigError`, `MetadataError`). */
  function NewError(cls: ErrorClass, message: string, code: Option<string>,
                    details: Option<Details>, level: string): (e: Error)
    ensures e.cls == cls && e.message == message && e.code == code && e.level == level
    ensures e.statusCode.None?
    ensures details.None? ==> e.details == map[]
    ensures details.Some? ==> e.details == details.value
  {
    Error(cls, message, code, OrEmpty(details), level, None)
  }

  /** `AniSageError(message)` with every default. */
  function DefaultError(message: string): (e: Error)
    ensures e.details == map[] && e.level == "ERROR" && e.code.None?
    ensures ToDict(e)["error"] == VStr("AniSageError")
  {
    NewError(AniSageError, message, None, None, "ERROR")
  }

  /** `to_dict()`: exactly four keys; "error" is the code when it is a
      non-empty string and the class name otherwise. */
  function ToDict(e: Error): (d: map<string, Value>)
    ensures d.Keys == {"error", "message", "details", "level"}
    ensures TruthyStr(e.code) ==> d["error"] == VStr(e.code.value)
    ensures !TruthyStr(e.code) ==> d["error"] == VStr(ClassName(e.cls))
    ensures d["message"] == VStr(e.message) && d["details"] == VDict(e.details)
    ensures d["level"] == VStr(e.level)
  {
    map["error" := VStr(OrStr(e.code, ClassName(e.cls))),
        "message" := VStr(e.message),
        "details" := VDict(e.details),
        "level" := VStr(e.level)]
  }

  /** `APIError(message, code, details, status_code)`: level "ERROR" and the
      status code kept. */
  function NewApiError(message: string, code: Option<string>, details: Option<Details>,
                       statusCode: Option<int>): (e: Error)
    ensures e.cls == APIError && e.message == message && e.code == code
    ensures e.level == "ERROR" && e.statusCode == statusCode
    ensures e.details == OrEmpty(details)
  {
    NewError(APIError, message, code, details, "ERROR").(statusCode := statusCode)
  }

  /** `ValidationError(message, field, details=...)`. Omitting `details` is
      passing `Some(map[])`; `None` stands for an explicit `details=None`. */
  function NewValidationError(message: string, field: Option<string>,
                              details: Option<Details>): (r: Result<Error, TypeError>)
    ensures r.Err? <==> TruthyStr(field) && details.None?
    ensures r.Ok? ==> var e := r.value;
      && e.cls == ValidationError && e.message == message
      && e.code == Some("VALIDATION_ERROR") && e.level == "WARNING"
      && ("field" in e.details <==> TruthyStr(field) || (details.Some? && "field" in details.value))
      && (TruthyStr(field) ==> e.details["field"] == VStr(field.value))
      && (forall k :: k in OrEmpty(details) && k != "field" ==>
            k in e.details && e.details[k] == details.value[k])
      && (forall k :: k in e.details && k != "field" ==> k in OrEmpty(details))
  {
    if TruthyStr(field) && details.None? then Err(NoneNotSubscriptable)
    else
      var d := if TruthyStr(field) then details.value["field" := VStr(field.value)] else OrEmpty(details);
      Ok(NewError(ValidationError, message, Some("VALIDATION_ERROR"), Some(d), "WARNING"))
  }

  /** `AnalysisError(message, code, details, model)`. */
  function NewAnalysisError(message: string, code: Option<string>, details: Option<Details>,
                            model: Option<string>): (e: Error)
    ensures e.cls == AnalysisError && e.message == message && e.level == "ERROR"
    ensures e.code == Some(OrStr(code, "ANALYSIS_ERROR"))
    ensures TruthyStr(code) ==> e.code == code
    ensures !TruthyStr(code) ==> ToDict(e)["error"] == VStr("ANALYSIS_ERROR")
    ensures "model" in e.details <==> TruthyStr(model) || "model" in OrEmpty(details)
    ensures TruthyStr(model) ==> e.details["model"] == VStr(model.value)
    ensures forall k :: k != "model" ==> (k in e.details <==> k in OrEmpty(details))
    ensures forall k :: k != "model" && k in e.details ==> e.details[k] == OrEmpty(details)[k]
  {
    var d := if TruthyStr(model) then OrEmpty(details)["model" := VStr(model.value)] else OrEmpty(details);
    NewError(AnalysisError, message, Some(OrStr(code, "ANALYSIS_ERROR")), Some(d), "ERROR")
  }
}
