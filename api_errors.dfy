/** The older error hierarchy of the API layer: `APIError` with a code that
    defaults to "API_ERROR", and subclasses with fixed codes. */
module ApiErrors {
  import opened Common
  import opened Values

  datatype ApiErrorClass =
    | APIError | AuthenticationError | ValidationError | RateLimitError
    | QuotaExceededError | NetworkError | ResourceNotFoundError

  datatype ApiError = ApiError(cls: ApiErrorClass, message: string, code: string, details: Details)

  /** `APIError(message, code, details)`. */
  function NewApiError(message: string, code: Option<string>, details: Option<Details>): (e: ApiError)
    ensures e.cls == APIError && e.message == message
    ensures TruthyStr(code) ==> e.code == code.value
    ensures !TruthyStr(code) ==> e.code == "API_ERROR"
    ensures e.details == OrEmpty(details)
  {
    ApiError(APIError, message, OrStr(code, "API_ERROR"), OrEmpty(details))
  }

  /** The fixed code of each subclass. */
  function FixedCode(cls: ApiErrorClass): (code: string)
    requires cls != APIError
    ensures code != "" && code != "API_ERROR"
  {
    match cls
    case AuthenticationError => "AUTH_ERROR"
    case ValidationError => "VALIDATION_ERROR"
    case RateLimitError => "RATE_LIMIT_ERROR"
    case QuotaExceededError => "QUOTA_EXCEEDED_ERROR"
    case NetworkError => "NETWORK_ERROR"
    case ResourceNotFoundError => "RESOURCE_NOT_FOUND"
  }

  /** The subclasses whose constructor takes only a message and details:
      `AuthenticationError`, `ValidationError`, `QuotaExceededError`,
      `NetworkError`. */
  function NewFixedError(cls: ApiErrorClass, message: string, details: Option<Details>): (e: ApiError)
    requires cls in {AuthenticationError, ValidationError, QuotaExceededError, NetworkError}
    ensures e.cls == cls && e.message == message && e.details == OrEmpty(details)
    ensures cls == AuthenticationError ==> e.code == "AUTH_ERROR"
    ensures cls == ValidationError ==> e.code == "VALIDATION_ERROR"
    ensures cls == QuotaExceededError ==> e.code == "QUOTA_EXCEEDED_ERROR"
    ensures cls == NetworkError ==> e.code == "NETWORK_ERROR"
  {
    NewApiError(message, Some(FixedCode(cls)), details).(cls := cls)
  }

  /** `RateLimitError(message, retry_after, details)`: `retry_after` is
      recorded only when it is non-zero. */
  function NewRateLimitError(message: string, retryAfter: Option<int>, details: Option<Details>): (e: ApiError)
    ensures e.cls == RateLimitError && e.code == "RATE_LIMIT_ERROR" && e.message == message
    ensures "retry_after" in e.details <==> TruthyInt(retryAfter) || "retry_after" in OrEmpty(details)
    ensures TruthyInt(retryAfter) ==> e.details["retry_after"] == VInt(retryAfter.value)
    ensures forall k :: k != "retry_after" ==> (k in e.details <==> k in OrEmpty(details))
    ensures forall k :: k != "retry_after" && k in e.details ==> e.details[k] == OrEmpty(details)[k]
  {
    var d := OrEmpty(details);
    var d := if TruthyInt(retryAfter) then d["retry_after" := VInt(retryAfter.value)] else d;
    NewApiError(message, Some(FixedCode(RateLimitError)), Some(d)).(cls := RateLimitError)
  }

  /** `ResourceNotFoundError(message, resource_type, resource_id, details)`. */
  function NewResourceNotFoundError(message: string, resourceType: Option<string>,
                                    resourceId: Option<string>, details: Option<Details>): (e: ApiError)
    ensures e.cls == ResourceNotFoundError && e.code == "RESOURCE_NOT_FOUND" && e.message == message
    ensures "resource_type" in e.details <==> TruthyStr(resourceType) || "resource_type" in OrEmpty(details)
    ensures "resource_id" in e.details <==> TruthyStr(resourceId) || "resource_id" in OrEmpty(details)
    ensures TruthyStr(resourceType) ==> e.details["resource_type"] == VStr(resourceType.value)
    ensures TruthyStr(resourceId) ==> e.details["resource_id"] == VStr(resourceId.value)
    ensures forall k :: k != "resource_type" && k != "resource_id" ==>
      (k in e.details <==> k in OrEmpty(details)) &&
      (k in e.details ==> e.details[k] == OrEmpty(details)[k])
  {
    var d := OrEmpty(details);
    var d := if TruthyStr(resourceType) then d["resource_type" := VStr(resourceType.value)] else d;
    var d := if TruthyStr(resourceId) then d["resource_id" := VStr(resourceId.value)] else d;
    NewApiError(message, Some(FixedCode(ResourceNotFoundError)), Some(d)).(cls := ResourceNotFoundError)
  }
}
