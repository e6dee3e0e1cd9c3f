/**
 * `frontend/lib/errorHandler.ts`: turning whatever a caller caught into an
 * `ApiError`, and the three classifying predicates. `navigator.onLine` is
 * the parameter `online`. Reading a property of `null` or `undefined`
 * throws in JavaScript; the functions return `Err(PropertyOfNullish)` there.
 */
module ErrorHandler {
  import opened Wrappers

  /** `details`: a record the handler passes on without looking inside. */
  type Details = map<string, string>

  /** Which classes the caught value is an instance of. */
  datatype Kind = TypeErrorKind | OtherErrorKind | NotAnError

  /** The caught value: `null`/`undefined`, or an object with the fields the handler reads. */
  datatype Caught =
    | Nullish
    | Thrown(kind: Kind, status: Option<int>, message: Option<string>, code: Option<string>, details: Option<Details>)

  /** The `TypeError` a property read of `null` or `undefined` raises. */
  datatype Fault = PropertyOfNullish

  datatype ApiError = ApiError(message: string, code: string, status: int, details: Option<Details>)

  const OfflineMessage := "No internet connection. Please check your network."
  const NetworkMessage := "Network error. Please try again."
  const BadRequestMessage := "Invalid request. Please check your input."
  const UnauthorizedMessage := "Session expired. Please sign in again."
  const ForbiddenMessage := "You don't have permission to perform this action."
  const NotFoundMessage := "The requested resource was not found."
  const ConflictMessage := "This resource already exists."
  const ValidationMessage := "Validation failed. Please check your input."
  const RateLimitMessage := "Too many requests. Please try again later."
  const ServerMessage := "Server error. Please try again later."
  const UnavailableMessage := "Service temporarily unavailable. Please try again later."
  const ApiErrorMessage := "An error occurred. Please try again."
  const UnexpectedErrorMessage := "An unexpected error occurred."
  const UnexpectedValueMessage := "An unexpected error occurred. Please try again."

  /** The statuses the `switch` lists. */
  const ListedStatuses: set<int> := {400, 401, 403, 404, 409, 422, 429, 500, 503}

  /** `error.status` is truthy: present and not 0. */
  predicate HasStatus(e: Caught)
    requires e.Thrown?
  {
    e.status.Some? && e.status.value != 0
  }

  /** The `switch (error.status)` of `handleApiError`. */
  function ForStatus(status: int, message: Option<string>, details: Option<Details>): (r: ApiError)
    ensures r.status == status
  {
    match status
    case 400 => ApiError(OrElse(message, BadRequestMessage), "BAD_REQUEST", 400, details)
    case 401 => ApiError(UnauthorizedMessage, "UNAUTHORIZED", 401, None)
    case 403 => ApiError(ForbiddenMessage, "FORBIDDEN", 403, None)
    case 404 => ApiError(NotFoundMessage, "NOT_FOUND", 404, None)
    case 409 => ApiError(OrElse(message, ConflictMessage), "CONFLICT", 409, None)
    case 422 => ApiError(ValidationMessage, "VALIDATION_ERROR", 422, details)
    case 429 => ApiError(RateLimitMessage, "RATE_LIMIT", 429, None)
    case 500 => ApiError(ServerMessage, "SERVER_ERROR", 500, None)
    case 503 => ApiError(UnavailableMessage, "SERVICE_UNAVAILABLE", 503, None)
    case _ => ApiError(OrElse(message, ApiErrorMessage), "API_ERROR", status, None)
  }

  /** `handleApiError(error)` with `navigator.onLine` = `online`. */
  function HandleApiError(e: Caught, online: bool): (r: Result<ApiError, Fault>)
    ensures r.Err? <==> online && e.Nullish?
  {
    if !online then Ok(ApiError(OfflineMessage, "NETWORK_ERROR", 0, None))
    else if e.Nullish? then Err(PropertyOfNullish)
    else if e.kind == TypeErrorKind then Ok(ApiError(NetworkMessage, "NETWORK_ERROR", 0, None))
    else if HasStatus(e) then Ok(ForStatus(e.status.value, e.message, e.details))
    else if e.kind == OtherErrorKind then Ok(ApiError(OrElse(e.message, UnexpectedErrorMessage), "UNKNOWN_ERROR", 500, None))
    else Ok(ApiError(UnexpectedValueMessage, "UNKNOWN_ERROR", 500, None))
  }

  /** `getErrorMessage(error)`: the message of the handled error. */
  function GetErrorMessage(e: Caught, online: bool): (r: Result<string, Fault>)
    ensures r.Err? <==> HandleApiError(e, online).Err?
    ensures r.Ok? ==> r.value == HandleApiError(e, online).value.message
  {
    match HandleApiError(e, online)
    case Ok(apiError) => Ok(apiError.message)
    case Err(fault) => Err(fault)
  }

  /** `isNetworkError(error)`. */
  function IsNetworkError(e: Caught, online: bool): (r: Result<bool, Fault>)
    ensures r.Err? <==> online && e.Nullish?
  {
    if !online then Ok(true)
    else if e.Nullish? then Err(PropertyOfNullish)
    else Ok(e.kind == TypeErrorKind || e.code == Some("NETWORK_ERROR"))
  }

  /** `isAuthError(error)`. */
  function IsAuthError(e: Caught): (r: Result<bool, Fault>)
    ensures r.Err? <==> e.Nullish?
  {
    if e.Nullish? then Err(PropertyOfNullish)
    else Ok(e.status == Some(401) || e.code == Some("UNAUTHORIZED"))
  }

  /** `isValidationError(error)`. */
  function IsValidationError(e: Caught): (r: Result<bool, Fault>)
    ensures r.Err? <==> e.Nullish?
  {
    if e.Nullish? then Err(PropertyOfNullish)
    else Ok(e.status == Some(422) || e.code == Some("VALIDATION_ERROR"))
  }

  // ---------- properties ----------

  /** Offline, every value (even `null`) becomes a network error with status 0. */
  lemma OfflineIsNetworkError(e: Caught)
    ensures HandleApiError(e, false) == Ok(ApiError(OfflineMessage, "NETWORK_ERROR", 0, None))
    ensures IsNetworkError(e, false) == Ok(true)
  {
  }

  /** Online, a `TypeError` is a network error with status 0, whatever its status field says. */
  lemma TypeErrorIsNetworkError(status: Option<int>, message: Option<string>, code: Option<string>, details: Option<Details>)
    ensures HandleApiError(Thrown(TypeErrorKind, status, message, code, details), true) ==
              Ok(ApiError(NetworkMessage, "NETWORK_ERROR", 0, None))
  {
  }

  /** The status table: each listed status has its fixed code and keeps its value. */
  lemma StatusCodes(message: Option<string>, details: Option<Details>)
    ensures ForStatus(400, message, details).code == "BAD_REQUEST"
    ensures ForStatus(401, message, details).code == "UNAUTHORIZED"
    ensures ForStatus(403, message, details).code == "FORBIDDEN"
    ensures ForStatus(404, message, details).code == "NOT_FOUND"
    ensures ForStatus(409, message, details).code == "CONFLICT"
    ensures ForStatus(422, message, details).code == "VALIDATION_ERROR"
    ensures ForStatus(429, message, details).code == "RATE_LIMIT"
    ensures ForStatus(500, message, details).code == "SERVER_ERROR"
    ensures ForStatus(503, message, details).code == "SERVICE_UNAVAILABLE"
  {
  }

  /** A truthy status is always the status of the result, and decides it through the table. */
  lemma StatusDecides(e: Caught)
    requires e.Thrown? && e.kind != TypeErrorKind && HasStatus(e)
    ensures HandleApiError(e, true) == Ok(ForStatus(e.status.value, e.message, e.details))
    ensures HandleApiError(e, true).value.status == e.status.value
  {
  }

  /** Only 400 and 409 keep a non-empty caller message; every other listed status ignores it. */
  lemma MessageRules(status: int, m1: Option<string>, m2: Option<string>, details: Option<Details>)
    requires status in ListedStatuses
    ensures status in {400, 409} && Truthy(m1) ==> ForStatus(status, m1, details).message == m1.value
    ensures status !in {400, 409} ==> ForStatus(status, m1, details).message == ForStatus(status, m2, details).message
    ensures !Truthy(m1) ==> ForStatus(status, m1, details).message == ForStatus(status, None, details).message
  {
  }

  /** `details` is carried for 400 and 422 and dropped everywhere else. */
  lemma DetailsRules(status: int, message: Option<string>, details: Option<Details>)
    ensures status in {400, 422} ==> ForStatus(status, message, details).details == details
    ensures status !in {400, 422} ==> ForStatus(status, message, details).details == None
  {
  }

  /** Any other non-zero status gives API_ERROR with that status and the caller's message or the default. */
  lemma UnlistedStatus(status: int, message: Option<string>, details: Option<Details>)
    requires status !in ListedStatuses
    ensures ForStatus(status, message, details) == ApiError(OrElse(message, ApiErrorMessage), "API_ERROR", status, None)
  {
  }

  /** Without a truthy status: an `Error` gives UNKNOWN_ERROR/500 with its message or a default; anything else the fixed text. */
  lemma NoStatus(e: Caught)
    requires e.Thrown? && e.kind != TypeErrorKind && !HasStatus(e)
    ensures var r := HandleApiError(e, true).value;
            && r.code == "UNKNOWN_ERROR" && r.status == 500 && r.details == None
            && (e.kind == OtherErrorKind ==> r.message == OrElse(e.message, UnexpectedErrorMessage))
            && (e.kind == NotAnError ==> r.message == UnexpectedValueMessage)
  {
  }

  /** The result of `handleApiError`, thrown on: a plain object with its four fields. */
  function AsCaught(r: ApiError): Caught
  {
    Thrown(NotAnError, Some(r.status), Some(r.message), Some(r.code), r.details)
  }

  /**
   * Classifying a handled error agrees with how it was handled: it is an
   * auth error exactly when the original had status 401, a validation error
   * exactly when it had status 422, and a network error exactly when the
   * client was offline or the original was a `TypeError`.
   */
  lemma HandledErrorsClassify(e: Caught, online: bool)
    requires !e.Nullish?
    ensures var r := HandleApiError(e, online).value;
            && (IsAuthError(AsCaught(r)) == Ok(online && e.kind != TypeErrorKind && e.status == Some(401)))
            && (IsValidationError(AsCaught(r)) == Ok(online && e.kind != TypeErrorKind && e.status == Some(422)))
            && (IsNetworkError(AsCaught(r), true) == Ok(!online || e.kind == TypeErrorKind))
  {
    var r := HandleApiError(e, online).value;
    if online && e.kind != TypeErrorKind && HasStatus(e) {
      var s := e.status.value;
      assert r == ForStatus(s, e.message, e.details);
      assert r.code == "UNAUTHORIZED" <==> s == 401;
      assert r.code == "VALIDATION_ERROR" <==> s == 422;
      assert r.code != "NETWORK_ERROR";
    }
  }

  /** The predicates test the status and the code, both ways. */
  lemma PredicatesExactly(e: Caught)
    requires e.Thrown?
    ensures IsAuthError(e).value <==> e.status == Some(401) || e.code == Some("UNAUTHORIZED")
    ensures IsValidationError(e).value <==> e.status == Some(422) || e.code == Some("VALIDATION_ERROR")
    ensures IsNetworkError(e, true).value <==> e.kind == TypeErrorKind || e.code == Some("NETWORK_ERROR")
  {
  }
}
