/** `createApiHandler`: merges the request parts into one input, validates it,
    runs the use case and turns its result or error into a status and a body. */
module ApiHandler {
  import opened Wrappers
  import opened Decimal
  import opened Errors

  /** The code, message, type and param a domain error class publishes. The
      catalogue itself is not part of this model, so the handler receives it. */
  datatype ErrorInfo = ErrorInfo(code: string, message: string, errorType: string, param: Option<string>)

  /** The `error` object of an error response: the validation shape carries the
      formatted zod issues instead of a param. */
  datatype ErrorBody =
    | Described(code: string, message: string, errorType: string, param: Option<string>)
    | ValidationFailed(code: string, message: string, errorType: string, errors: seq<string>)

  datatype ResponseBody<T> = Ok(result: T) | ErrorResponse(error: ErrorBody)

  datatype ApiResponse<T> = ApiResponse(statusCode: int, body: ResponseBody<T>)

  const DefaultMessage: string := "An unexpected error occurred."

  /** `{...(body || {}), ...pathParams, ...queryParams}`: later parts win. */
  function MergeInput<V>(body: Option<map<string, V>>, path: map<string, V>, query: map<string, V>): (r: map<string, V>)
    ensures r.Keys == body.GetOr(map[]).Keys + path.Keys + query.Keys
    ensures forall k :: k in query ==> r[k] == query[k]
    ensures forall k :: k in path && k !in query ==> r[k] == path[k]
    ensures forall k :: k in body.GetOr(map[]) && k !in path && k !in query ==> r[k] == body.GetOr(map[])[k]
  {
    body.GetOr(map[]) + path + query
  }

  /** `mapDomainErrorToStatusCode`. */
  function StatusFor(kind: DomainKind): (status: int)
    ensures kind == InvalidApiKey ==> status == 401
    ensures kind == InsufficientFunds ==> status == 402
    ensures kind == UserLocked ==> status == 403
    ensures kind == RateLimitExceeded ==> status == 429
    ensures kind == InvalidRequest ==> status == 400
    ensures kind == UserAlreadyExists ==> status == 409
    ensures kind == InternalServer ==> status == 500
    ensures kind in {UserNotFound, ProviderFailure} ==> status == 500
  {
    match kind
    case InvalidApiKey => 401
    case InsufficientFunds => 402
    case UserLocked => 403
    case RateLimitExceeded => 429
    case InvalidRequest => 400
    case UserAlreadyExists => 409
    case InternalServer => 500
    case _ => 500
  }

  /** Each of the six mapped client-error classes gets its own status, and every
      other class falls back to 500: the status tells the mapped classes apart. */
  lemma StatusIdentifiesClientErrors(a: DomainKind, b: DomainKind)
    ensures 400 <= StatusFor(a) <= 500
    ensures StatusFor(a) == 500 <==> a in {InternalServer, UserNotFound, ProviderFailure}
    ensures StatusFor(a) == StatusFor(b) && StatusFor(a) != 500 ==> a == b
  {
  }

  /** The 400 response for a schema failure, be it of the request or inside the use case. */
  function ValidationResponse<T>(issues: seq<string>): (r: ApiResponse<T>)
    ensures r.statusCode == 400 && r.body.ErrorResponse? && r.body.error.ValidationFailed?
    ensures r.body.error.code == "invalid_request" && r.body.error.errors == issues
  {
    ApiResponse(400, ErrorResponse(ValidationFailed("invalid_request", "Validation failed", "request_error", issues)))
  }

  /** The `catch` block of the handler. */
  function ErrorResponseFor<T>(e: Thrown, describe: DomainError -> ErrorInfo): (r: ApiResponse<T>)
    ensures r.body.ErrorResponse? && r.statusCode >= 400
    ensures e.Zod? ==> r == ValidationResponse(e.issues)
    ensures e.Domain? ==> r.statusCode == StatusFor(e.error.kind) && r.body.error == Described(
      describe(e.error).code, describe(e.error).message, describe(e.error).errorType, describe(e.error).param)
    ensures e.Plain? ==> r == ApiResponse(500, ErrorResponse(Described("internal_server_error", e.message, "api_error", None)))
    ensures e.NonError? ==> r == ApiResponse(500, ErrorResponse(Described("internal_server_error", DefaultMessage, "api_error", None)))
  {
    match e
    case Zod(issues) => ValidationResponse(issues)
    case Domain(err) =>
      var info := describe(err);
      ApiResponse(StatusFor(err.kind), ErrorResponse(Described(info.code, info.message, info.errorType, info.param)))
    case Plain(message) =>
      ApiResponse(500, ErrorResponse(Described("internal_server_error", message, "api_error", None)))
    case NonError =>
      ApiResponse(500, ErrorResponse(Described("internal_server_error", DefaultMessage, "api_error", None)))
  }

  /** The handler for one request: `validate` is the input schema's `parse`,
      `useCase` the use case run on the parsed input. */
  function Handle<V, I, T>(body: Option<map<string, V>>, path: map<string, V>, query: map<string, V>,
                           validate: map<string, V> -> Result<I, seq<string>>,
                           useCase: I -> Result<T, Thrown>,
                           describe: DomainError -> ErrorInfo): (r: ApiResponse<T>)
    ensures r.statusCode == 200 <==> (validate(MergeInput(body, path, query)).Success?
                                     && useCase(validate(MergeInput(body, path, query)).value).Success?)
    ensures validate(MergeInput(body, path, query)).Failure? ==>
      r == ValidationResponse(validate(MergeInput(body, path, query)).error)
    ensures r.statusCode == 200 ==> r.body == Ok(useCase(validate(MergeInput(body, path, query)).value).value)
  {
    match validate(MergeInput(body, path, query))
    case Failure(issues) => ValidationResponse(issues)
    case Success(input) =>
      match useCase(input)
      case Success(result) => ApiResponse(200, Ok(result))
      case Failure(e) => ErrorResponseFor(e, describe)
  }

  /** Validation comes first: when it fails the use case plays no part (any other
      use case gives the same response). */
  lemma ValidationFailureSkipsUseCase<V, I, T>(body: Option<map<string, V>>, path: map<string, V>, query: map<string, V>,
                                               validate: map<string, V> -> Result<I, seq<string>>,
                                               useCase: I -> Result<T, Thrown>, other: I -> Result<T, Thrown>,
                                               describe: DomainError -> ErrorInfo)
    requires validate(MergeInput(body, path, query)).Failure?
    ensures Handle(body, path, query, validate, useCase, describe) == Handle(body, path, query, validate, other, describe)
    ensures Handle(body, path, query, validate, useCase, describe).statusCode == 400
  {
  }

  /** A query parameter beats a path parameter of the same name, which beats a
      body field. */
  lemma QueryBeatsPathBeatsBody<V>(k: string, b: V, p: V, q: V)
    ensures MergeInput(Some(map[k := b]), map[k := p], map[k := q])[k] == q
    ensures MergeInput(Some(map[k := b]), map[k := p], map[])[k] == p
    ensures MergeInput(Some(map[k := b]), map[], map[])[k] == b
    ensures k in MergeInput<V>(None, map[], map[k := q])
  {
  }

  /** A catalogue entry of the shape the server tests expect for an existing
      telegram id. */
  ghost predicate PublishesUserAlreadyExists(describe: DomainError -> ErrorInfo) {
    forall detail :: describe(DomainError(UserAlreadyExists, detail)) == ErrorInfo(
      "user_already_exists", "User with telegramId " + detail + " already exists.", "auth_error", None)
  }

  /** With such a catalogue, a registration refused for an existing telegram id
      answers 409 with that code, a message naming the id, that type and a null
      param; for id 54321 the message reads as the server tests expect. */
  lemma DuplicateRegistrationResponse<T>(describe: DomainError -> ErrorInfo, telegramId: int)
    requires PublishesUserAlreadyExists(describe)
    ensures ErrorResponseFor<T>(Domain(DomainError(UserAlreadyExists, IntToString(telegramId))), describe)
      == ApiResponse(409, ErrorResponse(Described(
        "user_already_exists", "User with telegramId " + IntToString(telegramId) + " already exists.", "auth_error", None)))
    ensures telegramId == 54321 ==>
              "User with telegramId " + IntToString(telegramId) + " already exists." == "User with telegramId 54321 already exists."
  {
    if telegramId == 54321 {
      assert NatToString(5) == "5";
      assert NatToString(54) == "54";
      assert NatToString(543) == "543";
      assert NatToString(5432) == "5432";
      assert NatToString(54321) == "54321";
    }
  }
}
