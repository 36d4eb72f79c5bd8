/** What the use cases throw, as the HTTP handler tells them apart: a domain error
    of a known class, a schema (zod) failure, any other `Error`, or a thrown value
    that is not an `Error` at all. */
module Errors {

  /** The domain error classes the handler and the use cases name. */
  datatype DomainKind =
    | InvalidApiKey
    | InsufficientFunds
    | UserLocked
    | RateLimitExceeded
    | InvalidRequest
    | UserAlreadyExists
    | InternalServer
    | UserNotFound
    | ProviderFailure

  /** A domain error: its class and the argument its constructor received ("" for
      none), e.g. the provider's message or the telegram id that already exists.
      The code, message, type and param each class derives from it belong to the
      error catalogue, which is not part of this model. */
  datatype DomainError = DomainError(kind: DomainKind, detail: string)

  datatype Thrown =
    | Domain(error: DomainError)
    | Zod(issues: seq<string>)   // a zod `ZodError`; `issues` stands for `error.format()`
    | Plain(message: string)     // any other `Error`
    | NonError                   // a thrown value that is not an `Error`
}
