/** What a handler answers: an HTTP status with either a body or the reason it refused. */
module Http {

  const OK := 200
  const CREATED := 201
  const BAD_REQUEST := 400
  const UNAUTHORIZED := 401
  const FORBIDDEN := 403
  const NOT_FOUND := 404
  const CONFLICT := 409

  /** The error messages the controllers return, one constructor per distinct message. */
  datatype Reason =
    | Unauthenticated
    | IdRequired
    | FieldsRequired
    | ProductNotFound
    | CompanyNotFound
    | EntryNotFound
    | RecordNotFound
    | NotOwner
    | NameTaken
    | EmailTaken
    | InvalidDate
    | InsufficientStock(available: int, requested: int)
    | AlreadyCancelled

  datatype Outcome<+T> =
    | Success(status: int, value: T)
    | Failure(status: int, reason: Reason)
}
