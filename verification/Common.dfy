/** Shared vocabulary: optional values, the errors an operation can be refused
    with, and the outcome of one database transaction. */
module Common {

  datatype Option<+T> = None | Some(value: T)

  datatype Error =
    | InsufficientBalance
    | ReservationNotFound
    | ReservationNotActive
    | ReservationCaptured
    | IllegalTransition
    | FencingLost
    | ItemStateConflict
    | StaleState
    | NotFound
    | InvalidArgument
    | NotAuthorized
    | EvidenceIncomplete
    | RefundNotCaptured
    | UniqueViolation
    | ForeignKeyViolation
    | AccountActiveOrder
    | SessionExpired
    | QuoteExpired
    | QueueFull
    | PreflightExpired
    | OrderBlocked
    | NothingSelected
    | ExternallyCompleted
    | NotForSale
    | InsufficientTime
    | PendingReview

  /** A transaction commits with a value or is rolled back with an error. */
  datatype Outcome<+T> = Ok(value: T) | Err(error: Error)

  /** The state after a transaction: the committed one, or the one before it. */
  function Settled<T>(o: Outcome<T>, before: T): T {
    if o.Ok? then o.value else before
  }

  function ErrorOf<T>(o: Outcome<T>): Option<Error> {
    if o.Ok? then None else Some(o.error)
  }

  /** `!text.trim()`: the service refuses a reason made of white space only. */
  predicate Blank(text: string) {
    forall c | c in text :: c in {' ', '\t', '\n', '\r'}
  }
}
