/**
 * The values of Go's `error` interface that the bookstore's core can see, and
 * the server-error helpers of util/error.go.
 *
 * A Go error is either nil (`None`), one of the package-level sentinel errors
 * (compared by identity in the source, by constructor here), a `serverError`
 * built by `newError`, or some other error whose message is all we know.
 */
module Errors {
  import opened Wrappers

  /** The package-level sentinel errors the core compares against. */
  datatype Sentinel =
    // util/error.go
    | BadRequest | Internal | InvalidAPICall | NotAuthenticated | ResourceNotFound
    // database/sql, context, database/sql/driver
    | TxDone | Canceled | DeadlineExceeded | BadConn
    // gomodules/database/rowreader.go
    | NullValue | WrongType | Unsupported
    // the Go runtime's index-out-of-range panic value
    | IndexOutOfRange

  datatype Error =
    | ServerError(code: int, cause: string, errorType: Option<Error>)
    | SentinelError(sentinel: Sentinel)
    | OtherError(message: string)

  // Error codes of util/error.go
  const ErrorCodeInternal := 0
  const ErrorCodeInvalidJSONBody := 30
  const ErrorCodeInvalidCredentials := 201
  const ErrorCodeEntityNotFound := 404
  const ErrorCodeValidation := 500

  // HTTP status codes of net/http used by the mapping
  const StatusBadRequest := 400
  const StatusUnauthorized := 401
  const StatusNotFound := 404
  const StatusInternalServerError := 500

  function SentinelText(s: Sentinel): string
  {
    match s
    case BadRequest => "Bad request"
    case Internal => "Internal error"
    case InvalidAPICall => "Invalid API call"
    case NotAuthenticated => "Not authenticated"
    case ResourceNotFound => "Resource not found"
    case TxDone => "sql: transaction has already been committed or rolled back"
    case Canceled => "context canceled"
    case DeadlineExceeded => "context deadline exceeded"
    case BadConn => "driver: bad connection"
    case NullValue => "Null value encountered"
    case WrongType => "Unable to convert type"
    case Unsupported => "Unsupported type"
    // abbreviated: the runtime also names the index and the length
    case IndexOutOfRange => "runtime error: index out of range"
  }

  /** `Error()` of each kind of error; for a `serverError` it is the cause. */
  function Message(e: Error): (m: string)
    ensures e.ServerError? ==> m == e.cause
    ensures e.OtherError? ==> m == e.message
  {
    match e
    case ServerError(_, cause, _) => cause
    case SentinelError(s) => SentinelText(s)
    case OtherError(msg) => msg
  }

  /** `mapErrorTypeToHTTPStatus`: the HTTP status reported for an error type. */
  function MapErrorTypeToHTTPStatus(err: Option<Error>): (status: int)
    ensures status in {StatusBadRequest, StatusUnauthorized, StatusNotFound, StatusInternalServerError}
    ensures status == StatusBadRequest <==> err == Some(SentinelError(BadRequest))
    ensures status == StatusUnauthorized <==> err == Some(SentinelError(NotAuthenticated))
    ensures status == StatusNotFound <==>
              err == Some(SentinelError(InvalidAPICall)) || err == Some(SentinelError(ResourceNotFound))
  {
    match err
    case Some(SentinelError(BadRequest)) => StatusBadRequest
    case Some(SentinelError(Internal)) => StatusInternalServerError
    case Some(SentinelError(InvalidAPICall)) => StatusNotFound
    case Some(SentinelError(ResourceNotFound)) => StatusNotFound
    case Some(SentinelError(NotAuthenticated)) => StatusUnauthorized
    case _ => StatusInternalServerError
  }

  /**
   * `newError`: builds a server error. The wrapped error `err` is only
   * written to the log, so it does not reach the result.
   */
  function NewError(cause: string, code: int, errorType: Option<Error>, err: Option<Error>): (r: Error)
    ensures r.ServerError? && Message(r) == cause
  {
    ServerError(code, cause, errorType)
  }

  /** The four results of `isError`. */
  datatype Inspection = Inspection(isServerError: bool, code: int, cause: string, errorType: Option<Error>)

  /**
   * `isError`: takes a server error apart; any other error (nil included)
   * is answered with (false, 0, "", the error itself).
   */
  function IsError(e: Option<Error>): (r: Inspection)
    ensures r.isServerError <==> e.Some? && e.value.ServerError?
    ensures !r.isServerError ==> r == Inspection(false, 0, "", e)
  {
    match e
    case Some(ServerError(code, cause, errorType)) => Inspection(true, code, cause, errorType)
    case _ => Inspection(false, 0, "", e)
  }

  /** Construct-then-inspect: `isError(newError(c, code, t, e))` gives back exactly what went in. */
  lemma NewErrorRoundTrip(cause: string, code: int, errorType: Option<Error>, err: Option<Error>)
    ensures IsError(Some(NewError(cause, code, errorType, err))) == Inspection(true, code, cause, errorType)
  {
  }

  /** The wrapped error never changes the server error that is built. */
  lemma NewErrorIgnoresWrapped(cause: string, code: int, errorType: Option<Error>, e1: Option<Error>, e2: Option<Error>)
    ensures NewError(cause, code, errorType, e1) == NewError(cause, code, errorType, e2)
  {
  }
}
