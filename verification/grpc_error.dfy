/**
 * What both controllers share when translating a gRPC failure: the shape of
 * the error object, the message fallback, and the canonical code-to-status
 * table the translators are measured against.
 */
module GrpcError {
  import opened Wrappers
  import opened Js
  import opened Http

  /**
   * The gRPC error object a failed call rejects with. `code` is `None` when the
   * error has no numeric integer code (missing, or a value that no `case` of a
   * strict-equality `switch` on integers can match).
   */
  datatype RpcError = RpcError(code: Option<int>, details: Option<string>, message: Option<string>)

  const INVALID_ARGUMENT := 3
  const NOT_FOUND := 5
  const ALREADY_EXISTS := 6
  const PERMISSION_DENIED := 7
  const UNAUTHENTICATED := 16

  const FALLBACK_MESSAGE := "Internal server error"

  /** `error?.code`: a null or undefined error has no code. */
  function CodeOf(e: Option<RpcError>): Option<int> {
    if e.Some? then e.value.code else None
  }

  function DetailsOf(e: Option<RpcError>): Option<string> {
    if e.Some? then e.value.details else None
  }

  function MessageOf(e: Option<RpcError>): Option<string> {
    if e.Some? then e.value.message else None
  }

  /**
   * `error?.details || error?.message || "Internal server error"`: the first
   * truthy candidate, so the result is never empty, and it prefers the
   * details, then the message, and uses the fixed text only when both are
   * missing or empty.
   */
  function ErrorMessage(e: Option<RpcError>): (m: string)
    ensures m != ""
    ensures m == FALLBACK_MESSAGE || Some(m) == DetailsOf(e) || Some(m) == MessageOf(e)
    ensures Truthy(DetailsOf(e)) ==> Some(m) == DetailsOf(e)
    ensures !Truthy(DetailsOf(e)) && Truthy(MessageOf(e)) ==> Some(m) == MessageOf(e)
    ensures !Truthy(DetailsOf(e)) && !Truthy(MessageOf(e)) ==> m == FALLBACK_MESSAGE
  {
    if Truthy(DetailsOf(e)) then DetailsOf(e).value
    else if Truthy(MessageOf(e)) then MessageOf(e).value
    else FALLBACK_MESSAGE
  }

  /**
   * The code-to-status table both controllers are written against: a map,
   * so it has no case order.
   */
  const CANONICAL_TABLE: map<int, HttpStatus> := map[
    INVALID_ARGUMENT := BadRequest,
    NOT_FOUND := NotFound,
    ALREADY_EXISTS := Conflict,
    PERMISSION_DENIED := Forbidden,
    UNAUTHENTICATED := Unauthorized]

  /** Looks a code up in the canonical table; anything not in it is a 500. */
  function TableStatus(code: Option<int>): HttpStatus {
    if code.Some? && code.value in CANONICAL_TABLE then CANONICAL_TABLE[code.value]
    else InternalServerError
  }
}
