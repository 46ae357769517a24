/** The HTTP side of the gateway: statuses, the exceptions handlers throw, and the request object. */
module Http {
  import opened Wrappers
  import opened Js

  /** The statuses the gateway itself ever chooses. */
  datatype HttpStatus = BadRequest | Unauthorized | Forbidden | NotFound | Conflict | InternalServerError {
    /** The numeric status line value. */
    function Code(): int {
      match this
      case BadRequest => 400
      case Unauthorized => 401
      case Forbidden => 403
      case NotFound => 404
      case Conflict => 409
      case InternalServerError => 500
    }
  }

  /** `new HttpException(message, status)`; `UnauthorizedException(m)` is the one with status 401. */
  datatype HttpException = HttpException(message: string, status: HttpStatus)

  /**
   * The parts of an incoming request the core reads or writes: the headers
   * (names lower-cased, as Node delivers them), the parsed query and body, and
   * `request.user`, which is absent until the guard attaches decoded claims.
   */
  datatype HttpRequest = HttpRequest(
    headers: map<string, string>,
    query: JsObject,
    body: JsObject,
    user: Option<JsObject>)
}
