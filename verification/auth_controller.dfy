/**
 * `AuthController`: the unauthenticated `register` and `login` routes and
 * this controller's copy of the gRPC-error translator, which has a case for
 * ALREADY_EXISTS.
 */
module AuthController {
  import opened Wrappers
  import opened Js
  import opened Http
  import opened GrpcError

  /**
   * The body of `POST /auth/register` and `POST /auth/login`: whatever object
   * reaches the handler. The DTO classes' validation decorators are not part
   * of this model, so no shape is assumed.
   */
  type Credentials = JsObject

  /** An identity-service call: what it settles to for a given request. */
  type IdentityCall<R> = Credentials -> Result<R, RpcError>

  /**
   * The `switch (code)` of this controller. Every code the canonical table
   * lists gets its table status, ALREADY_EXISTS included, and every other
   * code, or none, gets 500; written in the source's case order, it agrees
   * with the order-free table.
   */
  function StatusFor(code: Option<int>): (s: HttpStatus)
    ensures s == TableStatus(code)
    ensures s == Conflict <==> code == Some(ALREADY_EXISTS)
    ensures s == InternalServerError <==> code.None? || code.value !in CANONICAL_TABLE
  {
    if code == Some(3) then BadRequest
    else if code == Some(6) then Conflict
    else if code == Some(16) then Unauthorized
    else if code == Some(7) then Forbidden
    else if code == Some(5) then NotFound
    else InternalServerError
  }

  /**
   * `handleGrpcError(error)`: always throws, with the table status for the
   * error's code and a message that is never empty.
   */
  function HandleGrpcError(e: Option<RpcError>): (x: HttpException)
    ensures x.status == TableStatus(CodeOf(e))
    ensures x.message == ErrorMessage(e) && x.message != ""
    ensures e.None? ==> x == HttpException(FALLBACK_MESSAGE, InternalServerError)
  {
    HttpException(ErrorMessage(e), StatusFor(CodeOf(e)))
  }

  /**
   * `register(dto)`: the body goes to the identity service as it arrived,
   * and whatever the call settles to is the route's result. The promise is
   * returned without being awaited, so a rejection reaches the caller as the
   * raw gRPC error and never passes through `HandleGrpcError`.
   */
  function Register<R>(dto: Credentials, call: IdentityCall<R>): (r: Result<R, RpcError>)
    ensures r == call(dto)
  {
    call(dto)
  }

  /** `login(dto)`: the same pass-through as `Register`, to the login call. */
  function Login<R>(dto: Credentials, call: IdentityCall<R>): (r: Result<R, RpcError>)
    ensures r == call(dto)
  {
    call(dto)
  }

  /**
   * The routes consult the identity service on the request body alone:
   * two services that answer that body alike give the same result, and a
   * failure comes back as the service's own error.
   */
  lemma RoutesForwardBodyUnchanged<R>(dto: Credentials, c1: IdentityCall<R>, c2: IdentityCall<R>)
    requires c1(dto) == c2(dto)
    ensures Register(dto, c1) == Register(dto, c2) && Login(dto, c1) == Login(dto, c2)
    ensures c1(dto).Failure? ==> Register(dto, c1) == Failure(c1(dto).error)
  {
  }

  /**
   * As written, a rejected identity call is not translated: the route settles
   * to the raw gRPC error, so an ALREADY_EXISTS rejection never becomes the
   * 409 that `HandleGrpcError` maps it to.
   */
  lemma UnawaitedRejectionBypassesTranslator<R>(dto: Credentials, call: IdentityCall<R>)
    requires call(dto) == Failure(RpcError(Some(ALREADY_EXISTS), Some("email taken"), None))
    ensures Register(dto, call) == Failure(RpcError(Some(ALREADY_EXISTS), Some("email taken"), None))
    ensures HandleGrpcError(Some(call(dto).error)) == HttpException("email taken", Conflict)
  {
  }

  /**
   * The route as its `try`/`catch` evidently intends (`return await ...`):
   * a success passes through, and every rejection is translated.
   */
  function RegisterAwaited<R>(dto: Credentials, call: IdentityCall<R>): (r: Result<R, HttpException>)
    ensures call(dto).Success? ==> r == Success(call(dto).value)
    ensures call(dto).Failure? ==> r.Failure? && r.error.status == TableStatus(call(dto).error.code)
    ensures call(dto).Failure? ==> r.error.message == ErrorMessage(Some(call(dto).error)) && r.error.message != ""
  {
    match call(dto)
    case Success(v) => Success(v)
    case Failure(e) => Failure(HandleGrpcError(Some(e)))
  }

  /** The awaited `login`, with the same translation. */
  function LoginAwaited<R>(dto: Credentials, call: IdentityCall<R>): (r: Result<R, HttpException>)
    ensures call(dto).Success? ==> r == Success(call(dto).value)
    ensures call(dto).Failure? ==> r.Failure? && r.error.status == TableStatus(call(dto).error.code)
    ensures call(dto).Failure? ==> r.error.message == ErrorMessage(Some(call(dto).error)) && r.error.message != ""
  {
    match call(dto)
    case Success(v) => Success(v)
    case Failure(e) => Failure(HandleGrpcError(Some(e)))
  }

  /** With the `await`, a duplicate registration surfaces as 409 Conflict. */
  lemma AwaitedDuplicateIsConflict<R>(dto: Credentials, call: IdentityCall<R>, details: string)
    requires details != ""
    requires call(dto) == Failure(RpcError(Some(ALREADY_EXISTS), Some(details), None))
    ensures RegisterAwaited(dto, call) == Failure(HttpException(details, Conflict))
  {
  }
}
