/**
 * `BankingController`: the four guarded banking routes. Each reads the
 * subject of the verified token as the acting user, builds the gRPC request,
 * awaits the banking service, and translates a failure with this
 * controller's copy of `handleGrpcError`, which has no ALREADY_EXISTS case.
 * The service calls are taken to settle as the ports' `Promise` types
 * declare, so an awaited rejection reaches the `catch`.
 */
module BankingController {
  import opened Wrappers
  import opened Js
  import opened Http
  import opened GrpcError
  import JwtAuthGuard
  import AuthController

  /** The four banking-service calls. */
  datatype BankingRpc = GetAccountsRpc | GetAccountByIdRpc | GetOperationsRpc | CreateOperationRpc

  /** The banking service: what a call with a given request settles to. */
  type BankingCall<R> = (BankingRpc, JsObject) -> Result<R, RpcError>

  /**
   * The `switch (code)` of this controller: the canonical table without its
   * ALREADY_EXISTS row, so code 6 falls to the 500 default and 409 is never
   * produced.
   */
  function StatusFor(code: Option<int>): (s: HttpStatus)
    ensures code != Some(ALREADY_EXISTS) ==> s == TableStatus(code)
    ensures code == Some(ALREADY_EXISTS) ==> s == InternalServerError
    ensures s != Conflict
  {
    if code == Some(3) then BadRequest
    else if code == Some(5) then NotFound
    else if code == Some(7) then Forbidden
    else if code == Some(16) then Unauthorized
    else InternalServerError
  }

  /** `handleGrpcError(error)` of this controller: same message rule, its own status switch. */
  function HandleGrpcError(e: Option<RpcError>): (x: HttpException)
    ensures x.message == ErrorMessage(e) && x.message != ""
    ensures CodeOf(e) != Some(ALREADY_EXISTS) ==> x.status == TableStatus(CodeOf(e))
    ensures CodeOf(e) == Some(ALREADY_EXISTS) ==> x.status == InternalServerError
  {
    HttpException(ErrorMessage(e), StatusFor(CodeOf(e)))
  }

  /** The two translators agree on every error except one whose code is ALREADY_EXISTS. */
  lemma TranslatorsAgreeExceptAlreadyExists(e: Option<RpcError>)
    ensures CodeOf(e) != Some(ALREADY_EXISTS) <==> HandleGrpcError(e) == AuthController.HandleGrpcError(e)
  {
  }

  // ---------------------------------------------------------------------------
  // Request shaping
  // ---------------------------------------------------------------------------

  /** `req.user.sub`: the token subject, `undefined` when the claims carry none. */
  function Subject(user: JsObject): JsValue {
    Get(user, "sub")
  }

  /** `getAccounts`: the request is `{ userId }` and nothing else. */
  function AccountsRequest(user: JsObject): (r: JsObject)
    ensures r.Keys == {"userId"} && r["userId"] == Subject(user)
  {
    map["userId" := Subject(user)]
  }

  /** `getAccountById`: `{ accountId: parseInt(accountId, 10), userId }`. */
  function AccountByIdRequest(accountId: string, user: JsObject): (r: JsObject)
    ensures r.Keys == {"accountId", "userId"}
    ensures r["accountId"] == ParseInt10(accountId) && r["userId"] == Subject(user)
  {
    var r := map["accountId" := ParseInt10(accountId), "userId" := Subject(user)];
    assert r.Keys == {"accountId", "userId"};
    r
  }

  /** `getOperations`: `{ ...query, userId }`; the subject wins over any `userId` in the query. */
  function OperationsRequest(query: JsObject, user: JsObject): (r: JsObject)
    ensures Get(r, "userId") == Subject(user)
    ensures r.Keys == query.Keys + {"userId"}
    ensures forall k :: k in query && k != "userId" ==> r[k] == query[k]
  {
    SpreadWith(query, "userId", Subject(user))
  }

  /**
   * `createOperation`: `{ ...body, userId }`; the subject wins over any
   * `userId` in the body, and the operation's `accountId`, `type`, `amount`
   * and `description` reach the banking service exactly as the client sent
   * them, including a `type` outside deposit/withdrawal/transfer/payment.
   */
  function CreateOperationRequest(body: JsObject, user: JsObject): (r: JsObject)
    ensures Get(r, "userId") == Subject(user)
    ensures r.Keys == body.Keys + {"userId"}
    ensures forall k :: k in body && k != "userId" ==> r[k] == body[k]
    ensures forall k :: k in {"accountId", "type", "amount", "description"} ==> Get(r, k) == Get(body, k)
  {
    SpreadWith(body, "userId", Subject(user))
  }

  /** A path segment that is the decimal rendering of an integer is forwarded as that integer. */
  lemma AccountIdOfDecimalPath(n: int, user: JsObject)
    ensures AccountByIdRequest(IntToDecimal(n), user)["accountId"] == Num(n as real)
  {
    ParseIntOfDecimal(n, "");
    assert IntToDecimal(n) + "" == IntToDecimal(n);
  }

  /**
   * Whatever `userId` the client put in the query or body is discarded:
   * the forwarded request is the one built as if the client had sent none.
   */
  lemma ClientUserIdIgnored(fields: JsObject, v: JsValue, user: JsObject)
    ensures OperationsRequest(fields["userId" := v], user) == OperationsRequest(fields - {"userId"}, user)
    ensures CreateOperationRequest(fields["userId" := v], user) == CreateOperationRequest(fields - {"userId"}, user)
  {
  }

  // ---------------------------------------------------------------------------
  // Handlers
  // ---------------------------------------------------------------------------

  /** The routes of this controller, with the `:accountId` path segment where there is one. */
  datatype Route = Accounts | AccountById(accountId: string) | Operations | NewOperation

  /**
   * The call a handler makes for a request whose user is attached, or `None`
   * when `req.user` is missing and reading `.sub` throws before any call.
   */
  function Forward(route: Route, req: HttpRequest): (f: Option<(BankingRpc, JsObject)>)
    ensures f.Some? <==> req.user.Some?
    ensures f.Some? ==> Get(f.value.1, "userId") == Subject(req.user.value)
    ensures req.user.Some? && route == Accounts
            ==> f == Some((GetAccountsRpc, AccountsRequest(req.user.value)))
    ensures req.user.Some? && route.AccountById?
            ==> f == Some((GetAccountByIdRpc, AccountByIdRequest(route.accountId, req.user.value)))
    ensures req.user.Some? && route == Operations
            ==> f == Some((GetOperationsRpc, OperationsRequest(req.query, req.user.value)))
    ensures req.user.Some? && route == NewOperation
            ==> f == Some((CreateOperationRpc, CreateOperationRequest(req.body, req.user.value)))
  {
    match req.user
    case None => None
    case Some(user) =>
      match route
      case Accounts => Some((GetAccountsRpc, AccountsRequest(user)))
      case AccountById(id) => Some((GetAccountByIdRpc, AccountByIdRequest(id, user)))
      case Operations => Some((GetOperationsRpc, OperationsRequest(req.query, user)))
      case NewOperation => Some((CreateOperationRpc, CreateOperationRequest(req.body, user)))
  }

  /** The `TypeError` that `req.user.sub` raises when no user is attached. */
  const MISSING_USER_ERROR := RpcError(None, None, Some("Cannot read properties of undefined (reading 'sub')"))

  /**
   * A handler body: the awaited call inside `try`, every rejection (and the
   * `TypeError` of a missing user) translated by `HandleGrpcError`.
   */
  function Handle<R>(route: Route, req: HttpRequest, call: BankingCall<R>): (r: Result<R, HttpException>)
    ensures req.user.None? ==> r == Failure(HttpException(MISSING_USER_ERROR.message.value, InternalServerError))
    ensures req.user.Some? && call(Forward(route, req).value.0, Forward(route, req).value.1).Success?
            ==> r == Success(call(Forward(route, req).value.0, Forward(route, req).value.1).value)
    ensures req.user.Some? && call(Forward(route, req).value.0, Forward(route, req).value.1).Failure?
            ==> r == Failure(HandleGrpcError(Some(call(Forward(route, req).value.0, Forward(route, req).value.1).error)))
  {
    match Forward(route, req)
    case None => Failure(HandleGrpcError(Some(MISSING_USER_ERROR)))
    case Some((rpc, msg)) =>
      match call(rpc, msg)
      case Success(v) => Success(v)
      case Failure(e) => Failure(HandleGrpcError(Some(e)))
  }

  /**
   * A protected request end to end: `JwtAuthGuard.CanActivate` first, whose
   * rejection is a 401 with its reason, then the handler on the request the
   * guard returned.
   */
  function Serve<R>(route: Route, req: HttpRequest, key: JwtAuthGuard.PublicKey,
                    verify: JwtAuthGuard.Verifier, call: BankingCall<R>): (r: Result<R, HttpException>)
    ensures JwtAuthGuard.CanActivate(req, key, verify).Reject? ==>
              r == Failure(JwtAuthGuard.CanActivate(req, key, verify).reason.ToHttpException())
    ensures JwtAuthGuard.CanActivate(req, key, verify).Allow? ==>
              r == Handle(route, JwtAuthGuard.CanActivate(req, key, verify).request, call)
  {
    match JwtAuthGuard.CanActivate(req, key, verify)
    case Reject(reason) => Failure(reason.ToHttpException())
    case Allow(authed) => Handle(route, authed, call)
  }

  /**
   * Behind the guard, the banking service is only ever called on behalf of
   * the verified token's subject, and the missing-user path cannot be taken.
   */
  lemma ServedUserIsTokenSubject(t: string, route: Route, req: HttpRequest, key: JwtAuthGuard.PublicKey,
                                 verify: JwtAuthGuard.Verifier, claims: JsObject)
    requires JwtAuthGuard.AuthorizationHeader(req) == Some(JwtAuthGuard.BEARER_PREFIX + t)
    requires JwtAuthGuard.KeyAvailable(key)
    requires verify(t, key.value) == Some(claims)
    ensures JwtAuthGuard.CanActivate(req, key, verify).Allow?
    ensures Forward(route, JwtAuthGuard.CanActivate(req, key, verify).request).Some?
    ensures Get(Forward(route, JwtAuthGuard.CanActivate(req, key, verify).request).value.1, "userId")
            == Subject(claims)
  {
    JwtAuthGuard.BearerRoundTrip(t);
  }

  /** A banking failure behind a valid token is translated, never reported as a guard rejection. */
  lemma ServeTranslatesBankingFailure<R>(t: string, route: Route, req: HttpRequest, key: JwtAuthGuard.PublicKey,
                                         verify: JwtAuthGuard.Verifier, claims: JsObject, call: BankingCall<R>, e: RpcError)
    requires JwtAuthGuard.AuthorizationHeader(req) == Some(JwtAuthGuard.BEARER_PREFIX + t)
    requires JwtAuthGuard.KeyAvailable(key)
    requires verify(t, key.value) == Some(claims)
    requires JwtAuthGuard.CanActivate(req, key, verify).Allow? ==>
               var f := Forward(route, JwtAuthGuard.CanActivate(req, key, verify).request);
               f.Some? && call(f.value.0, f.value.1) == Failure(e)
    ensures Serve(route, req, key, verify, call) == Failure(HandleGrpcError(Some(e)))
  {
    ServedUserIsTokenSubject(t, route, req, key, verify, claims);
  }
}
