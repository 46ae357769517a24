/**
 * `JwtAuthGuard`: the startup fetch of the identity service's public key,
 * with bounded retry and exponential backoff, and the per-request bearer
 * token gate that protects the banking routes.
 *
 * The signature check (`jwt.verify` with RS256) is a parameter: a verifier
 * maps a token and a key to the decoded claims, or to `None` for every kind
 * of failure (bad signature, expiry, malformed token or key).
 */
module JwtAuthGuard {
  import opened Wrappers
  import opened Js
  import opened Http

  // ---------------------------------------------------------------------------
  // Key bootstrap: fetchPublicKeyWithRetry
  // ---------------------------------------------------------------------------

  /** The key cell: `null`/`undefined` is `None`; an empty string is present but falsy. */
  type PublicKey = Option<string>

  /** What one `getPublicKey` call settled to: a response carrying `publicKey`, or a rejection. */
  datatype FetchResponse = Responded(publicKey: Option<string>) | Failed

  /** The identity service as seen by the loop: the outcome of the call made on retry `i` (0-based). */
  type KeyService = nat -> FetchResponse

  datatype BootstrapOutcome = KeyFetched | Fatal(message: string)

  /**
   * What a run of the retry loop did: how many calls it made, the waits (in
   * milliseconds) it slept between them, the key cell afterwards, and whether
   * it returned or threw.
   */
  datatype Bootstrap = Bootstrap(attempts: nat, waits: seq<nat>, publicKey: PublicKey, outcome: BootstrapOutcome)

  const FATAL_MESSAGE := "Could not fetch public key from SSO"
  const DEFAULT_MAX_RETRIES := 5

  function Pow2(k: nat): (p: nat)
    ensures p >= 1
  {
    if k == 0 then 1 else 2 * Pow2(k - 1)
  }

  /**
   * `Math.pow(2, currentRetry) * 1000`: the wait after failed retry `r`,
   * one second at first and doubling with every retry.
   */
  function Backoff(r: nat): (ms: nat)
    ensures ms >= 1000 && ms % 1000 == 0
  {
    Pow2(r) * 1000
  }

  /** The first wait is one second and each later wait is twice the one before. */
  lemma {:induction false} BackoffDoubles(r: nat)
    ensures Backoff(0) == 1000
    ensures Backoff(r + 1) == 2 * Backoff(r)
  {
    assert Pow2(r + 1) == 2 * Pow2(r);
  }

  /** The waits of `n` consecutive failed retries starting from retry 0. */
  function Schedule(n: nat): (w: seq<nat>)
    ensures |w| == n
    ensures forall i :: 0 <= i < n ==> w[i] == Backoff(i)
  {
    seq(n, i requires 0 <= i => Backoff(i))
  }

  /**
   * `fetchPublicKeyWithRetry(maxRetries, currentRetry)` run against the key
   * cell `key`. Each call to the service either stores its `publicKey` and
   * returns, or, after a failure, throws once `currentRetry >= maxRetries`
   * and otherwise sleeps `Backoff(currentRetry)` and tries again with
   * `currentRetry + 1`.
   *
   * The contract describes the whole run: the last call is the first one that
   * succeeded or the one that exhausted the budget; every earlier call failed;
   * the waits are exactly the backoffs of the failed calls that were retried;
   * the key cell changes only on success, to the value that call returned.
   */
  function FetchPublicKeyWithRetry(service: KeyService, maxRetries: int, currentRetry: nat, key: PublicKey): (r: Bootstrap)
    decreases if currentRetry < maxRetries then maxRetries - currentRetry else 0
    ensures r.attempts >= 1
    ensures |r.waits| == r.attempts - 1
    ensures forall i :: 0 <= i < |r.waits| ==> r.waits[i] == Backoff(currentRetry + i)
    ensures forall i :: currentRetry <= i < currentRetry + r.attempts - 1 ==> service(i).Failed?
    ensures currentRetry + r.attempts - 1 <= if currentRetry < maxRetries then maxRetries else currentRetry
    ensures r.outcome.KeyFetched? <==> service(currentRetry + r.attempts - 1).Responded?
    ensures r.outcome.KeyFetched? ==> r.publicKey == service(currentRetry + r.attempts - 1).publicKey
    ensures r.outcome.Fatal? ==> r.outcome.message == FATAL_MESSAGE && r.publicKey == key
    ensures r.outcome.Fatal? ==> currentRetry + r.attempts - 1 >= maxRetries
  {
    match service(currentRetry)
    case Responded(k) => Bootstrap(1, [], k, KeyFetched)
    case Failed =>
      if currentRetry >= maxRetries then Bootstrap(1, [], key, Fatal(FATAL_MESSAGE))
      else
        var rest := FetchPublicKeyWithRetry(service, maxRetries, currentRetry + 1, key);
        Bootstrap(rest.attempts + 1, [Backoff(currentRetry)] + rest.waits, rest.publicKey, rest.outcome)
  }

  /**
   * `onModuleInit`: five retries, starting from the initial `null` key cell.
   * At most six calls are made, every call before the last one failed, the
   * waits follow the default schedule from its start, and the key cell is
   * written only by a call that answered. Startup ends in the fatal error
   * exactly when all six calls fail.
   */
  function OnModuleInit(service: KeyService): (r: Bootstrap)
    ensures 1 <= r.attempts <= DEFAULT_MAX_RETRIES + 1
    ensures r.waits == Schedule(DEFAULT_MAX_RETRIES)[..r.attempts - 1]
    ensures r.outcome.Fatal? ==> r.attempts == DEFAULT_MAX_RETRIES + 1 && r.publicKey == None
    ensures r.outcome.KeyFetched? ==>
              service(r.attempts - 1).Responded? && r.publicKey == service(r.attempts - 1).publicKey
    ensures forall i :: 0 <= i < r.attempts - 1 ==> service(i).Failed?
    ensures r.outcome.Fatal? <==> forall i :: 0 <= i <= DEFAULT_MAX_RETRIES ==> service(i).Failed?
  {
    var r := FetchPublicKeyWithRetry(service, DEFAULT_MAX_RETRIES, 0, None);
    assert r.waits == Schedule(DEFAULT_MAX_RETRIES)[..r.attempts - 1];
    r
  }

  /**
   * A service that never answers: exactly `maxRetries + 1` calls, the waits
   * 1000, 2000, 4000, ... between them, then the fatal error, with the key
   * cell untouched.
   */
  lemma AllFailuresExhaustBudget(service: KeyService, maxRetries: nat, key: PublicKey)
    requires forall i :: 0 <= i <= maxRetries ==> service(i).Failed?
    ensures FetchPublicKeyWithRetry(service, maxRetries, 0, key)
            == Bootstrap(maxRetries + 1, Schedule(maxRetries), key, Fatal(FATAL_MESSAGE))
  {
    var r := FetchPublicKeyWithRetry(service, maxRetries, 0, key);
    assert r.waits == Schedule(maxRetries);
  }

  /**
   * A service whose first answer comes on call `k` (1-based) within the
   * budget: exactly `k` calls and `k - 1` waits, no error, and the key cell
   * holds what that call returned.
   */
  lemma FirstSuccessStoresKey(service: KeyService, maxRetries: nat, k: nat, key: PublicKey)
    requires 1 <= k <= maxRetries + 1
    requires forall i :: 0 <= i < k - 1 ==> service(i).Failed?
    requires service(k - 1).Responded?
    ensures FetchPublicKeyWithRetry(service, maxRetries, 0, key)
            == Bootstrap(k, Schedule(k - 1), service(k - 1).publicKey, KeyFetched)
  {
    var r := FetchPublicKeyWithRetry(service, maxRetries, 0, key);
    assert r.waits == Schedule(k - 1);
  }

  /** The startup schedule: six calls with waits of 1, 2, 4, 8 and 16 seconds, then the fatal error. */
  lemma DefaultBudgetSchedule(service: KeyService)
    requires forall i :: 0 <= i <= DEFAULT_MAX_RETRIES ==> service(i).Failed?
    ensures OnModuleInit(service).attempts == 6
    ensures OnModuleInit(service).waits == [1000, 2000, 4000, 8000, 16000]
    ensures OnModuleInit(service).outcome == Fatal(FATAL_MESSAGE)
    ensures OnModuleInit(service).publicKey == None
  {
    AllFailuresExhaustBudget(service, DEFAULT_MAX_RETRIES, None);
    assert OnModuleInit(service) == Bootstrap(6, Schedule(5), None, Fatal(FATAL_MESSAGE));
    DefaultSchedule();
  }

  /** The default budget's waits: 1, 2, 4, 8 and 16 seconds. */
  lemma DefaultSchedule()
    ensures Schedule(DEFAULT_MAX_RETRIES) == [1000, 2000, 4000, 8000, 16000]
  {
    var w := Schedule(DEFAULT_MAX_RETRIES);
    assert Pow2(1) == 2;
    assert Pow2(2) == 4;
    assert Pow2(3) == 8;
    assert Pow2(4) == 16;
    assert w[0] == 1000 && w[1] == 2000 && w[2] == 4000 && w[3] == 8000 && w[4] == 16000;
  }

  // ---------------------------------------------------------------------------
  // Request gate: canActivate
  // ---------------------------------------------------------------------------

  /** The signature check: the decoded claims, or `None` on any failure. */
  type Verifier = (string, string) -> Option<JsObject>

  const BEARER_PREFIX := "Bearer "

  /** The three fixed reasons the gate rejects with. */
  datatype Rejection = NoTokenProvided | PublicKeyNotAvailable | InvalidOrExpiredToken {
    function Message(): string {
      match this
      case NoTokenProvided => "No token provided"
      case PublicKeyNotAvailable => "Public key not available"
      case InvalidOrExpiredToken => "Invalid or expired token"
    }

    /** Every rejection is an `UnauthorizedException`. */
    function ToHttpException(): (x: HttpException)
      ensures x.status.Code() == 401 && x.message != ""
    {
      HttpException(Message(), Unauthorized)
    }
  }

  /** `canActivate` either returns `true` with the request carrying its user, or throws. */
  datatype GuardResult = Allow(request: HttpRequest) | Reject(reason: Rejection)

  /** `request.headers.authorization` */
  function AuthorizationHeader(req: HttpRequest): Option<string> {
    if "authorization" in req.headers then Some(req.headers["authorization"]) else None
  }

  /**
   * The token a header carries: present only when the header is truthy and
   * starts with "Bearer ", and then it is the header minus its first seven
   * characters. It is the inverse of prefixing "Bearer ".
   */
  function BearerToken(header: Option<string>): (t: Option<string>)
    ensures t.Some? ==> header == Some(BEARER_PREFIX + t.value)
    ensures t.None? ==> header.None? || !StartsWith(header.value, BEARER_PREFIX)
  {
    if Truthy(header) && StartsWith(header.value, BEARER_PREFIX) then
      assert header.value == header.value[..7] + header.value[7..];
      Some(header.value[7..])
    else None
  }

  /** `!this.publicKey` fails only for a key cell holding a non-empty string. */
  predicate KeyAvailable(key: PublicKey) {
    Truthy(key)
  }

  /**
   * `canActivate`: the header check, then the key check, then verification.
   * Acceptance needs all three; it attaches the verifier's claims as the
   * request's user and leaves every other part of the request as it was.
   */
  function CanActivate(req: HttpRequest, key: PublicKey, verify: Verifier): (r: GuardResult)
    ensures BearerToken(AuthorizationHeader(req)).None? ==> r == Reject(NoTokenProvided)
    ensures BearerToken(AuthorizationHeader(req)).Some? && !KeyAvailable(key)
            ==> r == Reject(PublicKeyNotAvailable)
    ensures r.Allow? <==>
              && BearerToken(AuthorizationHeader(req)).Some?
              && KeyAvailable(key)
              && verify(BearerToken(AuthorizationHeader(req)).value, key.value).Some?
    ensures && BearerToken(AuthorizationHeader(req)).Some?
            && KeyAvailable(key)
            && verify(BearerToken(AuthorizationHeader(req)).value, key.value).None?
            ==> r == Reject(InvalidOrExpiredToken)
    ensures r.Reject? && r.reason == InvalidOrExpiredToken ==>
              && BearerToken(AuthorizationHeader(req)).Some?
              && KeyAvailable(key)
              && verify(BearerToken(AuthorizationHeader(req)).value, key.value).None?
    ensures r.Allow? ==>
              && r.request.user == verify(BearerToken(AuthorizationHeader(req)).value, key.value)
              && r.request.headers == req.headers
              && r.request.query == req.query
              && r.request.body == req.body
  {
    var token := BearerToken(AuthorizationHeader(req));
    if token.None? then Reject(NoTokenProvided)
    else if !KeyAvailable(key) then Reject(PublicKeyNotAvailable)
    else
      match verify(token.value, key.value)
      case None => Reject(InvalidOrExpiredToken)
      case Some(claims) => Allow(req.(user := Some(claims)))
  }

  /** The round trip of the bearer header: prefixing a token and reading it back gives the token. */
  lemma BearerRoundTrip(t: string)
    ensures BearerToken(Some(BEARER_PREFIX + t)) == Some(t)
  {
    assert (BEARER_PREFIX + t)[..7] == BEARER_PREFIX;
    assert (BEARER_PREFIX + t)[7..] == t;
  }

  /**
   * Without a usable header, or without a key, the verifier is never
   * consulted: any two verifiers give the same decision.
   */
  lemma VerifierUnusedBeforeVerification(req: HttpRequest, key: PublicKey, v1: Verifier, v2: Verifier)
    requires BearerToken(AuthorizationHeader(req)).None? || !KeyAvailable(key)
    ensures CanActivate(req, key, v1) == CanActivate(req, key, v2)
    ensures CanActivate(req, key, v1).Reject?
  {
  }

  /**
   * The verifier is consulted on exactly one question: the header minus
   * "Bearer ", against the stored key. Verifiers that agree there decide alike.
   */
  lemma VerifierAskedOnlyAboutToken(t: string, req: HttpRequest, key: PublicKey, v1: Verifier, v2: Verifier)
    requires AuthorizationHeader(req) == Some(BEARER_PREFIX + t)
    requires KeyAvailable(key)
    requires v1(t, key.value) == v2(t, key.value)
    ensures CanActivate(req, key, v1) == CanActivate(req, key, v2)
  {
    BearerRoundTrip(t);
  }

  /**
   * The gate on its own, fed the key cell a fatal bootstrap leaves: no request
   * is authenticated, whatever the token and the verifier. In the program the
   * fatal error escapes `onModuleInit` and aborts start-up, so this is the
   * gate's answer while the cell is still `null`, not a state a running
   * server reaches.
   */
  lemma FailedBootstrapRejectsEveryRequest(service: KeyService, req: HttpRequest, verify: Verifier)
    requires OnModuleInit(service).outcome.Fatal?
    ensures CanActivate(req, OnModuleInit(service).publicKey, verify).Reject?
    ensures BearerToken(AuthorizationHeader(req)).Some? ==>
              CanActivate(req, OnModuleInit(service).publicKey, verify) == Reject(PublicKeyNotAvailable)
  {
  }

  /**
   * The reachable way to a keyless server: startup succeeds, but the call that
   * answered carried an empty or missing `publicKey`. The assignment stores it
   * as is, and from then on every request is rejected, a well-formed one with
   * "Public key not available".
   */
  lemma FetchedEmptyKeyRejectsEveryRequest(service: KeyService, k: nat, req: HttpRequest, verify: Verifier)
    requires k <= DEFAULT_MAX_RETRIES
    requires forall i :: 0 <= i < k ==> service(i).Failed?
    requires service(k).Responded? && !Truthy(service(k).publicKey)
    ensures OnModuleInit(service).outcome.KeyFetched?
    ensures CanActivate(req, OnModuleInit(service).publicKey, verify).Reject?
    ensures BearerToken(AuthorizationHeader(req)).Some? ==>
              CanActivate(req, OnModuleInit(service).publicKey, verify) == Reject(PublicKeyNotAvailable)
  {
    FirstSuccessStoresKey(service, DEFAULT_MAX_RETRIES, k + 1, None);
  }
}
