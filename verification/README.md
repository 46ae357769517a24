# Gateway authentication and error translation, modelled in Dafny

This project models the decision logic of a NestJS API gateway that sits in
front of two gRPC services: an identity service (register, login, public key)
and a banking service (accounts, operations). Three rules are modelled:

- **`JwtAuthGuard`** (`jwt_auth_guard.dfy`). At startup, `onModuleInit` fetches
  the identity service's public key. It retries with exponential backoff and
  throws a fatal error once the retry budget is spent. On each protected
  request, `canActivate` checks three things in a fixed order: the
  `Authorization: Bearer` header, then whether a key is present, then the
  token's signature. It either rejects with one of three fixed reasons or
  attaches the decoded claims as `request.user`.
- **gRPC-code to HTTP-status translation** (`handleGrpcError`). There is one
  copy per controller (`auth_controller.dfy`, `banking_controller.dfy`). The
  message fallback they share and the canonical code table live in
  `grpc_error.dfy`.
- **Request shaping in the banking handlers** (`banking_controller.dfy`).
  Each handler forwards the query or body with `userId` set from the token
  subject. `getAccountById` forwards the path segment as
  `parseInt(accountId, 10)`.

Supporting modules:

- `wrappers.dfy`: `Option` and `Result`.
- `js.dfy`: JavaScript values and plain objects. Also truthiness of optional
  strings, `startsWith`, `{ ...o, k: v }`, and `parseInt(s, 10)` with its
  inverse, decimal rendering.
- `http.dfy`: HTTP statuses, `HttpException` and the request object.

Modelling choices:

- The signature check `jwt.verify` is a function parameter. It maps a token
  and a key to the decoded claims, or to `None` for any failure.
- "Verification is never invoked" is stated as independence: any two
  verifiers give the same decision.
- The identity and banking services are also function parameters. Each maps
  a request to what the call settles to. This takes the ports' declared
  `Promise` return types at face value (see "## Left out").
- The retry loop's service maps retry number `i` to the outcome of that call.
- Each sleep becomes one entry in the `waits` trace, in milliseconds.
- Request objects are `map<string, JsValue>`. This makes object spread
  followed by `userId` exactly a map update.
- A gRPC `code` that is missing, or is not an integer number, is `None`. The
  `switch` compares with strict equality, so every such code reaches
  `default` in both controllers.

## Model

| member | source | states |
|---|---|---|
| JwtAuthGuard.FetchPublicKeyWithRetry | src/guards/jwt-auth.guard.ts:22-50 | Describes the whole run. The last call is the first success, or the failure that reaches `maxRetries`. Every earlier call failed. The waits are 2^r·1000 ms for each retried failure r, so there is one wait fewer than there are calls. The key cell changes only on success, to that response's `publicKey`. On exhaustion it stays unchanged and the error is "Could not fetch public key from SSO". |
| JwtAuthGuard.AllFailuresExhaustBudget | src/guards/jwt-auth.guard.ts:26-49 | If every call fails, there are exactly maxRetries+1 calls, waits 1000, 2000, 4000, … ms, the fatal error, and an untouched key cell. |
| JwtAuthGuard.FirstSuccessStoresKey | src/guards/jwt-auth.guard.ts:26-31 | If the first success is call k ≤ maxRetries+1, there are exactly k calls, k−1 waits and no error, and the key cell holds that call's key. |
| JwtAuthGuard.DefaultBudgetSchedule | src/guards/jwt-auth.guard.ts:18-49 | At startup (5 retries) with a dead service: 6 calls, waits [1000, 2000, 4000, 8000, 16000], the fatal error, and the key cell still null. |
| JwtAuthGuard.DefaultSchedule | src/guards/jwt-auth.guard.ts:41-42 | The default budget of five retries waits 1, 2, 4, 8 and 16 seconds, as the comment at line 41 lists. |
| JwtAuthGuard.Backoff | src/guards/jwt-auth.guard.ts:41-42 | The wait after a failed retry is a whole number of seconds, at least one second. |
| JwtAuthGuard.BackoffDoubles | src/guards/jwt-auth.guard.ts:41-42 | The first wait is 1000 ms and each later wait is twice the one before. |
| JwtAuthGuard.OnModuleInit | src/guards/jwt-auth.guard.ts:18-49 | Startup makes between one and six calls, and every call before the last one failed. Its waits are a prefix of [1000, 2000, 4000, 8000, 16000]. Startup ends in the fatal error exactly when all six calls fail, and then the key is still null. Otherwise the last call answered and its key is stored. |
| JwtAuthGuard.BearerToken | src/guards/jwt-auth.guard.ts:59-65 | A token exists only when the header is present and starts with "Bearer ". The header is then exactly "Bearer " followed by the token. |
| JwtAuthGuard.BearerRoundTrip | src/guards/jwt-auth.guard.ts:61-65 | Reading the token back from "Bearer " + t gives t. |
| JwtAuthGuard.CanActivate | src/guards/jwt-auth.guard.ts:57-81 | A bad or missing header gives "No token provided", whatever the key. Otherwise a null or empty key gives "Public key not available". The request is accepted iff the header is well-formed, the key is present and the verifier accepts. A verifier failure gives "Invalid or expired token". On acceptance `user` is the verifier's claims and headers, query and body are unchanged. |
| JwtAuthGuard.VerifierUnusedBeforeVerification | src/guards/jwt-auth.guard.ts:59-69 | With no usable header or no key, the verifier is not consulted: any two verifiers give the same rejection. |
| JwtAuthGuard.VerifierAskedOnlyAboutToken | src/guards/jwt-auth.guard.ts:65-74 | The verifier is asked about one pair only: the header minus its first 7 characters, and the stored key. Verifiers that agree on that pair decide alike. |
| JwtAuthGuard.FailedBootstrapRejectsEveryRequest | src/guards/jwt-auth.guard.ts:14-69 | The gate on its own, given the key cell a fatal startup leaves (still null), rejects every request. A request with a well-formed header gets "Public key not available". |
| JwtAuthGuard.FetchedEmptyKeyRejectsEveryRequest | src/guards/jwt-auth.guard.ts:26-69 | If the first call to answer, within the startup budget, carries an empty or missing `publicKey`, startup succeeds and stores it. Every request is then rejected, and a request with a well-formed header gets "Public key not available". |
| GrpcError.ErrorMessage | src/auth/auth.controller.ts:54-55 | The message is never empty. It is non-empty details if there are any; otherwise a non-empty message; otherwise "Internal server error". |
| AuthController.StatusFor | src/auth/auth.controller.ts:57-73 | The switch, in source case order, equals the order-free table {3→400, 5→404, 6→409, 7→403, 16→401} with default 500. The result is 409 iff the code is 6. The result is 500 iff the code is absent or not in the table. |
| AuthController.HandleGrpcError | src/auth/auth.controller.ts:52-74 | The status is the table status of `error?.code`. The message is the fallback-chain message and is never empty. A null error gives 500 "Internal server error". |
| AuthController.Register | src/auth/auth.controller.ts:23-32 | The DTO goes to the identity service unchanged. The route settles to exactly what that call settles to, including a raw rejection. |
| AuthController.Login | src/auth/auth.controller.ts:34-41 | The same pass-through, for login. |
| AuthController.RoutesForwardBodyUnchanged | src/auth/auth.controller.ts:23-41 | The result depends on the service only through its answer for the DTO. A failure comes back as the service's own error. |
| AuthController.UnawaitedRejectionBypassesTranslator | src/auth/auth.controller.ts:27-31 | As written, an ALREADY_EXISTS rejection reaches the caller as the raw gRPC error, not as the 409 the translator would give. |
| AuthController.RegisterAwaited | src/auth/auth.controller.ts:23-32 | The corrected route: success passes through unchanged. Every rejection gets its table status, and the message follows the details → message → "Internal server error" chain, so it is never empty. |
| AuthController.LoginAwaited | src/auth/auth.controller.ts:34-41 | The corrected login route, with the same translation: table status and the fallback-chain message. |
| AuthController.AwaitedDuplicateIsConflict | src/auth/auth.controller.ts:57-61 | With the await, a duplicate registration becomes 409 Conflict carrying the service's details. |
| BankingController.StatusFor | src/banking/banking.controller.ts:94-108 | Every code except 6 gets the canonical table status. Code 6 falls to 500. 409 is never produced. |
| BankingController.HandleGrpcError | src/banking/banking.controller.ts:89-109 | Same message rule, never empty. The status is the table status for every code but 6, and 500 for 6. |
| BankingController.TranslatorsAgreeExceptAlreadyExists | src/banking/banking.controller.ts:94-108 | The banking and auth translators return the same exception iff the code is not 6. |
| BankingController.AccountsRequest | src/banking/banking.controller.ts:34-35 | `getAccounts` forwards `{ userId }` with the token subject, and nothing else. |
| BankingController.AccountByIdRequest | src/banking/banking.controller.ts:47-50 | Forwards exactly `accountId` (the base-10 `parseInt` of the path segment) and `userId` (the token subject). |
| BankingController.AccountIdOfDecimalPath | src/banking/banking.controller.ts:49 | A path segment that is the decimal rendering of integer n is forwarded as n. |
| BankingController.OperationsRequest | src/banking/banking.controller.ts:63-67 | `userId` is the token subject even if the query had one. The keys are the query's keys plus `userId`. Every other query field is forwarded unchanged. |
| BankingController.CreateOperationRequest | src/banking/banking.controller.ts:79-83 | The same for the body: the subject overrides `userId`, and every other body field is unchanged. `accountId`, `type`, `amount` and `description` reach the service as sent. This includes a `type` outside the four allowed values. |
| BankingController.ClientUserIdIgnored | src/banking/banking.controller.ts:63-83 | A client-supplied `userId` has no effect: the result is as if the query or body had none. |
| BankingController.Forward | src/banking/banking.controller.ts:31-83 | A handler makes a call iff `req.user` is attached. Each route then calls its own method with its own request: `getAccounts` with `AccountsRequest`, `getAccountById` with `AccountByIdRequest` of the path segment, `getOperations` with `OperationsRequest` of the query, and `createOperation` with `CreateOperationRequest` of the body. The call's `userId` is the user's subject. |
| BankingController.Handle | src/banking/banking.controller.ts:31-87 | A missing user surfaces as a 500 carrying the TypeError text. An awaited success passes through. Every rejection goes through this controller's translator. |
| BankingController.Serve | src/banking/banking.controller.ts:24-26 | A guard rejection is answered as 401 with its fixed reason, before any handler runs. An accepted request is answered by the route's handler, run on the request the guard returned. |
| BankingController.ServedUserIsTokenSubject | src/banking/banking.controller.ts:25-35 | Behind a valid token, the handler always calls the service, and `userId` is the verified token's `sub`. |
| BankingController.ServeTranslatesBankingFailure | src/banking/banking.controller.ts:32-38 | Behind a valid token, if the routed call is rejected, the banking translator translates the rejection. It is never reported as a guard rejection. |
| Js.SpreadWith | src/banking/banking.controller.ts:64-67 | `{ ...o, k: v }` has `k` = v, the keys of `o` plus `k`, and every other property of `o` unchanged. |
| Js.ParseInt10 | src/banking/banking.controller.ts:49 | `parseInt(s, 10)` is NaN or an integer. It is NaN iff no digit follows the leading white space and optional sign. The value otherwise is pinned by `ParseIntOfSignedRun`. |
| Js.ParseIntOfDecimal | src/banking/banking.controller.ts:49 | Reading back the decimal rendering of any integer n gives n, even when a non-digit suffix follows. |
| Js.ParseIntSkipsWhiteSpace | src/banking/banking.controller.ts:49 | Leading white space does not change the result of `parseInt`. |
| Js.ParseIntOfSignedRun | src/banking/banking.controller.ts:49 | For any white space, then no sign, `+` or `-`, then a digit run ended by a non-digit or the end: `parseInt` gives the run's value, negated only after `-`. |
| Js.DigitsValueAppend | src/banking/banking.controller.ts:49 | A digit run's value is positional: `a` followed by `b` is worth value(a)·10^len(b) + value(b). |
| Js.DigitsValueZeroPadded | src/banking/banking.controller.ts:49 | Leading zeros do not change a digit run's value. |
| Js.ParseIntPlusSign | src/banking/banking.controller.ts:49 | The path segment "+42" is forwarded as 42. |
| Js.ParseIntLeadingZeros | src/banking/banking.controller.ts:49 | The path segment "007" is forwarded as 7. |

## Left out

- JwtAuthGuard.FailedBootstrapRejectsEveryRequest: covers the gate alone. As written, the fatal error escapes `onModuleInit` and aborts application start-up, so no request is served after it; the lemma describes the gate only if that error were caught. The reachable keyless state is `FetchedEmptyKeyRejectsEveryRequest`.
- Signature verification: `jwt.verify` with RS256 is foreign cryptography and is a parameter here. A JWT whose payload is a string rather than an object is not modelled: claims are always an object.
- Timers, promises, rxjs and console logging: a sleep is only an entry in the wait trace, and log lines are not modelled.
- JwtAuthGuard.Backoff: `Math.pow(2, r) * 1000` is computed exactly. Floating point gives the same value for every retry count it can be reached with.
- JwtAuthGuard.FetchPublicKeyWithRetry: a response that is itself null or undefined, so that reading `.publicKey` throws inside the `try` and is treated as a failure, is not modelled. A response is always an object.
- The gRPC adapters (`auth.service.ts`, `banking.service.ts`) are one-line pass-throughs to generated client stubs. The ports and module files are dependency-injection and transport configuration. The services are parameters here.
- DTO validation (class-validator decorators such as `IsEmail` and `IsIn`) is declarative metadata for a library that is not part of this model. Handlers receive whatever query or body reaches them.
- BankingController.Handle: the ports declare that each call returns a `Promise`, and the model takes that at face value, so an awaited rejection reaches the `catch` and is translated. The adapters actually return the generated gRPC client stubs' results. In the Nest gRPC client these are rxjs Observables (the guard wraps the same stub in `firstValueFrom(from(…))`). Awaiting an Observable does not subscribe to it. If the stubs return Observables, the `catch` blocks of every controller see only synchronous throws, and banking rejections bypass `handleGrpcError` too. The model does not cover that reading.
- AuthController.Register: the status Nest's default exception filter gives a raw rejection is framework behaviour and is not modelled. The route result stays the raw gRPC error.
- Js.ParseInt10: values above 2^53 are exact here, while JavaScript rounds them. `parseInt("-0")` is 0 here; JavaScript gives -0.
- Js.JsValue: nested objects and arrays are not represented. No modelled rule reads inside a property value.
- The commented-out `getPublicKey` route of the auth controller is not modelled, because it is not compiled.

## Findings

| source | as written | input that shows it | evidently intended | confidence | as-written member | corrected member |
|---|---|---|---|---|---|---|
| src/auth/auth.controller.ts:27-40 | `return this.authServiceGrpc.register(dto)` (and `login`) inside `try` without `await`. A rejected promise is never caught, so `handleGrpcError` never sees gRPC failures. | The identity service rejects register with `{code: 6, details: "email taken"}`. The route settles to the raw gRPC error instead of 409 "email taken". | make `register`/`login` `async` and `return await firstValueFrom(…)` around the call, so that a rejection reaches the `catch` and is translated | high; not executed | AuthController.UnawaitedRejectionBypassesTranslator | AuthController.RegisterAwaited |
