# SocialBeats API gateway — a Dafny model

This project models the request-handling core of the SocialBeats API gateway, an Express application
that sits in front of the users, payments, analytics and notifications microservices. The model covers:

- **Pipeline.** The order of the server's middleware and what each stage decides.
  - The forwarded-prefix middleware.
  - The `/api` authentication gate and its list of public paths.
  - The plan-aware rate limiter, which is mounted after the gate.
  - The proxy routes and the aggregation routes.
  - The error handler and the final 404.
- **Authentication.** JWT bearer authentication, and the trust headers it writes for the backends (`x-user-id`,
  `x-user-email`, `x-user-role`, `x-pricing-plan`, `x-gateway-authenticated`).
- **Access rules.**
  - Role-based authorization.
  - The CORS origin decision.
  - Remote token validation, which fails closed.
- **Circuit breakers.** The per-service breaker registry (get-or-create, and a stats snapshot). Breaker-protected calls go through it.
- **Dashboard aggregation.** Each of the three sources degrades on its own to a default.
- **Response envelopes.** The standard success and error bodies (`sendSuccess`, `sendError`, `getErrorType`).
- **Space integration.** The Space client singleton, and the pricing-token handshake on proxied responses.

The model follows the source's form:

- **Pure logic becomes functions and lemmas.** This covers decisions, bodies, tables and string handling.
- **State the source updates in place becomes classes with methods and frame clauses.**
  - The Express request, whose headers, `user`, `pricingToken` and `publicBasePath` the middlewares write (`Http.Request`).
  - The proxied response's headers.
  - The breaker registry (`CircuitBreaker.Registry`, a name→breaker map plus its insertion order).
  - The Space client holder.

  Each such method is specified against a function and proved to match it. The stats snapshot is a loop proved to produce exactly the registry's view.
- **Code outside the gateway becomes parameters.** These are function-typed oracles:
  - `jwt.verify` (`Jwt.Verifier`);
  - a whole opossum `breaker.fire` (`CircuitBreaker.Fire`), including its short-circuit and its fallback;
  - the axios POST of token validation;
  - Space's `connect` and `generateUserPricingToken`.

  Clock readings and environment variables are parameters too.

JavaScript semantics that matter here are written out:

- truthiness and `||`;
- `String.prototype.replace` with a string pattern, which replaces only the first occurrence;
- `split(',')`, which does no trimming;
- `${undefined}`, which renders as `"undefined"`;
- optional chaining;
- property lookup on object literals, which also finds members inherited from `Object.prototype`.

## Model

| member | source | states |
|---|---|---|
| JsText.OrElseTruthy | server.js:64 | `a \|\| 'literal'` with a nonempty literal is never empty, and is either the literal or the value of `a` |
| JsText.IndexOf | src/middleware/authentication.js:25 | the index found is the first occurrence of the pattern at or after the start; `None` means there is no occurrence |
| JsText.ReplacePrefix | src/middleware/authentication.js:25 | replacing a prefix that is present by nothing removes exactly that prefix; putting the prefix back rebuilds the header |
| JsText.SplitPartsHaveNoSeparator | src/config/cors.js:19 | no entry produced by `split(',')` contains a comma |
| JsText.JoinSplit | src/config/cors.js:19 | joining the split entries with the separator rebuilds the original string (split loses nothing) |
| JsText.SplitWithoutSeparator | src/config/cors.js:19 | a string without a comma splits into exactly itself |
| JsText.NatToString | src/services/aggregationService.js:76 | `${duration}` renders a natural number as decimal digits that denote exactly that number (`DigitsValue`), with no leading zero unless the number is 0 |
| Http.SetHeader | src/middleware/authentication.js:33-37 | after `req.headers[name] = v`, the header reads back as `v`, and every other header is unchanged |
| ResponseUtil.ErrorType | src/utils/response.js:50-73 | no contract of its own; `ErrorTypeRoundTrip` and `ErrorTypesDistinct` state the table against its inverse `StatusOfErrorType` |
| ResponseUtil.StatusOfErrorType | src/utils/response.js:50-73 | the inverse reading of `getErrorType` only yields named statuses |
| ResponseUtil.ErrorTypeRoundTrip | src/utils/response.js:50-73 | each of the nine named statuses maps to its own error type, from which the status is read back; every other status is reported as `Error` |
| ResponseUtil.ErrorTypesDistinct | src/utils/response.js:50-73 | two different named statuses never share an error type |
| ResponseUtil.SendSuccess | src/utils/response.js:15-22 | status defaults to 200; the body has exactly the keys success/message/data/timestamp, with `success: true`, message defaulting to `Success`, and the data unchanged |
| ResponseUtil.SendError | src/utils/response.js:32-45 | status defaults to 500; `success: false`; `error` is the error type of the status; `details` appears iff the details are truthy and NODE_ENV is not production, and it carries them unchanged |
| ErrorHandler.HandleError | src/utils/errorHandler.js:3-21 | status is `err.status \|\| 500`; the error is always `Internal server error`; the message is redacted in production; the stack appears iff not in production |
| ErrorHandler.ProductionRedacts | src/utils/errorHandler.js:12-20 | in production two errors with the same status get identical replies: nothing else the error carries leaks |
| Authorization.HasAllowedRole | src/middleware/authorization.js:30-32 | no contract of its own; `allowedRoles.includes(req.user.role)`, never true for an absent role, and `Authorize` states `next()` iff it holds |
| Authorization.Authorize | src/middleware/authorization.js:18-46 | no user gives a 401 `sendError`; a user whose role is not allowed gives a 403; `next()` iff a user is present and their role is in the allowed list |
| Authorization.UnauthenticatedBeforeRoleCheck | src/middleware/authorization.js:21-27 | without a user the answer is 401, whatever roles are allowed |
| Authorization.DefaultDeniesEveryone | src/middleware/authorization.js:18-38 | with the default empty role list every authenticated user gets 403 |
| Services.Table | src/config/services.js:8-25 | no contract of its own; `TableNames`, `GetServiceUrl` and `GetServiceTimeout` state its names, URLs and timeouts |
| Services.TableNames | src/config/services.js:8-25 | the service table has exactly users, payments, analytics and notifications, whatever the environment |
| Services.GetServiceUrl | src/config/services.js:27-33 | success iff the name is configured, with the configured (nonempty) URL; otherwise the `Service <name> not found in configuration` error |
| Services.GetServiceTimeout | src/config/services.js:35-38 | the timeout is 5000 for users, payments, analytics and unknown names, 3000 for notifications, and never 0 |
| Authentication.BearerToken | src/middleware/authentication.js:15-25 | a token is extracted iff the header is truthy and starts with `Bearer `; the token is the header minus that prefix |
| Authentication.ClassifyError | src/middleware/authentication.js:47-64 | every verification failure is a 401: `Token expired` for TokenExpiredError, `Invalid token` for JsonWebTokenError, otherwise `Authentication failed` with the error's message |
| Authentication.Enrich | src/middleware/authentication.js:33-37 | no contract of its own; `EnrichSetsTrustHeaders` states the five trust headers it writes and that it keeps every other header |
| Authentication.EnrichSetsTrustHeaders | src/middleware/authentication.js:33-37 | after enrichment the five trust headers hold `userId \|\| id`, email, `role \|\| 'user'`, `pricingPlan \|\| 'free'` and `true`; all other headers are unchanged |
| Authentication.SpoofedTrustHeadersOverwritten | src/middleware/authentication.js:33-37 | whatever trust headers a client sends, after authentication they are the same as for a client that sent none |
| Authentication.Authenticate | src/middleware/authentication.js:13-66 | no contract of its own; `AuthenticatedIff`, `MissingBearerRejected` and `SameBearerSameClaims` state the decision |
| Authentication.MissingBearerRejected | src/middleware/authentication.js:17-23 | without a usable bearer header the answer is the `No token provided` 401, and the verifier plays no part |
| Authentication.AuthenticatedIff | src/middleware/authentication.js:13-66 | a request is authenticated iff it has an authorization header starting with `Bearer ` whose remainder the verifier accepts; every rejection is a 401 |
| Authentication.SameBearerSameClaims | src/middleware/authentication.js:15-29 | the decision and the claims depend only on the authorization header |
| Authentication.AuthenticateRequest | src/middleware/authentication.js:13-66 | on success it writes the enriched headers and `req.user` and calls next; on failure it answers and leaves the request untouched |
| RateLimiter.PlanLimit | src/middleware/rateLimiter.js:51-58 | a listed plan gets its quota (free 10, basic 50, premium 200, enterprise 1000), any other plan gets the free quota; the result is always one of the table's quotas |
| RateLimiter.InheritedPlanNameHasNoQuota | src/middleware/rateLimiter.js:51-58 | as written, a plan named `constructor` or `toString` looks up an inherited member rather than a quota |
| RateLimiter.PlanLimitAsWrittenAgrees | src/middleware/rateLimiter.js:51-58 | for every plan name that is not an inherited member, the lookup as written equals the corrected one |
| RateLimiter.Max | src/middleware/rateLimiter.js:42-62 | with the corrected lookup: an unauthenticated request gets 20; an authenticated one gets the quota of its effective plan |
| RateLimiter.MaxAsWritten | src/middleware/rateLimiter.js:42-62 | as written: an unauthenticated request gets `Quota(20)`; an authenticated one gets the object-literal lookup of its effective plan, which may be an inherited member |
| RateLimiter.MaxAsWrittenValues | src/middleware/rateLimiter.js:42-62 | as written, `max` yields an inherited member iff the request is authenticated and its effective plan is named like one; otherwise it yields one of 10, 20, 50, 200, 1000, the same quota as the corrected `Max` |
| RateLimiter.PlanLimitAsWritten | src/middleware/rateLimiter.js:51-58 | no contract of its own; `InheritedPlanNameHasNoQuota` and `PlanLimitAsWrittenAgrees` state where it differs from `PlanLimit` and where it agrees |
| RateLimiter.EffectivePlan | src/middleware/rateLimiter.js:48 | no contract of its own; `PlanPrecedence` states its three-way precedence |
| RateLimiter.ReportedPlan | src/middleware/rateLimiter.js:72 | no contract of its own; `ExceededReply` states where it appears in the 429 body |
| RateLimiter.MaxValues | src/middleware/rateLimiter.js:42-62 | with the corrected lookup, every request's quota is one of 10, 20, 50, 200, 1000 |
| RateLimiter.AnonymousIgnoresPlanHeader | src/middleware/rateLimiter.js:44-46 | for an unauthenticated request no `x-pricing-plan` header changes the quota of 20 |
| RateLimiter.PlanPrecedence | src/middleware/rateLimiter.js:48 | the effective plan is the token's plan claim if truthy, else the `x-pricing-plan` header if truthy, else `free` |
| RateLimiter.KeyAsWritten | src/middleware/rateLimiter.js:65-68 | the counter key is `req.user?.userId`, else the `x-user-id` header, else the address, including for unauthenticated requests |
| RateLimiter.AnonymousKeyChosenByClient | src/middleware/rateLimiter.js:65-68 | as written, an unauthenticated client sending `x-user-id` is counted under that value instead of its address |
| RateLimiter.Key | src/middleware/rateLimiter.js:65-68 | an unauthenticated request is counted under its address; an authenticated one is counted as written |
| RateLimiter.AnonymousKeyIsAddress | src/middleware/rateLimiter.js:65-68 | unauthenticated requests from one address share one counter, whatever headers they send |
| RateLimiter.ExceededReply | src/middleware/rateLimiter.js:71-82 | the answer is 429 `Too many requests`, naming `req.user?.pricingPlan \|\| 'free'` in the message and in `currentPlan`, with `upgradeInfo: Upgrade your plan for higher limits`, and passing `Retry-After` through; the body has exactly those keys, `retryAfter` only when the header is set |
| CircuitBreaker.OptionsFor | src/middleware/circuitBreaker.js:10-17 | every breaker has timeout 5000, threshold 50%, reset 30000, a 10000 ms window in 10 buckets of 1000 ms, volume threshold 5, and the service's name |
| CircuitBreaker.Breaker.constructor | src/middleware/circuitBreaker.js:34-37 | a new breaker is closed and carries the standard options under the service's name |
| CircuitBreaker.StateOf | src/middleware/circuitBreaker.js:110 | the reported state is open iff `opened`, half-open iff not opened and `halfOpen`, closed otherwise |
| CircuitBreaker.LabelInjective | src/middleware/circuitBreaker.js:110 | the three state labels are distinct |
| CircuitBreaker.Fallback | src/middleware/circuitBreaker.js:67-78 | the fallback resolves with status 503, `fallback: true` and the service's name |
| CircuitBreaker.WithBaseUrl | src/middleware/circuitBreaker.js:91-94 | the service URL becomes the base URL; method, url and headers are kept |
| CircuitBreaker.Protected | src/middleware/circuitBreaker.js:87-100 | no contract of its own; `ProtectedIgnoresCallerBaseUrl` and `Registry.ProtectedRequest` state it: the breaker fired with the service URL as base URL, a rejection passed on unchanged |
| CircuitBreaker.ProtectedIgnoresCallerBaseUrl | src/middleware/circuitBreaker.js:87-100 | a protected call does not depend on any base URL the caller supplied |
| CircuitBreaker.Registry.GetCircuitBreaker | src/middleware/circuitBreaker.js:25-82 | returns the registered breaker for the name; otherwise it registers a fresh closed breaker and appends the name to the iteration order; other entries are untouched and the URL plays no part |
| CircuitBreaker.Registry.ProtectedRequest | src/middleware/circuitBreaker.js:87-100 | registers the breaker if needed: a new name gets a fresh breaker with the standard options, appended to the iteration order, and other entries stay; then it settles exactly as the breaker fired with the service URL as base URL, the fired breaker's flags and counters being left to the library |
| CircuitBreaker.Registry.GetCircuitBreakerStats | src/middleware/circuitBreaker.js:105-116 | one entry per registered breaker, keyed by name, holding its state label and stats, equal to the registry's view; nothing is changed |
| CircuitBreaker.RegistryKeyedByName | src/middleware/circuitBreaker.js:25-28 | two registrations under one name, even with different URLs, yield the same breaker and a registry of size 1 |
| AggregationService.Sources | src/services/aggregationService.js:25-66 | the three sources are users, payments and analytics, in that order |
| AggregationService.SourceRequest | src/services/aggregationService.js:27-33 | each source request is a GET for its own path carrying `x-user-id` and `x-gateway-authenticated: true` |
| AggregationService.Settle | src/services/aggregationService.js:34-39 | a resolved call contributes its data; a rejected one contributes the source's default and its error string |
| AggregationService.ToJson | src/services/aggregationService.js:71-79 | the result has exactly the keys profile, payments, analytics and metadata, and carries each field unchanged |
| AggregationService.GetDashboardData | src/services/aggregationService.js:19-80 | no contract of its own; `FieldsFollowTheirSource`, `FieldIndependence` and `FallbackReachesField` state what each field holds, and it never fails |
| AggregationService.FieldsFollowTheirSource | src/services/aggregationService.js:25-74 | each dashboard field is its source's data when the call resolves, and otherwise null, the empty list or null |
| AggregationService.FieldIndependence | src/services/aggregationService.js:25-74 | partial failure is isolated: a field depends only on its own source's call |
| AggregationService.SettledErrorDiscarded | src/services/aggregationService.js:34-39 | the `.catch` error strings never reach the result |
| AggregationService.FallbackReachesField | src/services/aggregationService.js:27-39 | when the breaker's call resolves with the fallback (opossum runs it for an open breaker and for a failed or timed-out request), the field holds the fallback object and not the default |
| AggregationService.CallsCarryIdentity | src/services/aggregationService.js:27-61 | every call goes to the configured service's URL and carries the user id, the gateway marker and the user's own path |
| AggregationRoutes.EndpointBehindGate | server.js:152-186 | `/api/v1/dashboard` and `/api/v1/circuit-breaker-stats` are not public paths, so both are reached only after authentication |
| AggregationRoutes.DashboardReply | src/routes/aggregation.js:37-47 | a successful aggregation answers 200 with the data; a failure answers the 500 `Failed to aggregate dashboard data` error with the message as details |
| AggregationRoutes.Dashboard | src/routes/aggregation.js:34-48 | no contract of its own; `DashboardAlwaysSucceeds` states that it answers 200 with the aggregation for `req.user.userId` |
| AggregationRoutes.DashboardAlwaysSucceeds | src/routes/aggregation.js:34-48 | the dashboard always answers 200 with the aggregation for `req.user.userId` |
| AggregationRoutes.StatsJson | src/routes/aggregation.js:55-60 | the payload holds `circuitBreakers` with exactly the registered names, each mapped to `{ state, stats }` of that breaker (src/middleware/circuitBreaker.js:109-112) |
| AggregationRoutes.StatsReply | src/routes/aggregation.js:55-60 | no contract of its own; `StatsOnlyForAdmins` states that it answers 200 iff the user is an authenticated admin, else 401 or 403 |
| AggregationRoutes.StatsOnlyForAdmins | src/routes/aggregation.js:55-60 | the stats are answered with 200 iff the user is an authenticated admin; otherwise 401 (no user) or 403 |
| AggregationRoutes.CircuitBreakerStats | src/routes/aggregation.js:55-60 | the handler answers exactly the authorization-then-snapshot reply over the registry's current view |
| Cors.Origin | src/config/cors.js:12-27 | no contract of its own; `OriginAllowedIff` (both directions) and `AbsentOrDevelopmentAllowed` state the decision |
| Cors.OriginAllowedIff | src/config/cors.js:12-27 | outside development a present origin is allowed iff `ALLOWED_ORIGINS` is set and one comma-separated entry is `*` or equals the origin exactly |
| Cors.EntriesAreExactSegments | src/config/cors.js:19 | the allowed-origin entries contain no comma and rebuild the variable exactly |
| Cors.CommaOriginOnlyByWildcard | src/config/cors.js:19-26 | an origin containing a comma is admitted only by `*` |
| Cors.SingleOrigin | src/config/cors.js:19-26 | a single configured origin admits exactly itself |
| Cors.UnsetRejectsAll | src/config/cors.js:19-26 | with `ALLOWED_ORIGINS` unset every present origin is rejected outside development |
| Cors.AbsentOrDevelopmentAllowed | src/config/cors.js:13-17 | an absent origin is allowed in every environment, and every origin is allowed in development |
| Proxy.RewriteIsIdentity | src/routes/proxy.js:15-17 | each route's path rewrite maps every path to itself |
| Proxy.NoPrefixOverlap | src/routes/proxy.js:8-102 | no route prefix is a prefix of another |
| Proxy.AtMostOneRoute | src/routes/proxy.js:8-102 | a path is taken by at most one proxy route |
| Proxy.RouteFor | src/routes/proxy.js:8-102 | finds the route mounted on a path; `None` iff no route is mounted on it |
| Proxy.ErrorReply | src/routes/proxy.js:21-28 | a proxy error answers 503 with exactly `error: Service unavailable`, `service` naming the route's own service, and `message: Unable to reach <service> service` |
| Proxy.ErrorRepliesNameTheirBackend | src/routes/proxy.js:21-98 | different routes give different error replies |
| Proxy.TargetAsWritten | src/routes/proxy.js:13 | reading a route's target succeeds iff its service key is in the service table |
| Proxy.SetupAsWritten | src/routes/proxy.js:8-30 | setting up succeeds iff every route's service key is in the service table, and then yields one target per route |
| Proxy.SetupAsWrittenThrows | src/routes/proxy.js:8-30 | as written, `services.auth` does not exist, so the proxy setup throws |
| Proxy.Target | src/routes/proxy.js:13 | with auth served by the users service, every route has a target, namely the configured URL of its service |
| Proxy.Forward | src/routes/proxy.js:8-102 | no contract of its own; `ForwardKeepsPath` states where a request goes |
| Proxy.ForwardKeepsPath | src/routes/proxy.js:8-102 | a request is forwarded iff some route is mounted on its path; it keeps its path and goes to that route's configured service |
| TokenValidation.ValidationPost | src/services/tokenValidationService.js:12-24 | the POST goes to the users service's URL plus `/api/v1/auth/validate-token`, with body `{token}` and a 3000 ms timeout |
| TokenValidation.ValidateToken | src/services/tokenValidationService.js:10-44 | it returns the service's data; on error it returns the service's error body if truthy, otherwise the SERVICE_UNAVAILABLE answer |
| TokenValidation.FailsClosed | src/services/tokenValidationService.js:36-42 | when the service does not answer, the result says `valid: false` |
| SpaceClient.Holder.constructor | src/lib/spaceClient.js:12 | the instance starts out null |
| SpaceClient.Holder.InitSpaceClient | src/lib/spaceClient.js:30-36 | connects only the first time; later calls return the stored instance whatever options they pass |
| SpaceClient.Holder.GetSpaceClient | src/lib/spaceClient.js:50-57 | returns the stored instance, or the not-initialised error before initialisation |
| SpaceClient.Holder.IsSpaceClientReady | src/lib/spaceClient.js:64-66 | ready iff an instance is stored |
| SpaceClient.Lifecycle | src/lib/spaceClient.js:12-66 | before initialisation: not ready and failing; afterwards: ready, and every later initialisation and lookup yields the first connection |
| PricingToken.TokenStoredIff | src/middleware/pricingTokenMiddleware.js:22-44 | a token is stored iff the client is ready, `x-user-id` is truthy and generation succeeds; otherwise (errors included) the previous value stays |
| PricingToken.GeneratePricingToken | src/middleware/pricingTokenMiddleware.js:22-44 | `req.pricingToken` becomes the token the rule above determines; nothing else changes |
| PricingToken.Injected | src/middleware/pricingTokenMiddleware.js:54-60 | `Pricing-Token` is set to the request's token iff that token is truthy; every other response header is unchanged |
| PricingToken.InjectPricingToken | src/middleware/pricingTokenMiddleware.js:54-60 | the response headers become the injected headers; the request is only read |
| Server.ForwardedPrefix | server.js:64 | the public base path is the `x-forwarded-prefix` header if truthy, else `/socialbeats-api`; never empty |
| Server.SetPublicBasePath | server.js:62-67 | records the forwarded prefix on the request and calls next |
| Server.NameLength | server.js:172 | measures the longest run of `[^\s/]` characters at the start |
| Server.PathMatches | server.js:169-177 | no contract of its own; `StaticEntryIsPrefix` and `SingleParameter` state its two branches |
| Server.AnyMatchesIff | server.js:169-178 | `publicPaths.some(...)` holds iff some entry matches |
| Server.PublicPathsShape | server.js:152-163 | no public entry has a parameter; all entries but `/v1/profile/internal` lie under `/v1/auth/` |
| Server.StaticEntryIsPrefix | server.js:177 | an entry without parameters matches only paths that start with it |
| Server.IsPublic | server.js:152-178 | no contract of its own; `PublicIff` states it in both directions and `PublicTrees` bounds it |
| Server.PublicIff | server.js:152-178 | a path is public iff it equals an entry or lies below one |
| Server.PublicTrees | server.js:152-178 | every public path lies under `/v1/auth/` or `/v1/profile/internal` |
| Server.PublicExamples | server.js:152-178 | `/v1/auth/login` and `/v1/profile/internal/42` are public |
| Server.NotPublicBesides | server.js:152-178 | a path that is no entry and lies below none is not public |
| Server.SegmentBoundary | server.js:177 | `/v1/auth/loginx` is not public: entries match whole segments |
| Server.BelowMount | server.js:165 | below a mount point, the middleware sees the rest of the path |
| Server.ProtectedBelowApi | server.js:165-186 | a path under `/api` outside `/v1/auth/` and `/v1/profile/internal` goes through authentication |
| Server.TokensOfLiteralPrefix | server.js:172 | the parameter replacement leaves `:`-free text literal |
| Server.MatchesLiteralPrefix | server.js:173-174 | the anchored pattern matches a literal prefix followed by a rest iff the path starts with that prefix and the rest matches |
| Server.MatchesOneSlot | server.js:172-174 | a lone parameter matches exactly the nonempty strings without `/` |
| Server.SingleParameter | server.js:171-175 | for patterns with exactly one parameter: `prefix:name` matches exactly `prefix` followed by one nonempty segment without `/` |
| Server.MountRelative | server.js:165 | the `/api` middleware applies iff the path is `/api` or lies below it, and it then sees the remainder, starting with `/` |
| Server.Gate | server.js:165-186 | no contract of its own; `ProtectedNeedsToken` and `ApiGate` state the decision |
| Server.ProtectedNeedsToken | server.js:165-186 | on a protected path the gate passes iff authentication succeeds, and then sets `req.user` and the trust headers; a stop is a 401 |
| Server.ApiGate | server.js:165-186 | the gate leaves public and non-`/api` requests untouched and otherwise behaves exactly as `authenticateRequest` |
| Server.QuotaFor | server.js:192-195 | no contract of its own; the corrected quota and key (Findings rows 1 and 3), stated by `EnrichedQuota` and tied to the limiter as written by `ProtectedQuotaAsWritten` |
| Server.EnrichedQuota | server.js:192-195 | the rate limiter reading enriched headers applies the token's plan (or free) and counts under `userId \|\| id \|\| ip` |
| Server.QuotaFromToken | server.js:165-195 | after the gate, a protected request's quota and counter key follow from the token alone |
| Server.QuotaNotSpoofable | server.js:165-195 | two protected requests with the same authorization header get the same quota and key, whatever plan or user headers the client adds |
| Server.ProtectedQuotaAsWritten | server.js:165-195 | on a protected path the corrected key is exactly `keyGenerator`'s as written, and the corrected quota is the as-written `max` whenever that is a number |
| Server.PublicReachesLimiterAnonymous | server.js:165-195 | a public path below `/api` reaches the limiter with no `req.user` and the client's own headers, so as written its `x-user-id` header picks the counter; the corrected key is the address |
| Server.HandleApi | server.js:165-195 | the `/api` stage answers the gate's rejection and leaves the request as it was, or passes with `req.user` and the headers the gate set, together with the quota and key of the corrected lookup and key (Findings rows 1 and 3) read from that request |
| Server.NotFound | server.js:215-220 | an unmatched route gets 404 with exactly `error: Route not found` and the original URL |

## Left out

- **Rate counting.** Window bookkeeping, and the `Retry-After` value, belong to express-rate-limit. The model states which quota and which key apply; `Retry-After` is a parameter of the 429 body.
- **Redis connection.** The asynchronous Redis connection (rateLimiter.js:12-28) and the choice of store only change where counters live.
- **Strict limiter.** `strictRateLimiter` is not mounted anywhere. The model keeps only its constants and message.
- **Breaker state machine.** Opossum's state machine is library code and is not modelled. Transitions, rolling statistics and half-open trials are driven by the library's own `opened`/`halfOpen` flags and `stats`, and `breaker.fire` is an oracle.
- **Transport.** axios and http-proxy-middleware are not modelled: HTTP transport, `changeOrigin`, body streaming and header passthrough. The proxy is modelled as route selection, path rewrite, target and error body.
- **Concurrency.** `Promise.all` runs the three dashboard calls concurrently. They are independent, so the model evaluates them one after another.
- RateLimiter.Max: the pipeline's quota uses the corrected lookup of Findings row 1, so a plan named like an inherited member gets the free quota. The limiter as written is `RateLimiter.MaxAsWritten`, and `Server.ProtectedQuotaAsWritten` shows the two agree on every other plan.
- RateLimiter.MaxValues: the five quotas hold for the corrected `Max` only. As written, a plan named like an inherited member yields that member, not a number (`RateLimiter.MaxAsWrittenValues`).
- Server.HandleApi: its quota and key come from the corrected lookup and key of Findings rows 1 and 3. On a protected path the key is the one the source computes (`Server.ProtectedQuotaAsWritten`). On a public path under `/api`, the source counts a request with a truthy `x-user-id` header under that header; the model counts it under the address (`Server.PublicReachesLimiterAnonymous`).
- ErrorHandler.HandleError: the thrown value is modelled as an Error object, which has a message and a stack. A non-Error value passed to `next` would lack them, and `res.json` would drop the undefined keys. Every error this code base raises is an Error.
- **AggregationService.GetDashboardData:** it calls the functional `CircuitBreaker.Protected` and does not show the breakers the calls register. Registration is modelled separately by `CircuitBreaker.Registry.ProtectedRequest`.
- **JWT internals.** Signature and expiry checking, the secret, and `generateToken` stay behind the `Jwt.Verifier` oracle.
- **Claim types.** Claims are modelled as optional strings; non-string claim values are not modelled.
- **Express bootstrapping.** helmet, compression, body parsers, static files, Swagger UI, the `/` redirect, `/health`, `listen` and graceful shutdown decide nothing the gateway's routing depends on.
- **Space initialisation.** The `initSpaceClient` call at server start is left out. Its behaviour is in `SpaceClient.Holder`.
- **Logging** (`logger`, `console`) is left out; it has no effect on replies.
- **Case-insensitive mounting.** Express mount-path matching is case-insensitive. The model matches mount points case-sensitively.
- **Server.PathMatches:** a public-path pattern is treated literally, apart from its `:name` parameters. The model ignores regular-expression metacharacters the pattern could contain (none of the configured entries contains `:` or any metacharacter).
- **Http.SetHeader:** assigning `undefined` to a header is modelled as removing it. Both read back as `undefined`.
- **Services.GetServiceUrl:** names inherited from `Object.prototype` (such as `constructor`) are treated as unknown. As written, `getServiceUrl('constructor')` would return `undefined` instead of throwing.
- **Pricing-token wiring.** `generatePricingToken` and `injectPricingToken` are modelled as functions, but nothing in the routes calls them, so they are not part of the pipeline.
- **Token validation.** `validateTokenWithAuthService` is modelled, but no middleware calls it.
- **Test file.** src/middleware/authentication.test.js describes an earlier version of the middleware. The model follows the middleware's code.
- **Code over documentation.** Where a comment and the code disagree, the model follows the code:
  - The comment at src/config/cors.js:9 says requests without an origin are blocked. The code allows them (`Cors.AbsentOrDevelopmentAllowed`).
  - The public-path comment speaks of dynamic patterns. The configured list has none (`Server.PublicPathsShape`).

## Findings

| source | as written | input that shows it | evidently intended | confidence | as-written member | corrected member |
|---|---|---|---|---|---|---|
| src/middleware/rateLimiter.js:51-58 | `limits[plan]` reads a plain object literal, so plan names inherited from `Object.prototype` yield a function, not a quota | a token whose `pricingPlan` claim is `constructor` or `toString` | a plan not in the table gets the free quota | not executed; high that the lookup returns the inherited member, low that such a plan occurs | RateLimiter.InheritedPlanNameHasNoQuota | RateLimiter.PlanLimit |
| src/routes/proxy.js:13 | the auth route's target is `services.auth.url`, but src/config/services.js:8-25 has no `auth` entry, so reading `.url` throws a TypeError during setup | any start of the server, whatever the environment | the auth routes are served by the users service, which also answers `/api/v1/auth/validate-token` (src/services/tokenValidationService.js:12-16) | not executed; high | Proxy.SetupAsWrittenThrows | Proxy.ForwardKeepsPath |
| src/middleware/rateLimiter.js:65-68 | the counter key falls back to the client's `x-user-id` header even for requests that were not authenticated (public paths such as `/api/v1/auth/login`) | two unauthenticated requests from one address, one with `x-user-id: a` and one with `x-user-id: b`, are counted apart | the comment on line 66 says: the user id if authenticated, otherwise the address | not executed; high | RateLimiter.AnonymousKeyChosenByClient | RateLimiter.AnonymousKeyIsAddress |
