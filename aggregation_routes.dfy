/** The aggregation routes (`setupAggregationRoutes`): `GET /api/v1/dashboard` and the admin-only
    `GET /api/v1/circuit-breaker-stats`. */
module AggregationRoutes {
  import opened Wrappers
  import Json
  import Jwt
  import opened Http
  import opened ResponseUtil
  import Services
  import CircuitBreaker
  import AggregationService
  import Authorization
  import Server

  /** The router is mounted under this path. */
  const Mount := "/api/v1"
  const DashboardPath := Mount + "/dashboard"
  const StatsPath := Mount + "/circuit-breaker-stats"

  /** Both endpoints (`DashboardPath` and `StatsPath`, that is `/api` followed by `/v1/dashboard` and
      `/v1/circuit-breaker-stats`) sit behind the `/api` gate: neither is a public path, so a request
      reaches them only with a token the verifier accepted, and `req.user` is then set. */
  lemma EndpointBehindGate(rest: string)
    requires rest == "/v1/dashboard" || rest == "/v1/circuit-breaker-stats"
    ensures Server.Protected(Server.ApiMount + rest)
  {
    assert rest[4] != "/v1/auth/"[4] && rest[4] != "/v1/profile/internal"[4];
    Server.ProtectedBelowApi(rest);
  }

  /** The dashboard handler's answer to how the aggregation settled. */
  function DashboardReply(result: Result<AggregationService.Dashboard, string>, nodeEnv: Option<string>, now: string): (r: Reply)
    ensures result.Success? ==>
      r == SendSuccess(AggregationService.ToJson(result.value), Some("Dashboard data retrieved successfully"), None, now)
    ensures result.Failure? ==>
      r == SendError("Failed to aggregate dashboard data", Some(500), Some(Json.Str(result.error)), nodeEnv, now)
    ensures r.status == 200 <==> result.Success?
  {
    match result
    case Success(d) => SendSuccess(AggregationService.ToJson(d), Some("Dashboard data retrieved successfully"), None, now)
    case Failure(msg) => SendError("Failed to aggregate dashboard data", Some(500), Some(Json.Str(msg)), nodeEnv, now)
  }

  /** `GET /dashboard` for the authenticated `req.user`: the aggregation for `req.user.userId`. */
  function Dashboard(user: Jwt.Claims, fire: CircuitBreaker.Fire, env: Services.Env, nodeEnv: Option<string>,
                     durationMs: nat, aggregatedAt: string, sentAt: string): Reply {
    DashboardReply(Success(AggregationService.GetDashboardData(fire, env, user.userId, durationMs, aggregatedAt)), nodeEnv, sentAt)
  }

  /** Since the aggregation never fails, the dashboard always answers 200 with the four-member result,
      for the user named by `req.user.userId`. */
  lemma {:induction false} DashboardAlwaysSucceeds(user: Jwt.Claims, fire: CircuitBreaker.Fire, env: Services.Env,
                                                  nodeEnv: Option<string>, durationMs: nat, aggregatedAt: string, sentAt: string)
    ensures var r := Dashboard(user, fire, env, nodeEnv, durationMs, aggregatedAt, sentAt);
      && r.status == 200
      && Json.Field(r.body, "message") == Some(Json.Str("Dashboard data retrieved successfully"))
      && Json.Field(r.body, "data") ==
           Some(AggregationService.ToJson(AggregationService.GetDashboardData(fire, env, user.userId, durationMs, aggregatedAt)))
  {
  }

  /** The stats payload: the registry's entries under `circuitBreakers`. */
  function StatsJson(stats: map<string, CircuitBreaker.Entry>): (v: Json.Value)
    ensures v.Obj? && v.fields.Keys == {"circuitBreakers"}
    ensures v.fields["circuitBreakers"].Obj? && v.fields["circuitBreakers"].fields.Keys == stats.Keys
    ensures forall n :: n in stats ==>
      v.fields["circuitBreakers"].fields[n] == Json.Obj(map["state" := Json.Str(stats[n].state), "stats" := stats[n].stats])
  {
    Json.Obj(map["circuitBreakers" := Json.Obj(map n | n in stats ::
      Json.Obj(map["state" := Json.Str(stats[n].state), "stats" := stats[n].stats]))])
  }

  /** `authorize(['admin'])` followed by the stats handler. */
  function StatsReply(user: Option<Jwt.Claims>, stats: map<string, CircuitBreaker.Entry>, nodeEnv: Option<string>, now: string): Reply {
    match Authorization.Authorize(["admin"], user, nodeEnv, now)
    case Respond(r) => r
    case Next => SendSuccess(StatsJson(stats), Some("Circuit breaker stats retrieved"), None, now)
  }

  /** Only an authenticated admin sees the stats; everyone else gets 401 or 403 and no data. */
  lemma StatsOnlyForAdmins(user: Option<Jwt.Claims>, stats: map<string, CircuitBreaker.Entry>, nodeEnv: Option<string>, now: string)
    ensures StatsReply(user, stats, nodeEnv, now).status == 200 <==> user.Some? && user.value.role == Some("admin")
    ensures user.None? ==> StatsReply(user, stats, nodeEnv, now).status == 401
    ensures user.Some? && user.value.role != Some("admin") ==> StatsReply(user, stats, nodeEnv, now).status == 403
  {
  }

  /** `GET /circuit-breaker-stats`: the registry is read only once the admin check has passed. */
  method CircuitBreakerStats(registry: CircuitBreaker.Registry, user: Option<Jwt.Claims>, nodeEnv: Option<string>, now: string)
    returns (r: Reply)
    requires registry.Valid()
    ensures r == StatsReply(user, registry.StatsView(), nodeEnv, now)
  {
    var gate := Authorization.Authorize(["admin"], user, nodeEnv, now);
    if gate.Respond? {
      return gate.reply;
    }
    var stats := registry.GetCircuitBreakerStats();
    r := SendSuccess(StatsJson(stats), Some("Circuit breaker stats retrieved"), None, now);
  }
}
