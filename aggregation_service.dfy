/** The dashboard aggregator (`AggregationService.getDashboardData`): three breaker-protected calls, each
    replaced by its own default when it fails, merged into one result. */
module AggregationService {
  import opened Wrappers
  import opened JsText
  import Json
  import opened Http
  import Services
  import opened CircuitBreaker

  /** One of the three sources: its breaker and service, the path it asks for, and what its `.catch`
      returns on failure. */
  datatype Source = Source(service: string, path: string, default: Json.Value, failure: string)

  /** The sources for a user id; `${userId}` renders an undefined id as "undefined". */
  function Sources(userId: Option<string>): (s: seq<Source>)
    ensures |s| == 3
    ensures s[0].service == "users" && s[1].service == "payments" && s[2].service == "analytics"
  {
    var id := Interpolate(userId);
    [ Source("users", "/api/v1/users/" + id, Json.Null, "Profile service unavailable"),
      Source("payments", "/api/v1/payments/users/" + id + "/recent", Json.Arr([]), "Payments service unavailable"),
      Source("analytics", "/api/v1/analytics/users/" + id + "/stats", Json.Null, "Analytics service unavailable") ]
  }

  /** The request config of every source call. */
  function SourceRequest(userId: Option<string>, path: string): (c: RequestConfig)
    ensures c.httpMethod == "GET" && c.url == path && c.baseURL == None
    ensures Header(c.headers, "x-user-id") == userId
    ensures Header(c.headers, "x-gateway-authenticated") == Some("true")
  {
    RequestConfig("GET", path, SetHeader(map["x-gateway-authenticated" := "true"], "x-user-id", userId), None)
  }

  /** A settled source: the `.data` it contributes and the error string its `.catch` attached. */
  datatype Settled = Settled(data: Json.Value, error: Option<string>)

  /** `protectedRequest(...).catch(err => ({data: default, error: failure}))` */
  function Settle(o: CallOutcome, s: Source): (r: Settled)
    ensures o.Resolved? ==> r.data == o.response.data
    ensures o.Rejected? ==> r.data == s.default && r.error == Some(s.failure)
  {
    match o
    case Resolved(resp) => Settled(resp.data, None)
    case Rejected(_) => Settled(s.default, Some(s.failure))
  }

  /** The call a source makes: through the breaker named after its service, to the service's URL. */
  function Call(fire: Fire, env: Services.Env, userId: Option<string>, s: Source): CallOutcome
    requires s.service in Services.Names
  {
    Services.TableNames(env);
    Protected(fire, s.service, Services.Table(env)[s.service].url, SourceRequest(userId, s.path))
  }

  /** The field a source contributes to the dashboard. */
  function FieldOf(fire: Fire, env: Services.Env, userId: Option<string>, s: Source): Json.Value
    requires s.service in Services.Names
  {
    Settle(Call(fire, env, userId, s), s).data
  }

  datatype Dashboard = Dashboard(
    profile: Json.Value,
    payments: Json.Value,
    analytics: Json.Value,
    aggregationTime: string,
    timestamp: string)

  /** `getDashboardData(userId)`; `durationMs` and `now` stand for the clock readings. It always returns:
      no source's failure makes the aggregation fail. */
  function GetDashboardData(fire: Fire, env: Services.Env, userId: Option<string>, durationMs: nat, now: string): Dashboard {
    var s := Sources(userId);
    Dashboard(
      FieldOf(fire, env, userId, s[0]),
      FieldOf(fire, env, userId, s[1]),
      FieldOf(fire, env, userId, s[2]),
      NatToString(durationMs) + "ms",
      now)
  }

  /** The dashboard as the JSON object it is sent as: exactly four members. */
  function ToJson(d: Dashboard): (v: Json.Value)
    ensures v.Obj? && v.fields.Keys == {"profile", "payments", "analytics", "metadata"}
    ensures Json.Field(v, "profile") == Some(d.profile)
    ensures Json.Field(v, "payments") == Some(d.payments)
    ensures Json.Field(v, "analytics") == Some(d.analytics)
  {
    Json.Obj(map[
      "profile" := d.profile,
      "payments" := d.payments,
      "analytics" := d.analytics,
      "metadata" := Json.Obj(map[
        "aggregationTime" := Json.Str(d.aggregationTime),
        "timestamp" := Json.Str(d.timestamp)])])
  }

  /** Each field is its own source's data when that call resolves and its default when it rejects:
      null for the profile, the empty list for payments, null for analytics. */
  lemma {:induction false} FieldsFollowTheirSource(fire: Fire, env: Services.Env, userId: Option<string>, durationMs: nat, now: string)
    ensures var d := GetDashboardData(fire, env, userId, durationMs, now);
      var s := Sources(userId);
      && (Call(fire, env, userId, s[0]).Resolved? ==> d.profile == Call(fire, env, userId, s[0]).response.data)
      && (Call(fire, env, userId, s[0]).Rejected? ==> d.profile == Json.Null)
      && (Call(fire, env, userId, s[1]).Resolved? ==> d.payments == Call(fire, env, userId, s[1]).response.data)
      && (Call(fire, env, userId, s[1]).Rejected? ==> d.payments == Json.Arr([]))
      && (Call(fire, env, userId, s[2]).Resolved? ==> d.analytics == Call(fire, env, userId, s[2]).response.data)
      && (Call(fire, env, userId, s[2]).Rejected? ==> d.analytics == Json.Null)
  {
    var s := Sources(userId);
    Services.TableNames(env);
    var o0, o1, o2 := Call(fire, env, userId, s[0]), Call(fire, env, userId, s[1]), Call(fire, env, userId, s[2]);
    var r0, r1, r2 := Settle(o0, s[0]), Settle(o1, s[1]), Settle(o2, s[2]);
  }

  /** Partial failure is isolated: two oracles that agree on one source's call give the same field for
      that source, whatever the other two calls do. */
  lemma {:induction false} FieldIndependence(f1: Fire, f2: Fire, env: Services.Env, userId: Option<string>, i: nat,
                                            t1: nat, t2: nat, now1: string, now2: string)
    requires i < 3
    requires Call(f1, env, userId, Sources(userId)[i]) == Call(f2, env, userId, Sources(userId)[i])
    ensures var d1, d2 := GetDashboardData(f1, env, userId, t1, now1), GetDashboardData(f2, env, userId, t2, now2);
      (i == 0 ==> d1.profile == d2.profile) &&
      (i == 1 ==> d1.payments == d2.payments) &&
      (i == 2 ==> d1.analytics == d2.analytics)
  {
    Services.TableNames(env);
  }

  /** The error strings of the `.catch` handlers never reach the result: a source that rejects and a source
      that resolves with its default as data contribute the same field. */
  lemma SettledErrorDiscarded(s: Source, message: string, status: int)
    ensures Settle(Rejected(message), s).data == Settle(Resolved(HttpResponse(status, s.default)), s).data
  {
  }

  /** Opossum runs the registered fallback when the breaker is open and when the request fails or times
      out; when the call resolves with it, the field holds the fallback object naming the service, never the
      default. */
  lemma {:induction false} FallbackReachesField(fire: Fire, env: Services.Env, userId: Option<string>, durationMs: nat, now: string)
    requires Call(fire, env, userId, Sources(userId)[0]) == Resolved(Fallback("users"))
    ensures var d := GetDashboardData(fire, env, userId, durationMs, now);
      d.profile == Fallback("users").data && d.profile != Json.Null
      && Json.Field(d.profile, "fallback") == Some(Json.Bool(true))
  {
    Services.TableNames(env);
    assert Fallback("users").data.Obj?;
  }

  /** Every call goes to the configured service through the breaker of that name, asks for the user's own
      path, and carries the user id and the gateway marker. */
  lemma {:induction false} CallsCarryIdentity(env: Services.Env, userId: Option<string>, i: nat)
    requires i < 3
    ensures var s := Sources(userId)[i];
      var c := WithBaseUrl(SourceRequest(userId, s.path), Services.Table(env)[s.service].url);
      && s.service in Services.Names
      && c.baseURL == Some(Services.Table(env)[s.service].url)
      && Header(c.headers, "x-user-id") == userId
      && Header(c.headers, "x-gateway-authenticated") == Some("true")
      && c.url == (if i == 0 then "/api/v1/users/" + Interpolate(userId)
                   else if i == 1 then "/api/v1/payments/users/" + Interpolate(userId) + "/recent"
                   else "/api/v1/analytics/users/" + Interpolate(userId) + "/stats")
  {
    Services.TableNames(env);
  }
}
