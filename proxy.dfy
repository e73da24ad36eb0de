/** The proxy route table (`setupProxyRoutes`): which prefix goes to which backend, the path rewrite, and
    the 503 body sent when the backend cannot be reached. Forwarding itself is http-proxy-middleware's. */
module Proxy {
  import opened Wrappers
  import opened JsText
  import Json
  import opened Http
  import Services

  /** A proxied prefix and the key of its backend in the service table. */
  datatype Route = Route(prefix: string, service: string)

  /** The routes, in the order they are registered. */
  const Routes: seq<Route> := [
    Route("/api/v1/auth", "auth"),
    Route("/api/v1/payments", "payments"),
    Route("/api/v1/analytics", "analytics"),
    Route("/api/v1/notifications", "notifications")]

  /** Express mounts a middleware on a path and on everything below it. */
  predicate Mounted(prefix: string, path: string) {
    path == prefix || HasPrefix(path, prefix + "/")
  }

  /** `pathRewrite: {'^from': to}` applied to a path. */
  function Rewrite(from: string, to: string, path: string): string {
    if HasPrefix(path, from) then to + path[|from|..] else path
  }

  /** Every route rewrites its prefix to itself, so the forwarded path is the inbound path. */
  lemma RewriteIsIdentity(i: nat, path: string)
    requires i < |Routes|
    ensures Rewrite(Routes[i].prefix, Routes[i].prefix, path) == path
  {
    var p := Routes[i].prefix;
    if HasPrefix(path, p) {
      assert path == path[..|p|] + path[|p|..];
    }
  }

  /** No route's prefix is a prefix of another's. */
  lemma NoPrefixOverlap(i: nat, j: nat)
    requires i < |Routes| && j < |Routes| && i != j
    ensures !HasPrefix(Routes[j].prefix, Routes[i].prefix)
  {
    var a, b := Routes[i].prefix, Routes[j].prefix;
    if |a| <= |b| {
      assert a[8] != b[8] || a[9] != b[9];
    }
  }

  /** Two prefixes of one string: the shorter is a prefix of the longer. */
  lemma PrefixesNest(s: string, a: string, b: string)
    requires HasPrefix(s, a) && HasPrefix(s, b) && |a| <= |b|
    ensures HasPrefix(b, a)
  {
    assert b[..|a|] == s[..|b|][..|a|] == s[..|a|];
  }

  /** A path is taken by at most one route. */
  lemma {:induction false} AtMostOneRoute(path: string, i: nat, j: nat)
    requires i < |Routes| && j < |Routes|
    requires Mounted(Routes[i].prefix, path) && Mounted(Routes[j].prefix, path)
    ensures i == j
  {
    if i != j {
      var a, b := Routes[i].prefix, Routes[j].prefix;
      assert HasPrefix(path, a) by { if path != a { assert path[..|a|] == (a + "/")[..|a|]; } }
      assert HasPrefix(path, b) by { if path != b { assert path[..|b|] == (b + "/")[..|b|]; } }
      if |a| <= |b| {
        PrefixesNest(path, a, b);
        NoPrefixOverlap(i, j);
      } else {
        PrefixesNest(path, b, a);
        NoPrefixOverlap(j, i);
      }
    }
  }

  /** The index of the route that takes a path, if any. */
  function RouteFor(path: string): (r: Option<nat>)
    ensures r.Some? ==> r.value < |Routes| && Mounted(Routes[r.value].prefix, path)
    ensures r.None? ==> forall i :: 0 <= i < |Routes| ==> !Mounted(Routes[i].prefix, path)
  {
    if Mounted(Routes[0].prefix, path) then Some(0)
    else if Mounted(Routes[1].prefix, path) then Some(1)
    else if Mounted(Routes[2].prefix, path) then Some(2)
    else if Mounted(Routes[3].prefix, path) then Some(3)
    else None
  }

  /** `onError`: 503 naming the route's own backend. */
  function ErrorReply(r: Route): (reply: Reply)
    ensures reply.status == 503
    ensures Json.Field(reply.body, "error") == Some(Json.Str("Service unavailable"))
    ensures Json.Field(reply.body, "service") == Some(Json.Str(r.service))
    ensures Json.Field(reply.body, "message") == Some(Json.Str("Unable to reach " + r.service + " service"))
    ensures reply.body.Obj? && reply.body.fields.Keys == {"error", "service", "message"}
  {
    Reply(503, Json.Obj(map[
      "error" := Json.Str("Service unavailable"),
      "service" := Json.Str(r.service),
      "message" := Json.Str("Unable to reach " + r.service + " service")]))
  }

  /** Different routes answer a proxy error with different `service` names. */
  lemma ErrorRepliesNameTheirBackend(i: nat, j: nat)
    requires i < |Routes| && j < |Routes| && i != j
    ensures ErrorReply(Routes[i]) != ErrorReply(Routes[j])
  {
    assert Json.Field(ErrorReply(Routes[i]).body, "service") != Json.Field(ErrorReply(Routes[j]).body, "service");
  }

  /** `services[key].url` as the source evaluates it: reading `.url` of a missing entry throws. */
  function TargetAsWritten(env: Services.Env, r: Route): (t: Result<string, string>)
    ensures t.Success? <==> r.service in Services.Names
  {
    Services.TableNames(env);
    var table := Services.Table(env);
    if r.service in table then Success(table[r.service].url)
    else Failure("TypeError: Cannot read properties of undefined (reading 'url')")
  }

  /** `setupProxyRoutes(app)` as written: the targets are evaluated route by route, and the first one that
      throws aborts the setup. */
  function SetupAsWritten(env: Services.Env, routes: seq<Route>): (r: Result<seq<string>, string>)
    ensures r.Success? <==> forall i :: 0 <= i < |routes| ==> routes[i].service in Services.Names
    ensures r.Success? ==> |r.value| == |routes|
    decreases |routes|
  {
    if routes == [] then Success([])
    else match TargetAsWritten(env, routes[0])
      case Failure(e) => Failure(e)
      case Success(t) =>
        match SetupAsWritten(env, routes[1..])
        case Failure(e) => Failure(e)
        case Success(ts) => Success([t] + ts)
  }

  /** The discrepancy: the auth route's backend is not in the service table, so setting up the proxy
      routes throws before any route is registered. */
  lemma SetupAsWrittenThrows(env: Services.Env)
    ensures Routes[0].service !in Services.Names
    ensures SetupAsWritten(env, Routes).Failure?
  {
  }

  /** The backend a route resolves to in the corrected table: the auth routes are served by the users
      service, which also answers token validation. */
  function TargetService(r: Route): string {
    if r.service == "auth" then "users" else r.service
  }

  /** The target URL of a route; defined for every route of the table. */
  function Target(env: Services.Env, r: Route): (url: string)
    requires r in Routes
    ensures Services.GetServiceUrl(env, TargetService(r)) == Success(url)
  {
    Services.TableNames(env);
    Services.Table(env)[TargetService(r)].url
  }

  /** Where a request is forwarded: the target of the route that takes its path, and the path after the
      route's rewrite. */
  datatype Forwarded = Forwarded(target: string, path: string, route: Route)

  function Forward(env: Services.Env, path: string): Option<Forwarded> {
    match RouteFor(path)
    case None => None
    case Some(i) =>
      var r := Routes[i];
      Some(Forwarded(Target(env, r), Rewrite(r.prefix, r.prefix, path), r))
  }

  /** A forwarded request keeps its path and goes to the backend of the one route that takes it. */
  lemma {:induction false} ForwardKeepsPath(env: Services.Env, path: string)
    ensures Forward(env, path).Some? <==> exists i :: 0 <= i < |Routes| && Mounted(Routes[i].prefix, path)
    ensures Forward(env, path).Some? ==>
      var f := Forward(env, path).value;
      && f.path == path
      && Mounted(f.route.prefix, path)
      && Services.GetServiceUrl(env, TargetService(f.route)) == Success(f.target)
  {
    match RouteFor(path)
    case None =>
    case Some(i) => RewriteIsIdentity(i, path);
  }
}
