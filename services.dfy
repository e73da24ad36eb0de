/** The backend service table (`services`, `getServiceUrl`, `getServiceTimeout`). */
module Services {
  import opened Wrappers
  import opened JsText

  /** Process environment variables. */
  type Env = map<string, string>

  datatype ServiceConfig = ServiceConfig(url: string, timeout: nat)

  /** `process.env[name] || fallback` */
  function EnvOr(env: Env, name: string, fallback: string): string {
    OrElse(if name in env then Some(env[name]) else None, fallback)
  }

  /** The configured services; each URL can be overridden by an environment variable. */
  function Table(env: Env): map<string, ServiceConfig> {
    map[
      "users" := ServiceConfig(EnvOr(env, "USERS_SERVICE_URL", "http://localhost:3001"), 5000),
      "payments" := ServiceConfig(EnvOr(env, "PAYMENTS_SERVICE_URL", "http://localhost:3002"), 5000),
      "analytics" := ServiceConfig(EnvOr(env, "ANALYTICS_SERVICE_URL", "http://localhost:3003"), 5000),
      "notifications" := ServiceConfig(EnvOr(env, "NOTIFICATIONS_SERVICE_URL", "http://localhost:3004"), 3000)]
  }

  /** The configured service names, which do not depend on the environment. */
  const Names: set<string> := {"users", "payments", "analytics", "notifications"}

  lemma TableNames(env: Env)
    ensures Table(env).Keys == Names
  {
  }

  /** `getServiceUrl(name)`: the configured URL, or the exception thrown for an unknown name. */
  function GetServiceUrl(env: Env, name: string): (r: Result<string, string>)
    ensures r.Success? <==> name in Names
    ensures r.Success? ==> r.value == Table(env)[name].url && r.value != ""
    ensures r.Failure? ==> r.error == "Service " + name + " not found in configuration"
  {
    var t := Table(env);
    if name !in t then Failure("Service " + name + " not found in configuration")
    else Success(t[name].url)
  }

  /** `getServiceTimeout(name)`: `services[name]?.timeout || 5000` */
  function GetServiceTimeout(name: string): (t: nat)
    ensures t > 0
    ensures name in {"users", "payments", "analytics"} ==> t == 5000
    ensures name == "notifications" ==> t == 3000
    ensures name !in Names ==> t == 5000
  {
    var t := Table(map[]);
    if name in t && t[name].timeout != 0 then t[name].timeout else 5000
  }
}
