/** The gateway's standard success and error envelopes (`sendSuccess`, `sendError`, `getErrorType`). */
module ResponseUtil {
  import opened Wrappers
  import Json
  import opened Http

  /** `process.env.NODE_ENV === 'production'` */
  predicate IsProduction(nodeEnv: Option<string>) {
    nodeEnv == Some("production")
  }

  /** The statuses that have a name of their own. */
  const NamedStatuses: set<int> := {400, 401, 403, 404, 429, 500, 502, 503, 504}

  /** `getErrorType(statusCode)` */
  function ErrorType(status: int): string {
    match status
    case 400 => "Bad Request"
    case 401 => "Unauthorized"
    case 403 => "Forbidden"
    case 404 => "Not Found"
    case 429 => "Too Many Requests"
    case 500 => "Internal Server Error"
    case 502 => "Bad Gateway"
    case 503 => "Service Unavailable"
    case 504 => "Gateway Timeout"
    case _ => "Error"
  }

  /** Reads a status back from its error type: the inverse of `ErrorType` on the named statuses. */
  function StatusOfErrorType(name: string): (r: Option<int>)
    ensures r.Some? ==> r.value in NamedStatuses
  {
    match name
    case "Bad Request" => Some(400)
    case "Unauthorized" => Some(401)
    case "Forbidden" => Some(403)
    case "Not Found" => Some(404)
    case "Too Many Requests" => Some(429)
    case "Internal Server Error" => Some(500)
    case "Bad Gateway" => Some(502)
    case "Service Unavailable" => Some(503)
    case "Gateway Timeout" => Some(504)
    case _ => None
  }

  /** Each named status has its own error type, from which the status can be read back; every other
      status is reported as the generic "Error". */
  lemma ErrorTypeRoundTrip(status: int)
    ensures status in NamedStatuses ==> StatusOfErrorType(ErrorType(status)) == Some(status)
    ensures status in NamedStatuses <==> ErrorType(status) != "Error"
    ensures status !in NamedStatuses ==> StatusOfErrorType(ErrorType(status)) == None
  {
  }

  /** Two different named statuses never share an error type. */
  lemma ErrorTypesDistinct(s1: int, s2: int)
    requires s1 in NamedStatuses && s2 in NamedStatuses && s1 != s2
    ensures ErrorType(s1) != ErrorType(s2)
  {
    ErrorTypeRoundTrip(s1);
    ErrorTypeRoundTrip(s2);
  }

  /** `sendSuccess(res, data, message = 'Success', statusCode = 200)`; `now` is the clock's ISO timestamp. */
  function SendSuccess(data: Json.Value, message: Option<string>, status: Option<int>, now: string): (r: Reply)
    ensures r.status == status.GetOr(200)
    ensures r.body.Obj? && r.body.fields.Keys == {"success", "message", "data", "timestamp"}
    ensures Json.Field(r.body, "success") == Some(Json.Bool(true))
    ensures Json.Field(r.body, "message") == Some(Json.Str(message.GetOr("Success")))
    ensures Json.Field(r.body, "data") == Some(data)
  {
    Reply(status.GetOr(200), Json.Obj(map[
      "success" := Json.Bool(true),
      "message" := Json.Str(message.GetOr("Success")),
      "data" := data,
      "timestamp" := Json.Str(now)]))
  }

  /** `sendError(res, message, statusCode = 500, errorDetails = null)` */
  function SendError(message: string, status: Option<int>, details: Option<Json.Value>,
                     nodeEnv: Option<string>, now: string): (r: Reply)
    ensures r.status == status.GetOr(500)
    ensures r.body.Obj?
    ensures Json.Field(r.body, "success") == Some(Json.Bool(false))
    ensures Json.Field(r.body, "error") == Some(Json.Str(ErrorType(r.status)))
    ensures Json.Field(r.body, "message") == Some(Json.Str(message))
    ensures "details" in r.body.fields <==> Json.Truthy(details) && !IsProduction(nodeEnv)
    ensures "details" in r.body.fields ==> r.body.fields["details"] == details.value
    ensures r.body.fields.Keys - {"details"} == {"success", "error", "message", "timestamp"}
  {
    var code := status.GetOr(500);
    var base := map[
      "success" := Json.Bool(false),
      "error" := Json.Str(ErrorType(code)),
      "message" := Json.Str(message),
      "timestamp" := Json.Str(now)];
    var body := if Json.Truthy(details) && !IsProduction(nodeEnv) then base["details" := details.value] else base;
    Reply(code, Json.Obj(body))
  }
}
