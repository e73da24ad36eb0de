/** Remote token validation (`validateTokenWithAuthService`): fail-closed mapping of the outcome of one
    POST to the users service. Nothing in the gateway calls it. */
module TokenValidation {
  import opened Wrappers
  import Json
  import Services

  const ValidatePath := "/api/v1/auth/validate-token"
  const TimeoutMs := 3000

  /** The POST the function sends. */
  datatype Post = Post(url: string, body: Json.Value, timeoutMs: nat)

  /** How the POST settled: a response, an error carrying the service's response body (`undefined` when
      the error has a response without data), or an error with no response at all (timeout, network). */
  datatype PostOutcome = Ok(data: Json.Value) | ErrorWithResponse(responseData: Option<Json.Value>) | NoResponse

  /** The fail-closed answer when the service cannot be reached. */
  const Unavailable: Json.Value := Json.Obj(map[
    "valid" := Json.Bool(false),
    "error" := Json.Str("SERVICE_UNAVAILABLE"),
    "message" := Json.Str("Authentication service unavailable")])

  /** The request sent for a token, when the users service is configured. */
  function ValidationPost(env: Services.Env, token: string): (r: Result<Post, string>)
    ensures r.Success? && r.value.timeoutMs == TimeoutMs
    ensures r.value.url == Services.Table(env)["users"].url + ValidatePath
    ensures r.value.body == Json.Obj(map["token" := Json.Str(token)])
  {
    match Services.GetServiceUrl(env, "users")
    case Failure(e) => Failure(e)
    case Success(base) => Success(Post(base + ValidatePath, Json.Obj(map["token" := Json.Str(token)]), TimeoutMs))
  }

  /** `validateTokenWithAuthService(token)`: never rejects. A thrown configuration lookup is caught like a
      request with no response. */
  function ValidateToken(env: Services.Env, token: string, post: Post -> PostOutcome): (r: Json.Value)
    ensures var p := ValidationPost(env, token).value;
      && (post(p).Ok? ==> r == post(p).data)
      && (post(p).ErrorWithResponse? && Json.Truthy(post(p).responseData) ==> r == post(p).responseData.value)
      && (post(p).ErrorWithResponse? && !Json.Truthy(post(p).responseData) ==> r == Unavailable)
      && (post(p).NoResponse? ==> r == Unavailable)
  {
    match ValidationPost(env, token)
    case Failure(_) => Unavailable
    case Success(p) =>
      match post(p)
      case Ok(data) => data
      case ErrorWithResponse(data) => if Json.Truthy(data) then data.value else Unavailable
      case NoResponse => Unavailable
  }

  /** Fail closed: whenever the service gives no answer of its own, the result says the token is not
      valid. */
  lemma FailsClosed(env: Services.Env, token: string, post: Post -> PostOutcome)
    requires post(ValidationPost(env, token).value).NoResponse?
    ensures Json.Field(ValidateToken(env, token, post), "valid") == Some(Json.Bool(false))
  {
  }
}
