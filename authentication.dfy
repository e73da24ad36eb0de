/** Centralised authentication (`authenticateRequest`): bearer parsing, verification through the
    `jwt.verify` oracle, classification of its failures, and the trust headers written for the backends. */
module Authentication {
  import opened Wrappers
  import opened JsText
  import Json
  import Jwt
  import opened Http

  const BearerPrefix := "Bearer "

  /** The headers the gateway writes after a successful verification. */
  const TrustHeaders: set<string> :=
    {"x-user-id", "x-user-email", "x-user-role", "x-pricing-plan", "x-gateway-authenticated"}

  /** The token handed to `jwt.verify`, or `None` when the `Authorization` header is missing, empty, or
      does not start with `Bearer `. */
  function BearerToken(h: Headers): (t: Option<string>)
    ensures t.Some? <==> Truthy(Header(h, "authorization")) && HasPrefix(h["authorization"], BearerPrefix)
    ensures t.Some? ==> BearerPrefix + t.value == h["authorization"]
    ensures t.Some? ==> t.value == h["authorization"][|BearerPrefix|..]
  {
    var auth := Header(h, "authorization");
    if !Truthy(auth) || !HasPrefix(auth.value, BearerPrefix) then None
    else
      ReplacePrefix(auth.value, BearerPrefix);
      Some(ReplaceFirst(auth.value, BearerPrefix, ""))
  }

  /** `res.status(401).json({error, message})` */
  function Unauthorized(error: string, message: string): Reply {
    Reply(401, Json.Obj(map["error" := Json.Str(error), "message" := Json.Str(message)]))
  }

  /** The reply when no bearer credential is present. */
  const MissingToken := Unauthorized("Authentication required", "No token provided")

  /** The reply for a failed verification, chosen by the error's `name`. */
  function ClassifyError(e: Jwt.VerifyError): (r: Reply)
    ensures r.status == 401
    ensures e.name == "TokenExpiredError" ==> r == Unauthorized("Token expired", "Please login again")
    ensures e.name == "JsonWebTokenError" ==> r == Unauthorized("Invalid token", "Token verification failed")
    ensures e.name !in {"TokenExpiredError", "JsonWebTokenError"} ==> r == Unauthorized("Authentication failed", e.message)
  {
    if e.name == "TokenExpiredError" then Unauthorized("Token expired", "Please login again")
    else if e.name == "JsonWebTokenError" then Unauthorized("Invalid token", "Token verification failed")
    else Unauthorized("Authentication failed", e.message)
  }

  /** The headers after enrichment with verified claims, written in the source's order. */
  function Enrich(h: Headers, c: Jwt.Claims): Headers {
    var h1 := SetHeader(h, "x-user-id", Or(c.userId, c.id));
    var h2 := SetHeader(h1, "x-user-email", c.email);
    var h3 := SetHeader(h2, "x-user-role", Some(OrElse(c.role, "user")));
    var h4 := SetHeader(h3, "x-pricing-plan", Some(OrElse(c.pricingPlan, "free")));
    SetHeader(h4, "x-gateway-authenticated", Some("true"))
  }

  /** Every trust header is derived from the claims alone, and every other header is left as it was. */
  lemma EnrichSetsTrustHeaders(h: Headers, c: Jwt.Claims)
    ensures Header(Enrich(h, c), "x-user-id") == Or(c.userId, c.id)
    ensures Header(Enrich(h, c), "x-user-email") == c.email
    ensures Header(Enrich(h, c), "x-user-role") == Some(OrElse(c.role, "user"))
    ensures Header(Enrich(h, c), "x-pricing-plan") == Some(OrElse(c.pricingPlan, "free"))
    ensures Header(Enrich(h, c), "x-gateway-authenticated") == Some("true")
    ensures forall k :: k !in TrustHeaders ==> Header(Enrich(h, c), k) == Header(h, k)
  {
  }

  /** Client-supplied values of the trust headers are never kept: two requests that differ in anything
      but the verified claims end up with the same trust headers. */
  lemma {:induction false} SpoofedTrustHeadersOverwritten(h1: Headers, h2: Headers, c: Jwt.Claims)
    ensures forall k :: k in TrustHeaders ==> Header(Enrich(h1, c), k) == Header(Enrich(h2, c), k)
  {
    EnrichSetsTrustHeaders(h1, c);
    EnrichSetsTrustHeaders(h2, c);
  }

  datatype AuthResult =
    | Authenticated(claims: Jwt.Claims, headers: Headers)
    | Rejected(reply: Reply)

  /** What `authenticateRequest` decides for a request with headers `h`. */
  function Authenticate(h: Headers, verify: Jwt.Verifier): AuthResult {
    match BearerToken(h)
    case None => Rejected(MissingToken)
    case Some(token) =>
      match verify(token)
      case Verified(c) => Authenticated(c, Enrich(h, c))
      case Failed(e) => Rejected(ClassifyError(e))
  }

  /** Without a usable bearer header the request is rejected with 401 and the verifier is never asked. */
  lemma MissingBearerRejected(h: Headers, verify: Jwt.Verifier)
    requires !Truthy(Header(h, "authorization")) || !HasPrefix(h["authorization"], BearerPrefix)
    ensures Authenticate(h, verify) == Rejected(MissingToken)
    ensures forall v: Jwt.Verifier :: Authenticate(h, v) == Authenticate(h, verify)
  {
  }

  /** A request is authenticated exactly when the verifier accepts the token that follows `Bearer `, and
      every failure ends in a 401. */
  lemma AuthenticatedIff(h: Headers, verify: Jwt.Verifier)
    ensures Authenticate(h, verify).Authenticated? <==>
      && h.Keys >= {"authorization"}
      && HasPrefix(h["authorization"], BearerPrefix)
      && verify(h["authorization"][|BearerPrefix|..]).Verified?
    ensures Authenticate(h, verify).Rejected? ==> Authenticate(h, verify).reply.status == 401
  {
    if "authorization" in h && HasPrefix(h["authorization"], BearerPrefix) {
      assert Truthy(Header(h, "authorization"));
    }
  }

  /** The decision depends on the `authorization` header alone (apart from the headers it then writes). */
  lemma SameBearerSameClaims(h1: Headers, h2: Headers, verify: Jwt.Verifier)
    requires Header(h1, "authorization") == Header(h2, "authorization")
    ensures Authenticate(h1, verify).Authenticated? <==> Authenticate(h2, verify).Authenticated?
    ensures Authenticate(h1, verify).Authenticated? ==> Authenticate(h1, verify).claims == Authenticate(h2, verify).claims
    ensures Authenticate(h1, verify).Rejected? ==> Authenticate(h1, verify).reply == Authenticate(h2, verify).reply
  {
    assert BearerToken(h1) == BearerToken(h2);
  }

  /** `authenticateRequest(req, res, next)`: on success the trust headers and `req.user` are written and
      `next` is called; on any failure the request is left untouched and answered with 401. */
  method AuthenticateRequest(req: Request, verify: Jwt.Verifier) returns (o: Outcome)
    modifies req`headers, req`user
    ensures var r := Authenticate(old(req.headers), verify);
      if r.Authenticated? then
        o == Next && req.headers == r.headers && req.user == Some(r.claims)
      else
        o == Respond(r.reply) && req.headers == old(req.headers) && req.user == old(req.user)
  {
    var token := BearerToken(req.headers);
    if token.None? {
      return Respond(MissingToken);
    }
    var decoded := verify(token.value);
    if decoded.Failed? {
      return Respond(ClassifyError(decoded.error));
    }
    var c := decoded.claims;
    req.headers := SetHeader(req.headers, "x-user-id", Or(c.userId, c.id));
    req.headers := SetHeader(req.headers, "x-user-email", c.email);
    req.headers := SetHeader(req.headers, "x-user-role", Some(OrElse(c.role, "user")));
    req.headers := SetHeader(req.headers, "x-pricing-plan", Some(OrElse(c.pricingPlan, "free")));
    req.headers := SetHeader(req.headers, "x-gateway-authenticated", Some("true"));
    req.user := Some(c);
    o := Next;
  }
}
