/** The pricing-token handshake (`generatePricingToken` before the backend call, `injectPricingToken` on
    its response). Neither is wired into the proxy routes. */
module PricingToken {
  import opened Wrappers
  import opened JsText
  import opened Http
  import SpaceClient

  /** `spaceClient.features.generateUserPricingToken(userId)`: a token, or the error it rejects with. */
  type Generate = (SpaceClient.Client, string) -> Result<string, string>

  /** The token the request ends up holding, given the client's state. */
  function TokenAfterGeneration(h: Headers, instance: Option<SpaceClient.Client>, generate: Generate, before: Option<string>): Option<string> {
    var userId := Header(h, "x-user-id");
    if instance.None? || !Truthy(userId) then before
    else match generate(instance.value, userId.value)
      case Success(token) => Some(token)
      case Failure(_) => before
  }

  /** A token is stored exactly when the client is ready, the request carries a user id and generation
      succeeds; in every other case, errors included, the previous value is kept. */
  lemma TokenStoredIff(h: Headers, instance: Option<SpaceClient.Client>, generate: Generate, before: Option<string>)
    ensures TokenAfterGeneration(h, instance, generate, before) != before ==>
      instance.Some? && Truthy(Header(h, "x-user-id")) && generate(instance.value, h["x-user-id"]).Success?
    ensures instance.Some? && Truthy(Header(h, "x-user-id")) && generate(instance.value, h["x-user-id"]).Success? ==>
      TokenAfterGeneration(h, instance, generate, before) == Some(generate(instance.value, h["x-user-id"]).value)
  {
  }

  /** `generatePricingToken(proxyReq, req)` */
  method GeneratePricingToken(req: Request, space: SpaceClient.Holder, generate: Generate)
    modifies req`pricingToken
    ensures req.pricingToken == TokenAfterGeneration(req.headers, space.instance, generate, old(req.pricingToken))
  {
    var userId := Header(req.headers, "x-user-id");
    var ready := space.IsSpaceClientReady();
    if !ready {
      return;
    }
    if !Truthy(userId) {
      return;
    }
    var client := space.GetSpaceClient();
    var token := generate(client.value, userId.value);
    if token.Success? {
      req.pricingToken := Some(token.value);
    }
  }

  /** The response headers after injection. */
  function Injected(headers: map<string, string>, token: Option<string>): (r: map<string, string>)
    ensures Truthy(token) ==> "Pricing-Token" in r && r["Pricing-Token"] == token.value
    ensures !Truthy(token) ==> r == headers
    ensures forall k :: k != "Pricing-Token" ==> (k in r <==> k in headers)
    ensures forall k :: k in r && k != "Pricing-Token" ==> r[k] == headers[k]
  {
    if Truthy(token) then headers["Pricing-Token" := token.value] else headers
  }

  /** `injectPricingToken(proxyRes, req)`: writes `Pricing-Token` when the request holds a truthy token
      and nothing else; the request is only read. */
  method InjectPricingToken(proxyRes: ProxyResponse, req: Request)
    modifies proxyRes`headers
    ensures proxyRes.headers == Injected(old(proxyRes.headers), req.pricingToken)
  {
    if Truthy(req.pricingToken) {
      proxyRes.headers := proxyRes.headers["Pricing-Token" := req.pricingToken.value];
    }
  }
}
