/** The parts of an Express request and response that the gateway reads and writes. */
module Http {
  import opened Wrappers
  import Json
  import Jwt

  /** Incoming header names are lower-case, as Node delivers them. */
  type Headers = map<string, string>

  /** `req.headers[name]` */
  function Header(h: Headers, name: string): Option<string> {
    if name in h then Some(h[name]) else None
  }

  /** `req.headers[name] = v`. Assigning `undefined` is modelled as removing the header: both read back as
      `undefined`. */
  function SetHeader(h: Headers, name: string, v: Option<string>): (r: Headers)
    ensures Header(r, name) == v
    ensures forall k :: k != name ==> Header(r, k) == Header(h, k)
  {
    if v.Some? then h[name := v.value] else h - {name}
  }

  /** `res.status(status).json(body)` */
  datatype Reply = Reply(status: int, body: Json.Value)

  /** What a middleware does with a request: hand it on with `next()`, or answer it. */
  datatype Outcome = Next | Respond(reply: Reply)

  /** An Express request in flight; the middlewares write the mutable fields. */
  class Request {
    var headers: Headers
    var user: Option<Jwt.Claims>
    var pricingToken: Option<string>
    var publicBasePath: Option<string>
    const path: string
    const originalUrl: string
    const ip: string

    constructor (headers: Headers, path: string, originalUrl: string, ip: string)
      ensures this.headers == headers && this.path == path
      ensures this.originalUrl == originalUrl && this.ip == ip
      ensures user == None && pricingToken == None && publicBasePath == None
    {
      this.headers := headers;
      this.path := path;
      this.originalUrl := originalUrl;
      this.ip := ip;
      user := None;
      pricingToken := None;
      publicBasePath := None;
    }
  }

  /** The response coming back from a backend through the proxy. */
  class ProxyResponse {
    var headers: map<string, string>

    constructor (headers: map<string, string>)
      ensures this.headers == headers
    {
      this.headers := headers;
    }
  }
}
