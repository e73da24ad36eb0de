/** The request pipeline `server.js` assembles: the public base path, the `/api` authentication gate with
    its list of public paths, the rate limiter mounted after it, and the final 404. */
module Server {
  import opened Wrappers
  import opened JsText
  import opened Http
  import Json
  import Jwt
  import Authentication
  import RateLimiter

  // ---------------------------------------------------------------------------------------------
  // Public base path

  const DefaultPublicBase := "/socialbeats-api"

  /** `req.headers['x-forwarded-prefix'] || '/socialbeats-api'` */
  function ForwardedPrefix(h: Headers): (p: string)
    ensures p != ""
    ensures Truthy(Header(h, "x-forwarded-prefix")) ==> p == h["x-forwarded-prefix"]
    ensures !Truthy(Header(h, "x-forwarded-prefix")) ==> p == DefaultPublicBase
  {
    OrElse(Header(h, "x-forwarded-prefix"), DefaultPublicBase)
  }

  /** The first middleware: records the external prefix on the request and hands it on. */
  method SetPublicBasePath(req: Request) returns (o: Outcome)
    modifies req`publicBasePath
    ensures o == Next
    ensures req.publicBasePath == Some(ForwardedPrefix(req.headers))
    ensures req.publicBasePath.Some? && req.publicBasePath.value != ""
  {
    req.publicBasePath := Some(ForwardedPrefix(req.headers));
    o := Next;
  }

  // ---------------------------------------------------------------------------------------------
  // Public paths

  const PublicPaths: seq<string> := [
    "/v1/auth/register",
    "/v1/auth/login",
    "/v1/auth/refresh",
    "/v1/auth/logout",
    "/v1/auth/2fa/verify",
    "/v1/profile/internal",
    "/v1/auth/forgot-password",
    "/v1/auth/reset-password",
    "/v1/auth/verify-email",
    "/v1/auth/resend-verification"
  ]

  /** `\s` of JavaScript regular expressions. */
  predicate IsSpace(c: char) {
    || c in {' ', '\t', '\n', '\U{000B}', '\U{000C}', '\r', '\U{00A0}', '\U{1680}'}
    || c in {'\U{2028}', '\U{2029}', '\U{202F}', '\U{205F}', '\U{3000}', '\U{FEFF}'}
    || '\U{2000}' <= c <= '\U{200A}'
  }

  /** A character of a parameter name, `[^\s/]`. */
  predicate NameChar(c: char) {
    c != '/' && !IsSpace(c)
  }

  /** The length of the longest run of name characters at the start of `s`. */
  function NameLength(s: string): (n: nat)
    ensures n <= |s|
    ensures forall i :: 0 <= i < n ==> NameChar(s[i])
    ensures n < |s| ==> !NameChar(s[n])
  {
    if s == [] || !NameChar(s[0]) then 0 else 1 + NameLength(s[1..])
  }

  /** A pattern after `replace(/:[^\s/]+/g, '[^/]+')`: literal characters and parameter slots. */
  datatype Token = Lit(c: char) | Param

  /** The global replacement, scanning left to right: a `:` followed by at least one name character
      becomes a slot that swallows the whole name; any other character stays literal. */
  function Tokens(p: string): seq<Token>
    decreases |p|
  {
    if p == [] then []
    else if p[0] == ':' && |p| > 1 && NameChar(p[1]) then [Param] + Tokens(p[1 + NameLength(p[1..])..])
    else [Lit(p[0])] + Tokens(p[1..])
  }

  /** `new RegExp('^' + regexPath + '$').test(s)`: a slot stands for one or more characters other than `/`. */
  predicate Matches(toks: seq<Token>, s: string)
    decreases |toks|
  {
    if toks == [] then s == []
    else match toks[0]
      case Lit(c) => |s| > 0 && s[0] == c && Matches(toks[1..], s[1..])
      case Param => exists k :: 1 <= k <= |s| && '/' !in s[..k] && Matches(toks[1..], s[k..])
  }

  predicate PatternMatches(pattern: string, path: string) {
    Matches(Tokens(pattern), path)
  }

  /** The callback given to `publicPaths.some`: a pattern with `:` is matched as a whole; any other entry
      matches itself and everything below it. */
  predicate PathMatches(pub: string, path: string) {
    if ':' in pub then PatternMatches(pub, path)
    else path == pub || HasPrefix(path, pub + "/")
  }

  /** `list.some(p => PathMatches(p, path))` */
  predicate AnyMatches(list: seq<string>, path: string)
    decreases |list|
  {
    |list| > 0 && (PathMatches(list[0], path) || AnyMatches(list[1..], path))
  }

  lemma {:induction false} AnyMatchesIff(list: seq<string>, path: string)
    ensures AnyMatches(list, path) <==> exists i :: 0 <= i < |list| && PathMatches(list[i], path)
    decreases |list|
  {
    if |list| > 0 {
      AnyMatchesIff(list[1..], path);
      if AnyMatches(list[1..], path) {
        var i :| 0 <= i < |list[1..]| && PathMatches(list[1..][i], path);
        assert PathMatches(list[i + 1], path);
      }
      if exists i :: 0 <= i < |list| && PathMatches(list[i], path) {
        var i :| 0 <= i < |list| && PathMatches(list[i], path);
        if i > 0 {
          assert PathMatches(list[1..][i - 1], path);
        }
      }
    }
  }

  predicate IsPublic(path: string) {
    AnyMatches(PublicPaths, path)
  }

  lemma PublicPathsShape()
    ensures forall i :: 0 <= i < |PublicPaths| ==> ':' !in PublicPaths[i]
    ensures forall i :: 0 <= i < |PublicPaths| && i != 5 ==> HasPrefix(PublicPaths[i], "/v1/auth/")
    ensures PublicPaths[5] == "/v1/profile/internal"
  {
  }

  lemma PrefixOfPrefix(s: string, p: string, q: string)
    requires HasPrefix(s, p) && HasPrefix(p, q)
    ensures HasPrefix(s, q)
  {
    assert s[..|q|] == s[..|p|][..|q|];
  }

  /** An entry without a parameter matches only paths that start with it. */
  lemma StaticEntryIsPrefix(pub: string, path: string)
    requires ':' !in pub && PathMatches(pub, path)
    ensures HasPrefix(path, pub)
  {
    if path != pub {
      assert HasPrefix(pub + "/", pub);
      PrefixOfPrefix(path, pub + "/", pub);
    }
  }

  /** No entry of the list has a parameter, so the public paths are the entries and everything below
      them. */
  lemma PublicIff(path: string)
    ensures IsPublic(path) <==>
      exists i :: 0 <= i < |PublicPaths| && (path == PublicPaths[i] || HasPrefix(path, PublicPaths[i] + "/"))
  {
    AnyMatchesIff(PublicPaths, path);
    PublicPathsShape();
  }

  /** Every public path lies under `/v1/auth/` or `/v1/profile/internal`. */
  lemma PublicTrees(path: string)
    ensures IsPublic(path) ==> HasPrefix(path, "/v1/auth/") || HasPrefix(path, "/v1/profile/internal")
  {
    AnyMatchesIff(PublicPaths, path);
    if IsPublic(path) {
      PublicPathsShape();
      var i :| 0 <= i < |PublicPaths| && PathMatches(PublicPaths[i], path);
      StaticEntryIsPrefix(PublicPaths[i], path);
      if i != 5 {
        PrefixOfPrefix(path, PublicPaths[i], "/v1/auth/");
      }
    }
  }

  lemma PublicExamples()
    ensures IsPublic("/v1/auth/login")
    ensures IsPublic("/v1/profile/internal/42")
  {
    PublicPathsShape();
    assert PathMatches(PublicPaths[1], "/v1/auth/login");
    AnyMatchesIff(PublicPaths, "/v1/auth/login");
    assert PathMatches(PublicPaths[5], "/v1/profile/internal/42");
    AnyMatchesIff(PublicPaths, "/v1/profile/internal/42");
  }

  /** A path that is no entry and lies below none is not public. */
  lemma NotPublicBesides(path: string)
    requires forall i :: 0 <= i < |PublicPaths| ==> path != PublicPaths[i] && !HasPrefix(path, PublicPaths[i] + "/")
    ensures !IsPublic(path)
  {
    PublicIff(path);
  }

  /** Entries match whole segments: a longer name that merely starts with an entry is not public. */
  lemma SegmentBoundary()
    ensures !IsPublic("/v1/auth/loginx")
  {
    var path := "/v1/auth/loginx";
    forall i | 0 <= i < |PublicPaths|
      ensures path != PublicPaths[i] && !HasPrefix(path, PublicPaths[i] + "/")
    {
      var p := PublicPaths[i];
      if |p| + 1 <= |path| {
        assert i == 1 || i == 3;
        assert path[|p|] != '/';
        assert (p + "/")[|p|] == '/';
      }
    }
    NotPublicBesides(path);
  }

  lemma BelowMount(mount: string, rest: string)
    requires HasPrefix(rest, "/")
    ensures MountRelative(mount, mount + rest) == Some(rest)
  {
    assert (mount + rest)[..|mount|] == mount;
    assert (mount + rest)[..|mount| + 1] == mount + "/";
    assert (mount + rest)[|mount|..] == rest;
  }

  /** Below `/api`, a path outside the two public trees needs a token. */
  lemma ProtectedBelowApi(rest: string)
    requires HasPrefix(rest, "/")
    requires !HasPrefix(rest, "/v1/auth/") && !HasPrefix(rest, "/v1/profile/internal")
    ensures Protected(ApiMount + rest)
  {
    BelowMount(ApiMount, rest);
    PublicTrees(rest);
  }

  // Patterns with one parameter, as the gate would match them if the list held any.

  function Lits(p: string): seq<Token>
    ensures |Lits(p)| == |p|
  {
    if p == [] then [] else [Lit(p[0])] + Lits(p[1..])
  }

  lemma {:induction false} TokensOfLiteralPrefix(prefix: string, rest: string)
    requires ':' !in prefix
    ensures Tokens(prefix + rest) == Lits(prefix) + Tokens(rest)
    decreases |prefix|
  {
    if prefix != [] {
      assert prefix[0] in prefix;
      assert (prefix + rest)[0] == prefix[0];
      assert (prefix + rest)[1..] == prefix[1..] + rest;
      assert forall c :: c in prefix[1..] ==> c in prefix;
      TokensOfLiteralPrefix(prefix[1..], rest);
      calc {
        Tokens(prefix + rest);
        [Lit(prefix[0])] + Tokens(prefix[1..] + rest);
        [Lit(prefix[0])] + (Lits(prefix[1..]) + Tokens(rest));
        ([Lit(prefix[0])] + Lits(prefix[1..])) + Tokens(rest);
        Lits(prefix) + Tokens(rest);
      }
    } else {
      assert prefix + rest == rest;
      assert Lits(prefix) + Tokens(rest) == Tokens(rest);
    }
  }

  lemma HasPrefixStep(s: string, p: string)
    requires |p| >= 1 && |s| >= 1
    ensures HasPrefix(s, p) <==> s[0] == p[0] && HasPrefix(s[1..], p[1..])
  {
    if |s| >= |p| {
      assert s[..|p|] == [s[0]] + s[1..][..|p| - 1];
      assert p == [p[0]] + p[1..];
    }
  }

  lemma {:induction false} MatchesLiteralPrefix(prefix: string, toks: seq<Token>, s: string)
    ensures Matches(Lits(prefix) + toks, s) <==> HasPrefix(s, prefix) && Matches(toks, s[|prefix|..])
    decreases |prefix|
  {
    if prefix == [] {
      assert Lits(prefix) + toks == toks;
      assert s[0..] == s;
    } else {
      assert (Lits(prefix) + toks)[0] == Lit(prefix[0]);
      assert (Lits(prefix) + toks)[1..] == Lits(prefix[1..]) + toks;
      if |s| > 0 {
        HasPrefixStep(s, prefix);
        MatchesLiteralPrefix(prefix[1..], toks, s[1..]);
        if |s| >= |prefix| {
          assert s[1..][|prefix| - 1..] == s[|prefix|..];
        }
      }
    }
  }

  lemma MatchesOneSlot(s: string)
    ensures Matches([Param], s) <==> |s| >= 1 && '/' !in s
  {
    if |s| >= 1 && '/' !in s {
      assert s[..|s|] == s;
      assert Matches([Param][1..], s[|s|..]);
    }
  }

  /** A pattern `prefix:name` matches exactly the paths made of `prefix` and one nonempty segment. */
  lemma SingleParameter(prefix: string, name: string, path: string)
    requires ':' !in prefix
    requires |name| > 0 && forall i :: 0 <= i < |name| ==> NameChar(name[i])
    ensures PatternMatches(prefix + ":" + name, path) <==>
      HasPrefix(path, prefix) && |path| > |prefix| && '/' !in path[|prefix|..]
  {
    var p := ":" + name;
    assert prefix + ":" + name == prefix + p;
    TokensOfLiteralPrefix(prefix, p);
    assert p[1..] == name;
    var n := NameLength(name);
    assert n == |name|;
    assert p[1 + n..] == [];
    assert Tokens(p) == [Param];
    MatchesLiteralPrefix(prefix, [Param], path);
    if HasPrefix(path, prefix) {
      MatchesOneSlot(path[|prefix|..]);
    }
  }

  // ---------------------------------------------------------------------------------------------
  // The `/api` gate and the rate limiter behind it

  const ApiMount := "/api"

  /** `req.path` inside `app.use(mount, ...)`: the rest of the path, or `/` when nothing is left; `None`
      when the middleware does not apply. */
  function MountRelative(mount: string, path: string): (r: Option<string>)
    ensures r.Some? <==> path == mount || HasPrefix(path, mount + "/")
    ensures r.Some? ==> mount + r.value == path || (path == mount && r.value == "/")
    ensures r.Some? ==> HasPrefix(r.value, "/")
  {
    if path == mount then Some("/")
    else if HasPrefix(path, mount + "/") then
      assert path[..|mount|] + path[|mount|..] == path;
      assert path[|mount|..][..1] == "/";
      Some(path[|mount|..])
    else None
  }

  datatype GateResult = Pass(user: Option<Jwt.Claims>, headers: Headers) | Stop(reply: Reply)

  /** What the `/api` middleware decides: requests outside `/api` and public ones pass untouched, every
      other one goes through `authenticateRequest`. */
  function Gate(path: string, h: Headers, user: Option<Jwt.Claims>, verify: Jwt.Verifier): GateResult {
    var rel := MountRelative(ApiMount, path);
    if rel.None? || IsPublic(rel.value) then Pass(user, h)
    else match Authentication.Authenticate(h, verify)
      case Authenticated(c, h') => Pass(Some(c), h')
      case Rejected(r) => Stop(r)
  }

  predicate Protected(path: string) {
    var rel := MountRelative(ApiMount, path);
    rel.Some? && !IsPublic(rel.value)
  }

  /** A protected request passes only with a token the verifier accepts, and then carries its claims and
      the trust headers derived from them; a rejection is a 401. */
  lemma ProtectedNeedsToken(path: string, h: Headers, user: Option<Jwt.Claims>, verify: Jwt.Verifier)
    requires Protected(path)
    ensures Gate(path, h, user, verify).Pass? <==> Authentication.Authenticate(h, verify).Authenticated?
    ensures Gate(path, h, user, verify).Pass? ==>
      var c := Authentication.Authenticate(h, verify).claims;
      && Gate(path, h, user, verify).user == Some(c)
      && Gate(path, h, user, verify).headers == Authentication.Enrich(h, c)
      && Header(Gate(path, h, user, verify).headers, "x-gateway-authenticated") == Some("true")
      && Header(Gate(path, h, user, verify).headers, "x-user-id") == Or(c.userId, c.id)
    ensures Gate(path, h, user, verify).Stop? ==> Gate(path, h, user, verify).reply.status == 401
  {
    var a := Authentication.Authenticate(h, verify);
    assert Gate(path, h, user, verify) == if a.Authenticated? then Pass(Some(a.claims), a.headers) else Stop(a.reply);
    if a.Authenticated? {
      assert a.headers == Authentication.Enrich(h, a.claims);
      Authentication.EnrichSetsTrustHeaders(h, a.claims);
    } else {
      Authentication.AuthenticatedIff(h, verify);
    }
  }

  /** The middleware itself. */
  method ApiGate(req: Request, verify: Jwt.Verifier) returns (o: Outcome)
    modifies req`headers, req`user
    ensures var g := Gate(req.path, old(req.headers), old(req.user), verify);
      if g.Pass? then o == Next && req.headers == g.headers && req.user == g.user
      else o == Respond(g.reply) && req.headers == old(req.headers) && req.user == old(req.user)
  {
    var rel := MountRelative(ApiMount, req.path);
    if rel.None? || IsPublic(rel.value) {
      return Next;
    }
    o := Authentication.AuthenticateRequest(req, verify);
  }

  /** The limit and the counter key the rate limiter, mounted on `/api` after the gate, applies. */
  datatype Quota = Quota(limit: nat, key: string)

  function QuotaFor(user: Option<Jwt.Claims>, h: Headers, ip: string): Quota {
    Quota(RateLimiter.Max(user, h), RateLimiter.Key(user, h, ip))
  }

  /** The rate limiter reading headers the gate has enriched sees the claims' plan and id, never the
      client's own `x-pricing-plan` or `x-user-id`. */
  lemma EnrichedQuota(h: Headers, c: Jwt.Claims, ip: string)
    ensures QuotaFor(Some(c), Authentication.Enrich(h, c), ip) ==
      Quota(RateLimiter.PlanLimit(OrElse(c.pricingPlan, "free")), OrElse(Or(c.userId, c.id), ip))
  {
    var e := Authentication.Enrich(h, c);
    Authentication.EnrichSetsTrustHeaders(h, c);
    assert RateLimiter.EffectivePlan(c, e) == OrElse(c.pricingPlan, "free");
    assert RateLimiter.Key(Some(c), e, ip) == OrElse(Or(c.userId, c.id), ip);
  }

  /** After authentication the quota follows from the token alone: the plan claim (or `free`) fixes the
      limit, the user id claim (or `id`, or the address) the counter. */
  lemma {:induction false} QuotaFromToken(path: string, h: Headers, user: Option<Jwt.Claims>, verify: Jwt.Verifier, ip: string)
    requires Protected(path)
    requires Gate(path, h, user, verify).Pass?
    ensures var c := Authentication.Authenticate(h, verify).claims;
      var g := Gate(path, h, user, verify);
      QuotaFor(g.user, g.headers, ip) == Quota(RateLimiter.PlanLimit(OrElse(c.pricingPlan, "free")), OrElse(Or(c.userId, c.id), ip))
  {
    ProtectedNeedsToken(path, h, user, verify);
    EnrichedQuota(h, Authentication.Authenticate(h, verify).claims, ip);
  }

  /** Two protected requests with the same authorization header get the same quota, whatever plan or user
      headers the client adds. */
  lemma QuotaNotSpoofable(path: string, h1: Headers, h2: Headers, user: Option<Jwt.Claims>, verify: Jwt.Verifier, ip: string)
    requires Protected(path)
    requires Header(h1, "authorization") == Header(h2, "authorization")
    requires Gate(path, h1, user, verify).Pass?
    ensures Gate(path, h2, user, verify).Pass?
    ensures var g1 := Gate(path, h1, user, verify);
      var g2 := Gate(path, h2, user, verify);
      QuotaFor(g1.user, g1.headers, ip) == QuotaFor(g2.user, g2.headers, ip)
  {
    Authentication.SameBearerSameClaims(h1, h2, verify);
    ProtectedNeedsToken(path, h1, user, verify);
    ProtectedNeedsToken(path, h2, user, verify);
    QuotaFromToken(path, h1, user, verify, ip);
    QuotaFromToken(path, h2, user, verify, ip);
  }

  /** On a protected path the corrected key and lookup agree with the limiter as written: the key is
      exactly `keyGenerator`'s, and so is the quota unless the token's plan claim is named like an inherited
      member. */
  lemma {:induction false} ProtectedQuotaAsWritten(path: string, h: Headers, user: Option<Jwt.Claims>, verify: Jwt.Verifier, ip: string)
    requires Protected(path)
    requires Gate(path, h, user, verify).Pass?
    ensures var g := Gate(path, h, user, verify);
      && QuotaFor(g.user, g.headers, ip).key == RateLimiter.KeyAsWritten(g.user, g.headers, ip)
      && (RateLimiter.MaxAsWritten(g.user, g.headers).Quota? ==>
            RateLimiter.MaxAsWritten(g.user, g.headers) == RateLimiter.Quota(QuotaFor(g.user, g.headers, ip).limit))
  {
    ProtectedNeedsToken(path, h, user, verify);
    var g := Gate(path, h, user, verify);
    RateLimiter.MaxAsWrittenValues(g.user, g.headers);
  }

  /** A public path below `/api` reaches the limiter unauthenticated, with the client's own headers: as
      written, a truthy `x-user-id` header there picks the counter, where the corrected key is the address. */
  lemma PublicReachesLimiterAnonymous(path: string, h: Headers, verify: Jwt.Verifier, ip: string)
    requires MountRelative(ApiMount, path).Some? && IsPublic(MountRelative(ApiMount, path).value)
    requires Truthy(Header(h, "x-user-id"))
    ensures Gate(path, h, None, verify) == Pass(None, h)
    ensures RateLimiter.KeyAsWritten(None, h, ip) == h["x-user-id"]
    ensures QuotaFor(None, h, ip) == Quota(RateLimiter.AnonymousLimit, ip)
  {
  }

  /** The `/api` stage of the pipeline: the gate, then, when it lets the request on, the rate limiter's
      quota and key, computed by the corrected lookup and key from the request as the gate left it. */
  method HandleApi(req: Request, verify: Jwt.Verifier) returns (o: Outcome, quota: Option<Quota>)
    modifies req`headers, req`user
    ensures var g := Gate(req.path, old(req.headers), old(req.user), verify);
      && (g.Stop? ==> o == Respond(g.reply) && quota == None)
      && (g.Pass? && MountRelative(ApiMount, req.path).Some? ==> o == Next && quota == Some(QuotaFor(g.user, g.headers, req.ip)))
      && (MountRelative(ApiMount, req.path).None? ==> o == Next && quota == None)
    ensures var g := Gate(req.path, old(req.headers), old(req.user), verify);
      && (g.Pass? ==> req.headers == g.headers && req.user == g.user)
      && (g.Stop? ==> req.headers == old(req.headers) && req.user == old(req.user))
  {
    o := ApiGate(req, verify);
    if o.Respond? || MountRelative(ApiMount, req.path).None? {
      return o, None;
    }
    quota := Some(QuotaFor(req.user, req.headers, req.ip));
  }

  // ---------------------------------------------------------------------------------------------
  // Fallthrough

  /** The last handler: any request nothing else answered. */
  function NotFound(originalUrl: string): (r: Reply)
    ensures r.status == 404
    ensures Json.Field(r.body, "error") == Some(Json.Str("Route not found"))
    ensures Json.Field(r.body, "path") == Some(Json.Str(originalUrl))
    ensures r.body.Obj? && r.body.fields.Keys == {"error", "path"}
  {
    Reply(404, Json.Obj(map["error" := Json.Str("Route not found"), "path" := Json.Str(originalUrl)]))
  }
}
