/** Tier-aware rate limiting (`createRateLimiter`, `strictRateLimiter`): which quota and which key a request
    is counted under, and the 429 body. Counting itself is done by express-rate-limit and is not modelled. */
module RateLimiter {
  import opened Wrappers
  import opened JsText
  import Json
  import Jwt
  import opened Http

  /** `windowMs` of the main limiter: one minute. */
  const WindowMs := 60 * 1000
  /** The strict limiter for sensitive endpoints: 5 attempts per 15 minutes. */
  const StrictWindowMs := 15 * 60 * 1000
  const StrictMax := 5
  /** The quota of a request that has not been authenticated. */
  const AnonymousLimit := 20

  /** The `limits` table: the quota of each plan it lists. */
  const Limits: map<string, nat> := map["free" := 10, "basic" := 50, "premium" := 200, "enterprise" := 1000]

  /** `limits[plan] || limits['free']`, reading the table's own properties only. */
  function PlanLimit(plan: string): (n: nat)
    ensures plan in Limits ==> n == Limits[plan]
    ensures plan !in Limits ==> n == Limits["free"]
    ensures n in Limits.Values
  {
    if plan in Limits then Limits[plan] else Limits["free"]
  }

  /** The members every plain object inherits from `Object.prototype`; each is a function or an object,
      so each is truthy. */
  const InheritedMembers: set<string> := {
    "constructor", "hasOwnProperty", "isPrototypeOf", "propertyIsEnumerable", "toLocaleString",
    "toString", "valueOf", "__proto__", "__defineGetter__", "__defineSetter__",
    "__lookupGetter__", "__lookupSetter__"}

  /** What `limits[plan] || limits['free']` evaluates to: a quota, or an inherited member. */
  datatype LimitValue = Quota(n: nat) | InheritedMember(name: string)

  /** The lookup as the source writes it: property access on an object literal also finds the members
      inherited from `Object.prototype`. */
  function PlanLimitAsWritten(plan: string): LimitValue {
    if plan in Limits then Quota(Limits[plan])
    else if plan in InheritedMembers then InheritedMember(plan)
    else Quota(Limits["free"])
  }

  /** The discrepancy: a plan named like an inherited member yields no quota at all. */
  lemma InheritedPlanNameHasNoQuota()
    ensures PlanLimitAsWritten("constructor") == InheritedMember("constructor")
    ensures PlanLimitAsWritten("toString").InheritedMember?
  {
  }

  /** Apart from those names, the lookup as written and the corrected one agree. */
  lemma PlanLimitAsWrittenAgrees(plan: string)
    requires plan !in InheritedMembers
    ensures PlanLimitAsWritten(plan) == Quota(PlanLimit(plan))
  {
  }

  /** `req.user.pricingPlan || req.headers['x-pricing-plan'] || 'free'` */
  function EffectivePlan(user: Jwt.Claims, h: Headers): string {
    OrElse(Or(user.pricingPlan, Header(h, "x-pricing-plan")), "free")
  }

  /** The `max` option: the quota of this request. */
  function Max(user: Option<Jwt.Claims>, h: Headers): (n: nat)
    ensures user.None? ==> n == AnonymousLimit
    ensures user.Some? ==> n == PlanLimit(EffectivePlan(user.value, h))
  {
    if user.None? then AnonymousLimit else PlanLimit(EffectivePlan(user.value, h))
  }

  /** The `max` option as the source writes it, over the lookup that also finds inherited members. */
  function MaxAsWritten(user: Option<Jwt.Claims>, h: Headers): (v: LimitValue)
    ensures user.None? ==> v == Quota(AnonymousLimit)
    ensures user.Some? ==> v == PlanLimitAsWritten(EffectivePlan(user.value, h))
  {
    if user.None? then Quota(AnonymousLimit) else PlanLimitAsWritten(EffectivePlan(user.value, h))
  }

  /** As written, `max` yields one of 10, 20, 50, 200, 1000, except for an authenticated request whose
      effective plan is named like an inherited member, which gets that member instead of a quota; on every
      other request it agrees with the corrected `Max`. */
  lemma MaxAsWrittenValues(user: Option<Jwt.Claims>, h: Headers)
    ensures MaxAsWritten(user, h).InheritedMember? <==> user.Some? && EffectivePlan(user.value, h) in InheritedMembers
    ensures MaxAsWritten(user, h).Quota? ==> MaxAsWritten(user, h) == Quota(Max(user, h))
    ensures MaxAsWritten(user, h).Quota? ==> MaxAsWritten(user, h).n in {10, 20, 50, 200, 1000}
  {
    if user.Some? && EffectivePlan(user.value, h) !in InheritedMembers {
      PlanLimitAsWrittenAgrees(EffectivePlan(user.value, h));
    }
    MaxValues(user, h);
  }

  /** With the corrected lookup every quota is one of 10, 20, 50, 200, 1000, so it lies between 10 and
      1000. */
  lemma MaxValues(user: Option<Jwt.Claims>, h: Headers)
    ensures Max(user, h) in {10, 20, 50, 200, 1000}
    ensures 10 <= Max(user, h) <= 1000
  {
    var n := Max(user, h);
    if user.Some? {
      assert n in Limits.Values;
      var p :| p in Limits && Limits[p] == n;
    }
  }

  /** An anonymous request gets 20 whatever plan header it sends. */
  lemma AnonymousIgnoresPlanHeader(h1: Headers, h2: Headers)
    ensures Max(None, h1) == Max(None, h2) == 20
  {
  }

  /** Plan precedence: the claim wins over the header, the header over the default 'free'. */
  lemma PlanPrecedence(user: Jwt.Claims, h: Headers)
    ensures Truthy(user.pricingPlan) ==> EffectivePlan(user, h) == user.pricingPlan.value
    ensures !Truthy(user.pricingPlan) && Truthy(Header(h, "x-pricing-plan")) ==> EffectivePlan(user, h) == h["x-pricing-plan"]
    ensures !Truthy(user.pricingPlan) && !Truthy(Header(h, "x-pricing-plan")) ==> EffectivePlan(user, h) == "free"
  {
  }

  /** `keyGenerator` as written: `req.user?.userId || req.headers['x-user-id'] || req.ip`. On a request
      that was not authenticated, the `x-user-id` header still comes from the client. */
  function KeyAsWritten(user: Option<Jwt.Claims>, h: Headers, ip: string): (k: string)
    ensures user.Some? && Truthy(user.value.userId) ==> k == user.value.userId.value
    ensures (user.None? || !Truthy(user.value.userId)) && Truthy(Header(h, "x-user-id")) ==> k == h["x-user-id"]
    ensures (user.None? || !Truthy(user.value.userId)) && !Truthy(Header(h, "x-user-id")) ==> k == ip
  {
    var fromUser := if user.Some? then user.value.userId else None;
    OrElse(Or(fromUser, Header(h, "x-user-id")), ip)
  }

  /** The discrepancy: an anonymous caller picks its own counter by sending `x-user-id`, so two requests
      from one address are counted apart. */
  lemma AnonymousKeyChosenByClient(ip: string, forged: string)
    requires forged != "" && forged != ip
    ensures KeyAsWritten(None, map["x-user-id" := forged], ip) == forged
    ensures KeyAsWritten(None, map["x-user-id" := forged], ip) != KeyAsWritten(None, map[], ip)
  {
  }

  /** The key as the source describes it: the user id when authenticated (the `x-user-id` header then
      being the gateway's own), the address otherwise. */
  function Key(user: Option<Jwt.Claims>, h: Headers, ip: string): (k: string)
    ensures user.None? ==> k == ip
    ensures user.Some? ==> k == KeyAsWritten(user, h, ip)
  {
    if user.None? then ip else KeyAsWritten(user, h, ip)
  }

  /** Anonymous requests from one address share one counter whatever headers they send. */
  lemma AnonymousKeyIsAddress(h1: Headers, h2: Headers, ip: string)
    ensures Key(None, h1, ip) == Key(None, h2, ip) == ip
  {
  }

  /** The plan named in the 429 body: `req.user?.pricingPlan || 'free'`. */
  function ReportedPlan(user: Option<Jwt.Claims>): string {
    OrElse(if user.Some? then user.value.pricingPlan else None, "free")
  }

  /** `handler`: the reply when the quota is exceeded; `retryAfter` is the `Retry-After` header the
      library has set, dropped from the body when undefined. */
  function ExceededReply(user: Option<Jwt.Claims>, retryAfter: Option<Json.Value>): (r: Reply)
    ensures r.status == 429
    ensures Json.Field(r.body, "currentPlan") == Some(Json.Str(ReportedPlan(user)))
    ensures Json.Field(r.body, "message") == Some(Json.Str("Rate limit exceeded for " + ReportedPlan(user) + " plan"))
    ensures Json.Field(r.body, "error") == Some(Json.Str("Too many requests"))
    ensures Json.Field(r.body, "upgradeInfo") == Some(Json.Str("Upgrade your plan for higher limits"))
    ensures Json.Field(r.body, "retryAfter") == retryAfter
    ensures r.body.Obj? && r.body.fields.Keys - {"retryAfter"} == {"error", "message", "currentPlan", "upgradeInfo"}
  {
    var plan := ReportedPlan(user);
    var fields := map[
      "error" := Json.Str("Too many requests"),
      "message" := Json.Str("Rate limit exceeded for " + plan + " plan"),
      "currentPlan" := Json.Str(plan),
      "upgradeInfo" := Json.Str("Upgrade your plan for higher limits")];
    Reply(429, Json.Obj(Json.WithOptional(fields, "retryAfter", retryAfter)))
  }

  /** The body the strict limiter sends once its 5 attempts are used up. */
  const StrictMessage: Json.Value :=
    Json.Obj(map["error" := Json.Str("Too many attempts"), "message" := Json.Str("Please try again later")])
}
