/** What `jsonwebtoken` hands back to the gateway; signature and expiry checking stay behind the oracle. */
module Jwt {
  import opened Wrappers

  /** The decoded payload of a verified token: the claims the gateway reads. */
  datatype Claims = Claims(
    userId: Option<string>,
    id: Option<string>,
    email: Option<string>,
    role: Option<string>,
    pricingPlan: Option<string>)

  /** An exception thrown by `jwt.verify`, identified by its `name`. */
  datatype VerifyError = VerifyError(name: string, message: string)

  datatype VerifyOutcome = Verified(claims: Claims) | Failed(error: VerifyError)

  /** `jwt.verify(token, secret)` as seen by the gateway. */
  type Verifier = string -> VerifyOutcome
}
