/**
 * The signed `token` cookie and what the routes read out of it.
 *
 * Signing and verification belong to the JSON Web Token library and are not
 * modelled: every handler receives the verification as an oracle
 * `verify: Verifier` that maps a cookie value to the decoded claims or to a
 * failure (bad signature, expired, malformed, all alike).
 */
module Session {
  import opened Wrappers

  /** The payload fields the routes read: `decoded.id` and `decoded.role`. */
  datatype Claims = Claims(id: Option<string>, role: Option<string>)

  /** Outcome of `jwt.verify(token, secret)`: the decoded payload, or a thrown error. */
  datatype Verdict = Valid(claims: Claims) | Invalid

  type Verifier = string -> Verdict

  /** The one privileged role string; the routes compare with `===`/`!==`. */
  const AdminRole: string := "admin"

  /** JavaScript truthiness of an optional string: present and not empty. */
  predicate Truthy(v: Option<string>) {
    v.Some? && v.value != ""
  }

  /** `decoded.role === "admin"`. */
  predicate IsAdmin(c: Claims) {
    c.role == Some(AdminRole)
  }

  /**
   * `jwt.verify(token, secret)` applied to the cookie value. The library
   * refuses an undefined or empty token ("jwt must be provided") exactly as
   * it refuses a bad one, so both come out as `Invalid`.
   */
  function VerifyCookie(token: Option<string>, verify: Verifier): Verdict {
    if Truthy(token) then verify(token.value) else Invalid
  }
}
