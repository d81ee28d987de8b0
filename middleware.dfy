/**
 * The edge gate that runs before page routes: it looks only at the path, the
 * `token` cookie, the outcome of verifying it, and the role it carries.
 */
module Middleware {
  import opened Wrappers
  import opened Session

  datatype Decision =
    | Next                    // NextResponse.next(): the request goes on unchanged
    | RedirectToLogin         // redirect to /login
    | RedirectToUnauthorized  // redirect to /unauthorized

  const AdminPrefix: string := "/admin"

  predicate StartsWith(s: string, prefix: string) {
    |prefix| <= |s| && s[..|prefix|] == prefix
  }

  /**
   * `config.matcher: ["/admin/:path*"]`: "/admin" itself or anything below
   * "/admin/". Every other path never reaches the middleware.
   */
  predicate InMatcherScope(path: string) {
    path == AdminPrefix || StartsWith(path, AdminPrefix + "/")
  }

  /** The middleware body: prefix test, token presence, verify outcome, role. */
  function Middleware(path: string, token: Option<string>, verify: Verifier): (d: Decision)
    ensures d == RedirectToLogin <==>
              StartsWith(path, AdminPrefix) && VerifyCookie(token, verify).Invalid?
    ensures d == RedirectToUnauthorized <==>
              StartsWith(path, AdminPrefix) && VerifyCookie(token, verify).Valid? &&
              !IsAdmin(VerifyCookie(token, verify).claims)
    ensures d == Next <==>
              !StartsWith(path, AdminPrefix) ||
              (VerifyCookie(token, verify).Valid? && IsAdmin(VerifyCookie(token, verify).claims))
  {
    if !StartsWith(path, AdminPrefix) then Next
    else if !Truthy(token) then RedirectToLogin
    else
      match verify(token.value)
      case Invalid => RedirectToLogin
      case Valid(decoded) =>
        if decoded.role != Some(AdminRole) then RedirectToUnauthorized else Next
  }

  /** What the framework does with a request: run the middleware only inside the matcher's scope. */
  function Gate(path: string, token: Option<string>, verify: Verifier): (d: Decision)
    ensures !InMatcherScope(path) ==> d == Next
    ensures InMatcherScope(path) ==> d == Middleware(path, token, verify)
  {
    if InMatcherScope(path) then Middleware(path, token, verify) else Next
  }

  /** Inside the matcher's scope the middleware's own prefix test always holds. */
  lemma MatcherScopeIsUnderPrefix(path: string)
    requires InMatcherScope(path)
    ensures StartsWith(path, AdminPrefix)
  {
  }

  /** A path not under "/admin" passes through whatever the cookie says. */
  lemma NonAdminPathPasses(path: string, token: Option<string>, verify: Verifier)
    requires !StartsWith(path, AdminPrefix)
    ensures Gate(path, token, verify) == Next
  {
  }

  /** An admin page without a cookie (or with an empty one) redirects to /login. */
  lemma NoTokenGoesToLogin(path: string, token: Option<string>, verify: Verifier)
    requires InMatcherScope(path) && !Truthy(token)
    ensures Gate(path, token, verify) == RedirectToLogin
  {
  }

  /** A cookie that fails verification is treated exactly like no cookie. */
  lemma FailedVerifyIsLikeNoToken(path: string, token: string, verify: Verifier)
    requires verify(token).Invalid?
    ensures Gate(path, Some(token), verify) == Gate(path, None, verify)
  {
  }

  /**
   * A verified cookie whose role is not exactly "admin" (so also "superadmin")
   * is sent to /unauthorized on every admin page, never to /login.
   */
  lemma WrongRoleGoesToUnauthorized(path: string, token: string, verify: Verifier)
    requires InMatcherScope(path) && token != ""
    requires verify(token).Valid? && !IsAdmin(verify(token).claims)
    ensures Gate(path, Some(token), verify) == RedirectToUnauthorized
  {
  }

  /** A verified "admin" cookie passes every admin page. */
  lemma AdminPasses(path: string, token: string, verify: Verifier)
    requires token != "" && verify(token).Valid? && IsAdmin(verify(token).claims)
    ensures Gate(path, Some(token), verify) == Next
  {
  }

  /**
   * The decision depends on nothing but the path, whether a cookie is present,
   * what verifying it yields, and its role: two requests that agree on those
   * get the same decision, whatever their cookie strings and other claims.
   */
  lemma DecisionDependsOnlyOnVerdictAndRole(path: string,
                                            t1: Option<string>, v1: Verifier,
                                            t2: Option<string>, v2: Verifier)
    requires VerifyCookie(t1, v1).Valid? == VerifyCookie(t2, v2).Valid?
    requires VerifyCookie(t1, v1).Valid? ==>
               VerifyCookie(t1, v1).claims.role == VerifyCookie(t2, v2).claims.role
    ensures Gate(path, t1, v1) == Gate(path, t2, v2)
  {
  }
}
