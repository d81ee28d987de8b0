/**
 * The edge gate and the posts API check the role independently. For a request
 * that carries a verified cookie they agree: an admin page is refused exactly
 * when publishing a post is refused for lack of the admin role.
 */
module AccessAgreement {
  import opened Wrappers
  import opened Session
  import opened Middleware
  import PostsRoute
  import IssuesRoute
  import IssueModel

  /** For a verified cookie, refusal of an admin page and a 403 from the posts API coincide. */
  lemma RoleChecksAgree(path: string, token: Option<string>,
                        body: Option<PostsRoute.PostBody>, verify: Verifier)
    requires InMatcherScope(path) && VerifyCookie(token, verify).Valid?
    ensures Gate(path, token, verify) == RedirectToUnauthorized <==>
            PostsRoute.Guard(token, body, verify, true) == Failure(PostsRoute.Forbidden)
    ensures Gate(path, token, verify) == Next <==>
            PostsRoute.Guard(token, body, verify, true) != Failure(PostsRoute.Forbidden)
  {
  }

  /** Without a usable cookie the gate sends an admin page to /login and the API never publishes. */
  lemma NoSessionRefusedByBoth(path: string, token: Option<string>,
                               body: Option<PostsRoute.PostBody>, verify: Verifier)
    requires InMatcherScope(path) && VerifyCookie(token, verify).Invalid?
    ensures Gate(path, token, verify) == RedirectToLogin
    ensures PostsRoute.Guard(token, body, verify, true).Failure?
  {
  }

  /**
   * A verified role other than exactly "admin" (so also "superadmin") is
   * privileged nowhere: the gate sends admin pages to /unauthorized, the posts
   * API refuses with 403, and the issue listing holds only the caller's own issues.
   */
  lemma NonAdminRolePrivilegedNowhere(path: string, token: string, body: Option<PostsRoute.PostBody>,
                                      issues: seq<IssueModel.Issue>, verify: Verifier, i: IssueModel.Issue)
    requires InMatcherScope(path) && token != ""
    requires verify(token).Valid? && verify(token).claims.role != Some(AdminRole)
    ensures Gate(path, Some(token), verify) == RedirectToUnauthorized
    ensures PostsRoute.Guard(Some(token), body, verify, true) == Failure(PostsRoute.Forbidden)
    ensures i in IssuesRoute.Get(issues, Some(token), None, verify, true).value <==>
            i in issues && i.createdBy == verify(token).claims.id
  {
    assert VerifyCookie(Some(token), verify) == verify(token);
    WrongRoleGoesToUnauthorized(path, token, verify);
    PostsRoute.RolePrecedesFields(token, body, body, verify);
    IssuesRoute.StudentSeesOwn(issues, Some(token), None, verify, i);
  }
}
