/**
 * `/api/issues`: GET lists issues according to who asks; POST creates one
 * owned by the caller.
 */
module IssuesRoute {
  import opened Wrappers
  import opened Session
  import opened Http
  import opened Query
  import opened IssueModel

  function CreatedAt(i: Issue): int { i.createdAt }

  /** The `scope` query parameter value that widens a student's listing. */
  const ScopeAll: string := "all"

  /** Who the listing is for, once an invalid cookie has been turned into "logged out". */
  datatype Viewer = LoggedOut | LoggedIn(claims: Claims)

  function ViewerOf(token: Option<string>, verify: Verifier): Viewer {
    match VerifyCookie(token, verify)
    case Invalid => LoggedOut
    case Valid(c) => LoggedIn(c)
  }

  /**
   * Which issues a viewer is shown: everything to a logged-out viewer, to an
   * admin and to anyone asking for `scope=all`; otherwise only their own.
   */
  predicate Shown(v: Viewer, scope: Option<string>, i: Issue) {
    v.LoggedOut? || IsAdmin(v.claims) || scope == Some(ScopeAll) || i.createdBy == v.claims.id
  }

  /**
   * GET: a listing that never fails for lack of a valid cookie; it holds
   * exactly the issues shown to the viewer, newest first.
   */
  function Get(issues: seq<Issue>, token: Option<string>, scope: Option<string>,
               verify: Verifier, dbUp: bool): (r: Response<seq<Issue>>)
    ensures !dbUp ==> r == Uncaught
    ensures dbUp ==> r.Json? && r.status == 200
    ensures dbUp ==> NewestFirstOrder(r.value, CreatedAt)
    ensures dbUp ==>
              var v := ViewerOf(token, verify);
              multiset(r.value) == multiset(Filter(issues, i => Shown(v, scope, i)))
  {
    if !dbUp then Uncaught
    else
      var decoded := VerifyCookie(token, verify);
      if decoded.Invalid? then
        Json(200, NewestFirst(issues, CreatedAt))
      else if decoded.claims.role == Some(AdminRole) then
        Json(200, NewestFirst(issues, CreatedAt))
      else if scope == Some(ScopeAll) then
        Json(200, NewestFirst(issues, CreatedAt))
      else
        Json(200, NewestFirst(Filter(issues, (i: Issue) => i.createdBy == decoded.claims.id), CreatedAt))
  }

  /** A missing cookie and a cookie that fails verification give the same listing. */
  lemma InvalidTokenIsLoggedOut(issues: seq<Issue>, token: string, scope: Option<string>,
                                verify: Verifier, dbUp: bool)
    requires verify(token).Invalid?
    ensures Get(issues, Some(token), scope, verify, dbUp) == Get(issues, None, scope, verify, dbUp)
  {
  }

  /** Logged-out callers, admins and `scope=all` callers receive every stored issue. */
  lemma EveryoneWideSeesAll(issues: seq<Issue>, token: Option<string>, scope: Option<string>,
                            verify: Verifier)
    requires var v := ViewerOf(token, verify); v.LoggedOut? || IsAdmin(v.claims) || scope == Some(ScopeAll)
    ensures multiset(Get(issues, token, scope, verify, true).value) == multiset(issues)
  {
  }

  /**
   * A logged-in non-admin without `scope=all` receives exactly the issues whose
   * `createdBy` equals the token's `id`.
   */
  lemma StudentSeesOwn(issues: seq<Issue>, token: Option<string>, scope: Option<string>,
                       verify: Verifier, i: Issue)
    requires VerifyCookie(token, verify).Valid?
    requires !IsAdmin(VerifyCookie(token, verify).claims) && scope != Some(ScopeAll)
    ensures i in Get(issues, token, scope, verify, true).value <==>
              i in issues && i.createdBy == VerifyCookie(token, verify).claims.id
  {
    var r := Get(issues, token, scope, verify, true).value;
    assert i in r <==> i in multiset(r);
    assert i in issues <==> i in multiset(issues);
  }

  /** A student's own listing never holds an issue more often than the full listing. */
  lemma OwnListingWithinAll(issues: seq<Issue>, token: Option<string>, verify: Verifier)
    ensures multiset(Get(issues, token, None, verify, true).value) <=
            multiset(Get(issues, token, Some(ScopeAll), verify, true).value)
  {
  }

  /** Every issue a GET lists from a store that keeps the schema satisfies the schema. */
  lemma ListingOfValidStoreIsValid(store: IssueCollection, token: Option<string>,
                                   scope: Option<string>, verify: Verifier)
    requires store.Valid()
    ensures forall x :: x in Get(store.issues, token, scope, verify, true).value ==> ValidIssue(x)
  {
    var r := Get(store.issues, token, scope, verify, true).value;
    forall x | x in r
      ensures ValidIssue(x)
    {
      assert multiset(r)[x] > 0;
      assert x in store.issues;
    }
  }

  /**
   * The guard part of POST: verify the cookie (an absent or bad cookie throws
   * here), read the body (malformed JSON throws), then force `createdBy` to the
   * token's `id` over whatever the body said.
   */
  function PostInput(token: Option<string>, body: Option<IssueInput>,
                     verify: Verifier, dbUp: bool): (r: Option<IssueInput>)
    ensures r.Some? <==> dbUp && VerifyCookie(token, verify).Valid? && body.Some?
    ensures r.Some? ==> r.value == body.value.(createdBy := VerifyCookie(token, verify).claims.id)
  {
    if !dbUp then None
    else
      var decoded := VerifyCookie(token, verify);
      if decoded.Invalid? then None
      else if body.None? then None
      else Some(body.value.(createdBy := decoded.claims.id))
  }

  /**
   * POST: creates the issue owned by the caller and answers 201 with it; any
   * failure (no or bad cookie, malformed body, schema violation) escapes as an
   * exception and nothing is stored.
   */
  method Post(store: IssueCollection, token: Option<string>, body: Option<IssueInput>,
              verify: Verifier, now: nat, dbUp: bool) returns (r: Response<Issue>)
    requires store.Valid()
    modifies store
    ensures store.Valid()
    ensures r.Json? <==> PostInput(token, body, verify, dbUp).Some? &&
                         Build(PostInput(token, body, verify, dbUp).value, now).Success?
    ensures r.Json? ==> r.status == 201 &&
                        r.value == Build(PostInput(token, body, verify, dbUp).value, now).value &&
                        r.value.createdBy == VerifyCookie(token, verify).claims.id &&
                        store.issues == old(store.issues) + [r.value]
    ensures !r.Json? ==> r == Uncaught && store.issues == old(store.issues)
  {
    var input := PostInput(token, body, verify, dbUp);
    if input.None? {
      return Uncaught;
    }
    var created := store.Create(input.value, now);
    if created.Failure? {
      return Uncaught;
    }
    return Json(201, created.value);
  }

  /** A created issue belongs to the token's `id`, whatever `createdBy` the body carried. */
  lemma CreatorComesFromToken(token: Option<string>, body: IssueInput, verify: Verifier,
                              now: nat, claimed: Option<string>)
    requires VerifyCookie(token, verify).Valid?
    requires Build(PostInput(token, Some(body), verify, true).value, now).Success?
    ensures Build(PostInput(token, Some(body.(createdBy := claimed)), verify, true).value, now) ==
            Build(PostInput(token, Some(body), verify, true).value, now)
    ensures Build(PostInput(token, Some(body), verify, true).value, now).value.createdBy ==
            VerifyCookie(token, verify).claims.id
  {
  }
}
