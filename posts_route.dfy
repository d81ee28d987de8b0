/**
 * `/api/posts`: POST lets only an admin publish a notice or event, behind a
 * chain of early returns inside one try/catch; GET lists posts, optionally of
 * one type.
 */
module PostsRoute {
  import opened Wrappers
  import opened Session
  import opened Http
  import opened Query
  import opened PostModel

  /** The JSON body's fields; `kind` is `type`. */
  datatype PostBody = PostBody(title: Option<string>, description: Option<string>,
                               kind: Option<string>)

  /** What passes every guard: the post's fields and its owner. */
  datatype NewPost = NewPost(title: string, description: string, kind: string,
                             createdBy: Option<string>)

  const Unauthorized: Response<Post> := Message(401, "Unauthorized")
  const Forbidden: Response<Post> := Message(403, "Admin access required")
  const FieldsMissing: Response<Post> := Message(400, "All fields are required")
  const CreateFailed: Response<Post> := Message(500, "Failed to create post")

  predicate Complete(b: PostBody) {
    Truthy(b.title) && Truthy(b.description) && Truthy(b.kind)
  }

  /**
   * The guards of POST in source order: database (caught, 500), cookie present
   * (401), verify (its exception is caught: 500), role (403), body parse
   * (caught: 500; `body == None` also stands for a `null` body, whose
   * destructuring throws), required fields (400). Each error answers exactly under its
   * condition, and a request that passes yields the body's fields owned by the
   * token's `id`.
   */
  function Guard(token: Option<string>, body: Option<PostBody>, verify: Verifier,
                 dbUp: bool): (r: Result<NewPost, Response<Post>>)
    ensures r == Failure(Unauthorized) <==> dbUp && !Truthy(token)
    ensures r == Failure(Forbidden) <==>
              dbUp && VerifyCookie(token, verify).Valid? && !IsAdmin(VerifyCookie(token, verify).claims)
    ensures r == Failure(FieldsMissing) <==>
              dbUp && VerifyCookie(token, verify).Valid? && IsAdmin(VerifyCookie(token, verify).claims) &&
              body.Some? && !Complete(body.value)
    ensures r == Failure(CreateFailed) <==>
              !dbUp || (Truthy(token) && VerifyCookie(token, verify).Invalid?) ||
              (VerifyCookie(token, verify).Valid? && IsAdmin(VerifyCookie(token, verify).claims) && body.None?)
    ensures r.Failure? ==> r.error in {Unauthorized, Forbidden, FieldsMissing, CreateFailed}
    ensures r.Success? ==>
              var b := body.value;
              b.title == Some(r.value.title) && b.description == Some(r.value.description) &&
              b.kind == Some(r.value.kind) &&
              r.value.createdBy == VerifyCookie(token, verify).claims.id
  {
    if !dbUp then Failure(CreateFailed)
    else if !Truthy(token) then Failure(Unauthorized)
    else
      match verify(token.value)
      case Invalid => Failure(CreateFailed)
      case Valid(decoded) =>
        if decoded.role != Some(AdminRole) then Failure(Forbidden)
        else if body.None? then Failure(CreateFailed)
        else
          var b := body.value;
          if !Truthy(b.title) || !Truthy(b.description) || !Truthy(b.kind) then Failure(FieldsMissing)
          else Success(NewPost(b.title.value, b.description.value, b.kind.value, decoded.id))
  }

  /**
   * POST: answers 201 with the created post when every guard passes, and
   * otherwise the guard's response with nothing stored.
   */
  method CreatePost(store: PostCollection, token: Option<string>, body: Option<PostBody>,
                verify: Verifier, now: nat, dbUp: bool) returns (r: Response<Post>)
    modifies store
    ensures Guard(token, body, verify, dbUp).Failure? ==>
              r == Guard(token, body, verify, dbUp).error && store.posts == old(store.posts)
    ensures Guard(token, body, verify, dbUp).Success? ==>
              var n := Guard(token, body, verify, dbUp).value;
              r == Json(201, Post(n.title, n.description, n.kind, n.createdBy, now, now)) &&
              store.posts == old(store.posts) + [r.value]
  {
    var guard := Guard(token, body, verify, dbUp);
    if guard.Failure? {
      return guard.error;
    }
    var n := guard.value;
    var post := store.Create(n.title, n.description, n.kind, n.createdBy, now);
    return Json(201, post);
  }

  /** A present cookie that fails verification answers 500, never 401. */
  lemma BadTokenIsServerError(token: string, body: Option<PostBody>, verify: Verifier)
    requires token != "" && verify(token).Invalid?
    ensures Guard(Some(token), body, verify, true) == Failure(CreateFailed)
    ensures Guard(Some(token), body, verify, true).error.Status() == 500
  {
  }

  /** A missing cookie answers 401 whatever the body holds: the cookie is checked before anything else. */
  lemma MissingTokenPrecedesBody(body1: Option<PostBody>, body2: Option<PostBody>, verify: Verifier)
    ensures Guard(None, body1, verify, true) == Guard(None, body2, verify, true) == Failure(Unauthorized)
  {
  }

  /** A non-admin is refused with 403 whatever the body holds: the role is checked before the fields. */
  lemma RolePrecedesFields(token: string, body1: Option<PostBody>, body2: Option<PostBody>, verify: Verifier)
    requires token != "" && verify(token).Valid? && !IsAdmin(verify(token).claims)
    ensures Guard(Some(token), body1, verify, true) == Guard(Some(token), body2, verify, true) == Failure(Forbidden)
  {
  }

  function CreatedAt(p: Post): int { p.createdAt }

  /** The `type` filter of GET: a truthy `type` parameter selects posts of that type, otherwise all. */
  predicate OfType(kind: Option<string>, p: Post) {
    !Truthy(kind) || p.kind == kind.value
  }

  /** GET: the posts of the requested type (all when none is given), newest first. */
  function Get(posts: seq<Post>, kind: Option<string>, dbUp: bool): (r: Response<seq<Post>>)
    ensures !dbUp ==> r == Message(500, "Failed to fetch posts")
    ensures dbUp ==> r.Json? && r.status == 200 && NewestFirstOrder(r.value, CreatedAt)
    ensures dbUp ==> multiset(r.value) == multiset(Filter(posts, p => OfType(kind, p)))
  {
    if !dbUp then Message(500, "Failed to fetch posts")
    else
      var filtered := if Truthy(kind) then Filter(posts, (p: Post) => p.kind == kind.value) else posts;
      Json(200, NewestFirst(filtered, CreatedAt))
  }

  /** With a `type` parameter only posts of that type are listed; every such post is. */
  lemma TypedListing(posts: seq<Post>, kind: string, p: Post)
    requires kind != ""
    ensures p in Get(posts, Some(kind), true).value <==> p in posts && p.kind == kind
  {
    var r := Get(posts, Some(kind), true).value;
    var keep := (q: Post) => OfType(Some(kind), q);
    assert multiset(r) == multiset(Filter(posts, keep));
    assert p in r <==> multiset(r)[p] > 0;
    assert p in posts <==> multiset(posts)[p] > 0;
    assert keep(p) <==> p.kind == kind;
  }

  /** Without a `type` parameter every stored post is listed. */
  lemma UntypedListing(posts: seq<Post>)
    ensures multiset(Get(posts, None, true).value) == multiset(posts)
  {
  }
}
