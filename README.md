# Smart campus service hub: request authorization and record selection

This Dafny project models the part of the campus portal that decides who may
see and create what:

- the edge middleware that guards the `/admin` pages (`middleware.js`);
- the API route handlers for issues, posts, lost-and-found items and "who am I"
  (`app/api/*/route.js`);
- the Issue and LostFound record schemas (`models/*.js`).

A request is modelled by the handler's parameters:

- `token`: the `token` cookie, `None` when it is absent;
- `verify`: an oracle standing for `jwt.verify` (`Session.Verifier`). It maps a
  cookie value to the decoded claims `{id, role}` or to a failure;
- the query parameters (`scope`, `type`) and the parsed JSON body. `None` is a
  body that does not parse, and also a body that parses to `null`: destructuring
  it in the posts route throws, and spreading it in the issues and lost-found
  routes leaves the required fields missing, so validation throws;
- `dbUp`: whether the database connection succeeds;
- `now`: the clock value the timestamps take.

A handler answers with an `Http.Response`. It is either `Json(status, value)`,
or `Message(status, text)` for a `{ message }` body, or `Uncaught` for an
exception that escapes the handler (the framework then answers 500).

Each Mongo collection is a class holding a `seq` of records in insertion order.
Its `Create` method runs the schema validator and appends only a record that
passes. `Model.find(filter).sort({ createdAt: -1 })` is `Query.Filter`
followed by `Query.NewestFirst`. The listings are specified by what they hold
(a multiset: the same records, each as often as stored) and by their order
(`createdAt` never increases).

The GET handlers are functions of the collection's contents, so they cannot
change the store. The POST handlers are methods that modify only their
collection. Each POST has a pure `Guard`/`PostInput` function for its early
returns, and the lemmas about the guard order are stated on that function.

Behaviour kept as the code has it:

- Only the exact role string `"admin"` is privileged; `"superadmin"` gets no
  privilege anywhere. The middleware sends it to `/unauthorized`, the posts API
  answers 403, and the default issue listing (without `scope=all`) shows it
  only its own issues.
- The matcher is only `/admin/:path*`; no other page prefix is gated.
- `POST /api/issues` and `POST /api/lost-found` call `jwt.verify` outside any
  try/catch. A bad cookie, and for issues also a missing one, makes the handler
  throw (`Uncaught`) rather than answer 401. `POST /api/posts` catches the same
  failure and answers 500 "Failed to create post".
- A successful `POST /api/lost-found` answers the default status 200, not 201.
- A student's own listing is `find({ createdBy: decoded.id })`. When the token
  has no `id`, it matches the issues that have no `createdBy`. The MongoDB
  driver sends an undefined value as null, which also matches a missing field.
  The model's `Option` equality gives the same result.

## Model

| member | source | states |
|---|---|---|
| `Query.Filter` | app/api/issues/route.js:51-53 | `find(filter)` holds each stored record that passes the filter exactly as often as it is stored, and nothing else |
| `Query.NewestFirst` | app/api/issues/route.js:25-27 | `.sort({ createdAt: -1 })` returns the same multiset of records with `createdAt` non-increasing |
| `Query.FilterKeepAll` | app/api/posts/route.js:55-57 | an empty filter (`{}`) lists the whole collection unchanged |
| `Query.FilterNarrower` | app/api/issues/route.js:42-53 | a narrower filter never lists a record more often than a wider one |
| `Middleware.Middleware` | middleware.js:4-25 | redirect to /login exactly for an `/admin` path whose cookie is missing or fails verification; redirect to /unauthorized exactly for a verified non-`admin` role there; pass through exactly otherwise |
| `Middleware.Gate` | middleware.js:27-29 | outside the matcher's scope the request passes; inside it the middleware decides |
| `Middleware.MatcherScopeIsUnderPrefix` | middleware.js:8-28 | every path the matcher sends to the middleware passes its `/admin` prefix test |
| `Middleware.NonAdminPathPasses` | middleware.js:8-24 | a path not under `/admin` passes through whatever the cookie |
| `Middleware.NoTokenGoesToLogin` | middleware.js:9-11 | an admin page without a cookie redirects to /login |
| `Middleware.FailedVerifyIsLikeNoToken` | middleware.js:13-21 | a cookie that fails verification gets the same decision as no cookie |
| `Middleware.WrongRoleGoesToUnauthorized` | middleware.js:14-18 | a verified cookie whose role is not exactly `admin` (so also `superadmin`) is sent to /unauthorized, never /login |
| `Middleware.AdminPasses` | middleware.js:14-24 | a verified `admin` cookie passes |
| `Middleware.DecisionDependsOnlyOnVerdictAndRole` | middleware.js:4-25 | two requests that agree on the path, on whether the cookie verifies and on the role get the same decision |
| `IssueModel.Build` | models/Issue.js:3-23 | creation succeeds exactly when some issue valid under the schema carries the input (required title, description and category; enumerated category and status; default status `pending`; timestamps set to the creation time) |
| `IssueModel.ViolationPaths` | models/Issue.js:5-15 | each schema path is reported as a violation exactly when its own rule is broken |
| `IssueModel.BuildAcceptsValid` | models/Issue.js:3-23 | every valid issue is accepted unchanged when re-created from its own fields |
| `IssueModel.IssueCollection.Create` | app/api/issues/route.js:66-69 | `Issue.create` appends the built issue, or stores nothing when validation fails; every stored issue stays valid |
| `LostFoundModel.Build` | models/LostFound.js:3-30 | creation succeeds exactly when some item valid under the schema carries the input (required title, description and type in lost/found; optional location; status in open/returned, default `open`; timestamps) |
| `LostFoundModel.ViolationPaths` | models/LostFound.js:5-23 | each schema path is reported as a violation exactly when its own rule is broken |
| `LostFoundModel.BuildAcceptsValid` | models/LostFound.js:3-30 | every valid item is accepted unchanged when re-created from its own fields |
| `LostFoundModel.ItemCollection.Create` | app/api/lost-found/route.js:23-26 | `LostFound.create` appends the built item, or stores nothing when validation fails; every stored item stays valid |
| `IssuesRoute.Get` | app/api/issues/route.js:6-56 | GET answers 200 whenever the database is up, whatever the cookie; the listing holds exactly the issues shown to the viewer, newest first |
| `IssuesRoute.InvalidTokenIsLoggedOut` | app/api/issues/route.js:11-18 | a cookie that fails verification gives the same listing as no cookie |
| `IssuesRoute.EveryoneWideSeesAll` | app/api/issues/route.js:24-48 | logged-out callers, admins and `scope=all` callers receive every stored issue |
| `IssuesRoute.StudentSeesOwn` | app/api/issues/route.js:50-55 | a logged-in non-admin without `scope=all` receives exactly the issues whose `createdBy` is the token's `id` |
| `IssuesRoute.OwnListingWithinAll` | app/api/issues/route.js:42-55 | a caller's default listing is contained in the `scope=all` listing |
| `IssuesRoute.ListingOfValidStoreIsValid` | app/api/issues/route.js:24-55 | every issue a GET lists from a store whose issues all satisfy the schema satisfies the schema |
| `IssuesRoute.PostInput` | app/api/issues/route.js:58-69 | the document reaches `Issue.create` exactly when the cookie verifies and the body parses, with `createdBy` replaced by the token's `id` |
| `IssuesRoute.Post` | app/api/issues/route.js:58-72 | POST answers 201 with the stored issue exactly when the input passes and validates; otherwise it throws and the store is unchanged |
| `IssuesRoute.CreatorComesFromToken` | app/api/issues/route.js:66-69 | the body's own `createdBy` has no effect; the created issue belongs to the token's `id` |
| `PostModel.PostCollection.Create` | app/api/posts/route.js:32-37 | `Post.create` appends a post with exactly the title, description, type and owner given, stamped with the creation time |
| `PostsRoute.Guard` | app/api/posts/route.js:6-46 | in source order: 401 exactly for a missing cookie; 403 exactly for a verified non-admin; 400 exactly for an admin whose body lacks a field; 500 for a database failure, a bad cookie or an unparsable body; success carries the body's three fields and the token's `id` |
| `PostsRoute.CreatePost` | app/api/posts/route.js:6-46 | POST answers 201 with the stored post when the guards pass, and otherwise the guard's response with the store unchanged |
| `PostsRoute.BadTokenIsServerError` | app/api/posts/route.js:15-45 | a present cookie that fails verification answers 500, not 401 |
| `PostsRoute.MissingTokenPrecedesBody` | app/api/posts/route.js:10-13 | a missing cookie answers 401 whatever the body |
| `PostsRoute.RolePrecedesFields` | app/api/posts/route.js:15-30 | a non-admin answers 403 whatever the body, so the role check precedes the field check |
| `PostsRoute.Get` | app/api/posts/route.js:48-68 | GET lists the posts of the requested type, or all posts without one, newest first; 500 "Failed to fetch posts" when the database fails |
| `PostsRoute.TypedListing` | app/api/posts/route.js:52-59 | with a `type` parameter a post is listed exactly when it is stored and has that type |
| `PostsRoute.UntypedListing` | app/api/posts/route.js:55-59 | without a `type` parameter every stored post is listed |
| `MeRoute.FindPublic` | app/api/auth/me/route.js:39 | the looked-up user document has every stored field except `password`, with the stored values |
| `MeRoute.Me` | app/api/auth/me/route.js:7-56 | each failure answers 401 with its own message: no cookie, failed verify, no `id`, deleted user, any other error; success answers 200 with the caller's document minus its password |
| `MeRoute.OnlyOkOrUnauthorized` | app/api/auth/me/route.js:15-55 | the answer is always 200 or 401, and a 200 never carries a password |
| `MeRoute.DeletedUserRefused` | app/api/auth/me/route.js:39-46 | a user deleted after the token was issued is refused with "User no longer exists" though the token still verifies |
| `LostFoundRoute.Get` | app/api/lost-found/route.js:6-10 | GET lists every stored item newest first; the cookie plays no part |
| `LostFoundRoute.ListingOfValidStoreIsValid` | app/api/lost-found/route.js:6-10 | every item a GET lists from a store whose items all satisfy the schema satisfies the schema |
| `LostFoundRoute.Guard` | app/api/lost-found/route.js:12-26 | 401 exactly when the cookie is missing; a bad cookie or unparsable body throws; otherwise the body goes on with `createdBy` set to the token's `id` |
| `LostFoundRoute.Post` | app/api/lost-found/route.js:12-29 | POST stores the validated item and answers 200 with it; on any failure nothing is stored |
| `LostFoundRoute.NoRoleCheck` | app/api/lost-found/route.js:20-26 | the outcome does not depend on the token's role |
| `LostFoundRoute.CreatorComesFromToken` | app/api/lost-found/route.js:23-26 | a created item belongs to the token's `id` |
| `AccessAgreement.RoleChecksAgree` | middleware.js:14-18 | for a verified cookie, the gate refuses an admin page exactly when the posts API refuses with 403 |
| `AccessAgreement.NonAdminRolePrivilegedNowhere` | middleware.js:14-18 | a verified role other than exactly `admin`, `superadmin` included, is sent to /unauthorized by the gate, gets 403 from the posts API, and sees only its own issues in the default issue listing |
| `AccessAgreement.NoSessionRefusedByBoth` | middleware.js:9-21 | without a usable cookie the gate redirects to /login and the posts API never publishes |

## Left out

- IssueModel.IssueCollection.Create: `Valid()` (every stored issue satisfies the schema) holds only for stores the modelled routes build. The update route app/api/issues/[id]/route.js is outside the model and writes `status` with `findByIdAndUpdate` without schema validation.
- LostFoundModel.ItemCollection.Create: `Valid()` (every stored item satisfies the schema) holds only for stores the modelled routes build. The update route app/api/lost-found/[id]/route.js is outside the model and writes the body with `findByIdAndUpdate` without schema validation.
- JSON Web Token signing, verification and secret loading belong to the token library. Verification is the `verify` oracle. An expired token and a tampered one are one failure, as every route treats them.
- Database failures are modelled only at `dbConnect`, the first step of every handler (`dbUp`). A failure of a later query or insert is not modelled.
- `populate("createdBy", ...)` joins the creator's name, email or role into a listing. This is presentation only, and the listings carry the bare `createdBy` id.
- Records have no `_id`, so a listing is specified as a multiset of records.
- Mongoose casting is not modelled. An `id` that is not a valid ObjectId would make `findById` or `find` throw. Body values that are not strings are not modelled either.
- Body fields outside the schema are not modelled, and neither are a client-supplied `createdAt` or `updatedAt`.
- `PostModel.PostCollection.Create`: models/Post.js is not part of this model. Creation always succeeds, and any schema rules of posts are not captured.
- models/User.js is not part of this model. A user is a map from field name to string value, keyed by id.
- `Query.NewestFirst`: the database promises no order among records with equal `createdAt`. The model fixes one order.
- `Middleware.InMatcherScope` treats `/admin/:path*` as `/admin` or anything starting with `/admin/`. It does not reject empty path segments.
- What the framework sends for an `Uncaught` exception is not modelled beyond its status 500.
- Cookie, URL and response APIs are framework plumbing. They appear only as the parameters above.
- The pages and navigation components are React rendering, effects and timers. The client-side session cache and its logout ordering are left out too.
- Login, registration, logout and the client auth provider are not part of this model.
