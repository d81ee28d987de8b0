/**
 * `/api/auth/me`: "who am I". Every failure, expected or not, answers 401;
 * success answers the stored user without the password field.
 */
module MeRoute {
  import opened Wrappers
  import opened Session
  import opened Http

  /** A stored user document: field name to value. */
  type UserDoc = map<string, string>

  /** The User collection, read-only here: user id to document. */
  type Users = map<string, UserDoc>

  const PasswordField: string := "password"

  /** `User.findById(id).select("-password")`: the document with the password field projected away. */
  function FindPublic(users: Users, id: string): (r: Option<UserDoc>)
    ensures r.Some? <==> id in users
    ensures r.Some? ==> PasswordField !in r.value
    ensures r.Some? ==> forall f :: f in r.value <==> f in users[id] && f != PasswordField
    ensures r.Some? ==> forall f :: f in r.value ==> r.value[f] == users[id][f]
  {
    if id in users then Some(users[id] - {PasswordField}) else None
  }

  const NotAuthenticated: Response<UserDoc> := Message(401, "Not authenticated")
  const InvalidOrExpired: Response<UserDoc> := Message(401, "Invalid or expired token")
  const InvalidPayload: Response<UserDoc> := Message(401, "Invalid token payload")
  const UserGone: Response<UserDoc> := Message(401, "User no longer exists")
  const AuthFailed: Response<UserDoc> := Message(401, "Authentication failed")

  /**
   * GET: each failure of the chain has its own message, all with status 401;
   * success answers 200 with the caller's stored document minus its password.
   */
  function Me(users: Users, token: Option<string>, verify: Verifier, dbUp: bool): (r: Response<UserDoc>)
    ensures r == AuthFailed <==> !dbUp
    ensures r == NotAuthenticated <==> dbUp && !Truthy(token)
    ensures r == InvalidOrExpired <==> dbUp && Truthy(token) && verify(token.value).Invalid?
    ensures r == InvalidPayload <==>
              dbUp && VerifyCookie(token, verify).Valid? && !Truthy(VerifyCookie(token, verify).claims.id)
    ensures r == UserGone <==>
              dbUp && VerifyCookie(token, verify).Valid? && Truthy(VerifyCookie(token, verify).claims.id) &&
              VerifyCookie(token, verify).claims.id.value !in users
    ensures r.Json? <==>
              dbUp && VerifyCookie(token, verify).Valid? && Truthy(VerifyCookie(token, verify).claims.id) &&
              VerifyCookie(token, verify).claims.id.value in users
    ensures r.Json? ==>
              r.status == 200 && PasswordField !in r.value &&
              r.value == users[VerifyCookie(token, verify).claims.id.value] - {PasswordField}
    ensures !r.Json? ==> r.Message? && r.status == 401
  {
    if !dbUp then AuthFailed
    else if !Truthy(token) then NotAuthenticated
    else
      match verify(token.value)
      case Invalid => InvalidOrExpired
      case Valid(decoded) =>
        if !Truthy(decoded.id) then InvalidPayload
        else
          match FindPublic(users, decoded.id.value)
          case None => UserGone
          case Some(user) => Json(200, user)
  }

  /** Whatever happens, the answer is 200 or 401 and never carries a password. */
  lemma OnlyOkOrUnauthorized(users: Users, token: Option<string>, verify: Verifier, dbUp: bool)
    ensures Me(users, token, verify, dbUp).Status() in {200, 401}
    ensures Me(users, token, verify, dbUp).Json? ==> PasswordField !in Me(users, token, verify, dbUp).value
  {
  }

  /**
   * A user deleted after the token was issued is refused, though the token
   * still verifies: the token carries no revocation.
   */
  lemma DeletedUserRefused(users: Users, token: string, verify: Verifier)
    requires token != "" && verify(token).Valid? && Truthy(verify(token).claims.id)
    ensures Me(users - {verify(token).claims.id.value}, Some(token), verify, true) == UserGone
  {
  }
}
