/** The server's access-token checks: reading the bearer token, resolving
    it to a stored user, the role check, the signing guard, and how the
    routes turn the thrown messages into HTTP statuses. Token signing and
    verification are parameters: `verify(token, secret)` is the decoded
    payload, or None when verification throws. */
module Auth {
  import opened Wrappers
  import opened Text
  import opened Json
  import opened Database
  import opened Http

  const Unauthorized := "UNAUTHORIZED"
  const Forbidden := "FORBIDDEN"
  const SecretMissing := "JWT_ACCESS_SECRET missing"

  type Verify = (string, string) -> Option<Value>
  type Sign = (Value, string) -> string

  /** The token of an `authorization` header (missing counts as empty):
      what follows `Bearer ` when the header starts with exactly that, and
      the empty string otherwise. */
  function BearerToken(header: Option<string>): (token: string)
    ensures StartsWith(header.GetOr(""), "Bearer ") ==> "Bearer " + token == header.GetOr("")
    ensures !StartsWith(header.GetOr(""), "Bearer ") ==> token == ""
  {
    var h := header.GetOr("");
    if StartsWith(h, "Bearer ") then h[7..] else ""
  }

  /** What `requireAuth` returns: the user's public columns. */
  datatype AuthUser = AuthUser(id: string, role: Role, email: string, name: Option<string>)

  function Public(u: User): AuthUser {
    AuthUser(u.id, u.role, u.email, u.name)
  }

  /** The `sub` claim of a verified payload, when it is a non-empty string. */
  function Subject(payload: Value): (r: Option<string>)
    ensures r.Some? <==> exists s :: Property(payload, "sub") == Some(JStr(s)) && s != ""
    ensures r.Some? ==> Property(payload, "sub") == Some(JStr(r.value))
  {
    match Property(payload, "sub")
    case Some(JStr(s)) => if s == "" then None else Some(s)
    case _ => None
  }

  /** `requireAuth`: every refusal throws the same UNAUTHORIZED. The user
      lookup itself may fail (`queryError`), and then its own error
      propagates, but only for a request that passed every token check. */
  function RequireAuth(header: Option<string>, secret: string, verify: Verify, users: seq<User>, queryError: Option<string>): (r: Result<AuthUser, string>)
    ensures r.Err? ==> r.error == Unauthorized || (queryError.Some? && r.error == queryError.value)
    ensures queryError.None? && r.Err? ==> r.error == Unauthorized
  {
    var token := BearerToken(header);
    if token == "" then Err(Unauthorized)
    else if secret == "" then Err(Unauthorized)
    else match verify(token, secret)
      case None => Err(Unauthorized)
      case Some(payload) =>
        match Subject(payload)
        case None => Err(Unauthorized)
        case Some(id) =>
          if queryError.Some? then Err(queryError.value)
          else match FindById(users, id)
          case None => Err(Unauthorized)
          case Some(u) => Ok(Public(u))
  }

  /** A request is authenticated exactly when it carries a bearer token,
      the secret is set, the token verifies, its subject is a non-empty
      string, and the lookup succeeds and finds a user with that id; the
      result is that user's public columns. */
  lemma RequireAuthIff(header: Option<string>, secret: string, verify: Verify, users: seq<User>, queryError: Option<string>)
    ensures RequireAuth(header, secret, verify, users, queryError).Ok? <==>
      (BearerToken(header) != "" && secret != "" && queryError.None? &&
       verify(BearerToken(header), secret).Some? &&
       Subject(verify(BearerToken(header), secret).value).Some? &&
       FindById(users, Subject(verify(BearerToken(header), secret).value).value).Some?)
    ensures RequireAuth(header, secret, verify, users, queryError).Ok? ==>
      exists u :: u in users && u.id == Subject(verify(BearerToken(header), secret).value).value &&
        RequireAuth(header, secret, verify, users, queryError).value == AuthUser(u.id, u.role, u.email, u.name)
  {
    if RequireAuth(header, secret, verify, users, queryError).Ok? {
      var u := FindById(users, Subject(verify(BearerToken(header), secret).value).value).value;
      assert u in users;
    }
  }

  /** A header without the `Bearer ` prefix is refused whatever else
      holds, before the user table is queried. */
  lemma NoBearerUnauthorized(header: Option<string>, secret: string, verify: Verify, users: seq<User>, queryError: Option<string>)
    requires !StartsWith(header.GetOr(""), "Bearer ")
    ensures RequireAuth(header, secret, verify, users, queryError) == Err(Unauthorized)
  {
  }

  /** `requireRole`: FORBIDDEN exactly when the role is not listed. */
  function RequireRole(user: AuthUser, roles: seq<Role>): (r: Result<(), string>)
    ensures r.Ok? <==> user.role in roles
    ensures r.Err? ==> r.error == Forbidden
  {
    if user.role in roles then Ok(()) else Err(Forbidden)
  }

  /** An empty role list forbids everyone. */
  lemma EmptyRolesForbid(user: AuthUser)
    ensures RequireRole(user, []) == Err(Forbidden)
  {
  }

  /** `signAccessToken`: throws when the secret is missing, otherwise
      signs the claims `{ sub: userId }`. */
  function SignAccessToken(userId: string, secret: string, sign: Sign): (r: Result<string, string>)
    ensures r.Err? <==> secret == ""
    ensures r.Err? ==> r.error == SecretMissing
    ensures r.Ok? ==> r.value == sign(JObj([Member("sub", JStr(userId))]), secret)
  {
    if secret == "" then Err(SecretMissing)
    else Ok(sign(JObj([Member("sub", JStr(userId))]), secret))
  }

  /** A thrown error as the guarded routes answer it: the message, with
      "ERROR" for a missing or empty one, under `error`, and 401 for
      UNAUTHORIZED, 403 for FORBIDDEN, 500 for anything else. */
  function ReplyFor(message: Option<string>): (r: Reply)
    ensures r.status == 401 <==> message == Some(Unauthorized)
    ensures r.status == 403 <==> message == Some(Forbidden)
    ensures r.status != 401 && r.status != 403 ==> r.status == 500
    ensures Property(r.body, "error") == Some(JStr(if message.GetOr("") == "" then "ERROR" else message.value))
  {
    var msg := if message.GetOr("") == "" then "ERROR" else message.value;
    Http.Error(if msg == Unauthorized then 401 else if msg == Forbidden then 403 else 500, msg)
  }

  /** The admin guard: `requireAuth`, then `requireRole(user, ["ADMIN"])`. */
  function RequireAdmin(header: Option<string>, secret: string, verify: Verify, users: seq<User>, queryError: Option<string>): (r: Result<AuthUser, string>)
    ensures r.Ok? ==> r.value.role == Admin && r == RequireAuth(header, secret, verify, users, queryError)
    ensures r.Err? ==> r.error == Unauthorized || r.error == Forbidden || (queryError.Some? && r.error == queryError.value)
  {
    match RequireAuth(header, secret, verify, users, queryError)
    case Err(e) => Err(e)
    case Ok(u) =>
      match RequireRole(u, [Admin])
      case Err(e) => Err(e)
      case Ok(_) => Ok(u)
  }

  /** Through the admin guard, an unauthenticated request answers 401, a
      failed user lookup 500 (its message is neither of the two codes), and
      an authenticated non-admin 403. */
  lemma AdminGuardStatus(header: Option<string>, secret: string, verify: Verify, users: seq<User>, queryError: Option<string>)
    ensures RequireAuth(header, secret, verify, users, queryError) == Err(Unauthorized) ==>
      ReplyFor(Some(RequireAdmin(header, secret, verify, users, queryError).error)).status == 401
    ensures queryError.Some? && queryError.value != Unauthorized && queryError.value != Forbidden &&
            RequireAuth(header, secret, verify, users, queryError) == Err(queryError.value) ==>
      ReplyFor(Some(RequireAdmin(header, secret, verify, users, queryError).error)).status == 500
    ensures RequireAuth(header, secret, verify, users, queryError).Ok? && RequireAuth(header, secret, verify, users, queryError).value.role != Admin ==>
      ReplyFor(Some(RequireAdmin(header, secret, verify, users, queryError).error)).status == 403
  {
  }
}
