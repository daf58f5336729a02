/** The sign-up route: normalising the parsed body, the validation checks
    in their order, the insert of the user with the profile its role calls
    for, and the answer. Password hashing, id generation and token signing
    are parameters. Any exception inside the handler answers 500. */
module Register {
  import opened Wrappers
  import opened Text
  import opened Json
  import opened Database
  import opened Http
  import Auth

  const ServerError: Reply := Http.Error(500, "Server error")
  const Required := "Email and password are required"
  const TooShort := "Password must be at least 6 characters"
  const InvalidRole := "Invalid role"
  const Taken := "Email already registered"

  /** `(x ?? "").trim()` on a body property: a missing or null property is
      empty, a string is trimmed, and anything else throws (it has no
      `trim`), given here as None. */
  function TrimmedField(v: Option<Value>): (r: Option<string>)
    ensures (v.None? || v == Some(JNull)) ==> r == Some("")
    ensures (exists s :: v == Some(JStr(s))) ==> r == Some(Trim(v.value.s))
    ensures r.None? <==> v.Some? && v.value != JNull && !v.value.JStr?
  {
    match v
    case None => Some("")
    case Some(JNull) => Some("")
    case Some(JStr(s)) => Some(Trim(s))
    case Some(_) => None
  }

  /** `x ?? d` on a body property. */
  function OrDefault(v: Option<Value>, d: Value): (r: Value)
    ensures (v.None? || v == Some(JNull)) ==> r == d
    ensures v.Some? && v.value != JNull ==> r == v.value
  {
    match v
    case None => d
    case Some(JNull) => d
    case Some(x) => x
  }

  /** The normalised form: `name` trimmed, `email` trimmed and lowered,
      `password` defaulting to "" and `role` to "CLIENT"; the last two
      are whatever JSON value the client sent. */
  datatype Form = Form(name: string, email: string, password: Value, role: Value)

  function Normalise(body: Value): (r: Option<Form>)
    ensures r.Some? <==> TrimmedField(Property(body, "name")).Some? && TrimmedField(Property(body, "email")).Some?
    ensures r.Some? ==> r.value.name == TrimmedField(Property(body, "name")).value
    ensures r.Some? ==> r.value.email == ToLowerAscii(TrimmedField(Property(body, "email")).value)
    ensures r.Some? ==> r.value.password == OrDefault(Property(body, "password"), JStr(""))
    ensures r.Some? ==> r.value.role == OrDefault(Property(body, "role"), JStr("CLIENT"))
  {
    match TrimmedField(Property(body, "name"))
    case None => None
    case Some(name) =>
      match TrimmedField(Property(body, "email"))
      case None => None
      case Some(email) =>
        Some(Form(name, ToLowerAscii(email), OrDefault(Property(body, "password"), JStr("")),
                  OrDefault(Property(body, "role"), JStr("CLIENT"))))
  }

  /** `password.length < 6`: UTF-16 units of a string, items of an
      array, the `length` member of an object; a value without a length
      (`undefined < 6` is false) passes. */
  predicate ShortPassword(password: Value) {
    match password
    case JStr(s) => JsLength(s) < 6
    case JArr(items) => |items| < 6
    case JObj(ms) =>
      (match Lookup(ms, "length")
       case Some(JNum(n)) => n < 6
       case Some(JNull) => true
       case Some(JBool(_)) => true
       case _ => false)
    case _ => false
  }

  /** The role the form names, if it names one of the three. */
  function FormRole(role: Value): (r: Option<Role>)
    ensures r.Some? ==> role == JStr(RoleName(r.value))
    ensures r.None? ==> forall x :: role != JStr(RoleName(x))
  {
    match role
    case JStr(s) => ParseRole(s)
    case _ => None
  }

  /** The first failing check, in the route's order, or the role to
      register with when all pass. */
  function Check(f: Form, users: seq<User>): (r: Result<Role, Reply>)
    ensures r == Err(Http.Error(400, Required)) <==> f.email == "" || !Truthy(Some(f.password))
    ensures r == Err(Http.Error(400, TooShort)) <==>
      f.email != "" && Truthy(Some(f.password)) && ShortPassword(f.password)
    ensures r == Err(Http.Error(400, InvalidRole)) <==>
      f.email != "" && Truthy(Some(f.password)) && !ShortPassword(f.password) && FormRole(f.role).None?
    ensures r == Err(Http.Error(409, Taken)) <==>
      f.email != "" && Truthy(Some(f.password)) && !ShortPassword(f.password) && FormRole(f.role).Some? &&
      FindByEmail(users, f.email).Some?
    ensures r.Ok? <==>
      f.email != "" && Truthy(Some(f.password)) && !ShortPassword(f.password) && FormRole(f.role).Some? &&
      FindByEmail(users, f.email).None?
    ensures r.Ok? ==> f.role == JStr(RoleName(r.value))
  {
    if f.email == "" || !Truthy(Some(f.password)) then Err(Http.Error(400, Required))
    else if ShortPassword(f.password) then Err(Http.Error(400, TooShort))
    else match FormRole(f.role)
      case None => Err(Http.Error(400, InvalidRole))
      case Some(role) =>
        if FindByEmail(users, f.email).Some? then Err(Http.Error(409, Taken))
        else Ok(role)
  }

  /** A user as answered: `{ id, email, name, role }`. */
  function UserJson(u: User): (v: Value)
    ensures Property(v, "id") == Some(JStr(u.id)) && Property(v, "email") == Some(JStr(u.email))
    ensures Property(v, "role") == Some(JStr(RoleName(u.role)))
    ensures Property(v, "passwordHash").None?
  {
    var ms := [Member("id", JStr(u.id)), Member("email", JStr(u.email)),
               Member("name", match u.name case None => JNull case Some(n) => JStr(n)),
               Member("role", JStr(RoleName(u.role)))];
    assert ms[..3][..2][..1] == [Member("id", JStr(u.id))];
    assert Lookup(ms[..3][..2], "email") == Some(JStr(u.email));
    assert Lookup(ms[..3][..2], "id") == Some(JStr(u.id));
    JObj(ms)
  }

  /** The stored name: an empty one is null. */
  function StoredName(name: string): (r: Option<string>)
    ensures r.None? <==> name == ""
    ensures r.Some? ==> r.value == name
  {
    if name == "" then None else Some(name)
  }

  /** Everything before the insert: the parsed body normalised and
      checked, and the password handed to bcrypt, which refuses anything
      but a string. Gives the user to store (id, hash aside) or the reply. */
  datatype Signup = Signup(name: Option<string>, email: string, password: string, role: Role)

  function Attempt(body: Option<Value>, users: seq<User>): (r: Result<Signup, Reply>)
    ensures body.None? || Normalise(body.value).None? ==> r == Err(ServerError)
    ensures body.Some? && Normalise(body.value).Some? && Check(Normalise(body.value).value, users).Err? ==>
      r == Err(Check(Normalise(body.value).value, users).error)
    ensures r.Ok? ==> body.Some? && Normalise(body.value).Some? && Check(Normalise(body.value).value, users).Ok?
    ensures r.Ok? ==>
      var f := Normalise(body.value).value;
      f.password == JStr(r.value.password) && r.value.email == f.email &&
      r.value.name == StoredName(f.name) && r.value.role == Check(f, users).value
    ensures r.Ok? ==> FindByEmail(users, r.value.email).None? && r.value.email != "" && JsLength(r.value.password) >= 6
  {
    match body
    case None => Err(ServerError)
    case Some(b) =>
      match Normalise(b)
      case None => Err(ServerError)
      case Some(f) =>
        match Check(f, users)
        case Err(reply) => Err(reply)
        case Ok(role) =>
          match f.password
          case JStr(pw) => Ok(Signup(StoredName(f.name), f.email, pw, role))
          case _ => Err(ServerError)
  }

  /** The answer once the user is stored: 201 with a token and the user,
      or 500 when the token cannot be signed. */
  function Answer(u: User, secret: string, sign: Auth.Sign): (r: Reply)
    ensures secret == "" <==> r == ServerError
    ensures secret != "" ==>
      r.status == 201 &&
      Property(r.body, "accessToken") == Some(JStr(sign(JObj([Member("sub", JStr(u.id))]), secret))) &&
      Property(r.body, "user") == Some(UserJson(u))
  {
    match Auth.SignAccessToken(u.id, secret, sign)
    case Err(_) => ServerError
    case Ok(token) =>
      var ms := [Member("accessToken", JStr(token)), Member("user", UserJson(u))];
      assert ms[..|ms| - 1] == [Member("accessToken", JStr(token))];
      assert Lookup(ms[..|ms| - 1], "accessToken") == Some(JStr(token));
      Reply(201, JObj(ms))
  }

  /** `POST /api/auth/register`. `body` is the parsed body, None when it
      does not parse; `newId` is the id the database assigns. */
  method Post(db: Db, body: Option<Value>, newId: string, hash: string -> string, secret: string, sign: Auth.Sign)
    returns (reply: Reply)
    requires db.Valid()
    modifies db
    ensures db.Valid()
    ensures Attempt(body, old(db.users)).Err? ==> reply == Attempt(body, old(db.users)).error && unchanged(db)
    ensures Attempt(body, old(db.users)).Ok? && FindById(old(db.users), newId).Some? ==>
      reply == ServerError &&
      db.users == old(db.users) && db.clientProfiles == old(db.clientProfiles) && db.driverProfiles == old(db.driverProfiles)
    ensures Attempt(body, old(db.users)).Ok? && FindById(old(db.users), newId).None? ==>
      var s := Attempt(body, old(db.users)).value;
      var u := User(newId, s.email, s.name, hash(s.password), s.role);
      db.users == old(db.users) + [u] &&
      db.clientProfiles == old(db.clientProfiles) + (if s.role == Client then {newId} else {}) &&
      db.driverProfiles == old(db.driverProfiles) + (if s.role == Driver then {newId} else {}) &&
      reply == Answer(u, secret, sign)
  {
    var attempt := Attempt(body, db.users);
    if attempt.Err? {
      return attempt.error;
    }
    reply := Store(db, attempt.value, newId, hash, secret, sign);
  }

  /** The part of `POST` after the checks: the insert, then the answer. */
  method Store(db: Db, s: Signup, newId: string, hash: string -> string, secret: string, sign: Auth.Sign)
    returns (reply: Reply)
    requires db.Valid() && FindByEmail(db.users, s.email).None?
    modifies db
    ensures db.Valid()
    ensures FindById(old(db.users), newId).Some? ==>
      reply == ServerError &&
      db.users == old(db.users) && db.clientProfiles == old(db.clientProfiles) && db.driverProfiles == old(db.driverProfiles)
    ensures FindById(old(db.users), newId).None? ==>
      var u := User(newId, s.email, s.name, hash(s.password), s.role);
      db.users == old(db.users) + [u] &&
      db.clientProfiles == old(db.clientProfiles) + (if s.role == Client then {newId} else {}) &&
      db.driverProfiles == old(db.driverProfiles) + (if s.role == Driver then {newId} else {}) &&
      reply == Answer(u, secret, sign)
  {
    var u := User(newId, s.email, s.name, hash(s.password), s.role);
    var ok := db.Create(u, s.role == Client, s.role == Driver);
    if !ok {
      return ServerError;
    }
    reply := Answer(u, secret, sign);
  }

  /** A successful sign-up stores the user under the email as normalised,
      so signing up again with the same body is refused as taken. */
  lemma RegisterTwiceTaken(f: Form, users: seq<User>, u: User)
    requires Check(f, users).Ok? && u.email == f.email
    requires Unique(users + [u])
    ensures Check(f, users + [u]) == Err(Http.Error(409, Taken))
  {
    FindByEmailAppend(users, u, f.email);
  }
}
