/** The user table the auth routes read and write, with its two unique
    columns (`id`, `email`) and the per-user client and driver profiles.
    The table is kept in insertion order; lookups by a unique column find
    the one matching row. */
module Database {
  import opened Wrappers

  datatype Role = Client | Driver | Admin

  /** The wire name of a role. */
  function RoleName(r: Role): (s: string)
    ensures s != []
  {
    match r
    case Client => "CLIENT"
    case Driver => "DRIVER"
    case Admin => "ADMIN"
  }

  /** The three accepted role names, and nothing else, name a role. */
  function ParseRole(s: string): (r: Option<Role>)
    ensures r.Some? ==> RoleName(r.value) == s
    ensures r.None? ==> s != "CLIENT" && s != "DRIVER" && s != "ADMIN"
  {
    if s == "CLIENT" then Some(Client)
    else if s == "DRIVER" then Some(Driver)
    else if s == "ADMIN" then Some(Admin)
    else None
  }

  lemma RoleNameRoundTrip(r: Role)
    ensures ParseRole(RoleName(r)) == Some(r)
  {
  }

  /** A stored user; `name` is nullable. */
  datatype User = User(id: string, email: string, name: Option<string>, passwordHash: string, role: Role)

  /** `findUnique({ where: { email } })` */
  function FindByEmail(users: seq<User>, email: string): (r: Option<User>)
    ensures r.Some? ==> r.value in users && r.value.email == email
    ensures r.None? <==> forall i :: 0 <= i < |users| ==> users[i].email != email
  {
    if users == [] then None
    else if users[0].email == email then Some(users[0])
    else
      var r := FindByEmail(users[1..], email);
      assert forall i :: 1 <= i < |users| ==> users[i] == users[1..][i - 1];
      r
  }

  /** `findUnique({ where: { id } })` */
  function FindById(users: seq<User>, id: string): (r: Option<User>)
    ensures r.Some? ==> r.value in users && r.value.id == id
    ensures r.None? <==> forall i :: 0 <= i < |users| ==> users[i].id != id
  {
    if users == [] then None
    else if users[0].id == id then Some(users[0])
    else
      var r := FindById(users[1..], id);
      assert forall i :: 1 <= i < |users| ==> users[i] == users[1..][i - 1];
      r
  }

  /** Both unique columns hold no value twice. */
  predicate Unique(users: seq<User>) {
    forall i, j :: 0 <= i < j < |users| ==> users[i].id != users[j].id && users[i].email != users[j].email
  }

  /** In a table whose emails are unique, the row found by email is the
      only row with that email, so every row is found by its own email. */
  lemma {:induction false} FindByEmailOwn(users: seq<User>, k: nat)
    requires Unique(users) && k < |users|
    ensures FindByEmail(users, users[k].email) == Some(users[k])
  {
    if k > 0 {
      assert users[0].email != users[k].email;
      assert users[1..][k - 1] == users[k];
      FindByEmailOwn(users[1..], k - 1);
    }
  }

  /** A row appended behind the table changes no lookup of another email. */
  lemma {:induction false} FindByEmailAppend(users: seq<User>, u: User, email: string)
    ensures FindByEmail(users + [u], email) ==
      if FindByEmail(users, email).Some? then FindByEmail(users, email)
      else if u.email == email then Some(u) else None
  {
    if users != [] {
      assert (users + [u])[1..] == users[1..] + [u];
      FindByEmailAppend(users[1..], u, email);
    }
  }

  /** A row appended behind the table changes no lookup of another id. */
  lemma {:induction false} FindByIdAppend(users: seq<User>, u: User, id: string)
    ensures FindById(users + [u], id) ==
      if FindById(users, id).Some? then FindById(users, id)
      else if u.id == id then Some(u) else None
  {
    if users != [] {
      assert (users + [u])[1..] == users[1..] + [u];
      FindByIdAppend(users[1..], u, id);
    }
  }

  /** Rows appended that do not carry `email` do not change whether it
      is found. */
  lemma FindByEmailExtend(a: seq<User>, b: seq<User>, email: string)
    requires forall j :: 0 <= j < |b| ==> b[j].email != email
    ensures FindByEmail(a + b, email).Some? <==> FindByEmail(a, email).Some?
  {
    if FindByEmail(a, email).Some? {
      var j :| 0 <= j < |a| && a[j].email == email;
      assert (a + b)[j] == a[j];
    } else {
      forall j | 0 <= j < |a + b| ensures (a + b)[j].email != email {
        if j >= |a| {
          assert (a + b)[j] == b[j - |a|];
        }
      }
    }
  }

  /** Appending a row whose id and email are both new keeps the columns
      unique, finds the row by both, and changes no other lookup. */
  lemma AppendFresh(users: seq<User>, u: User)
    requires Unique(users) && FindById(users, u.id).None? && FindByEmail(users, u.email).None?
    ensures Unique(users + [u])
    ensures FindByEmail(users + [u], u.email) == Some(u) && FindById(users + [u], u.id) == Some(u)
    ensures forall e :: e != u.email ==> FindByEmail(users + [u], e) == FindByEmail(users, e)
    ensures forall id :: FindById(users, id).Some? ==> FindById(users + [u], id).Some?
  {
    forall e | true
      ensures FindByEmail(users + [u], e) == if FindByEmail(users, e).Some? then FindByEmail(users, e) else if u.email == e then Some(u) else None
    {
      FindByEmailAppend(users, u, e);
    }
    forall id | true
      ensures FindById(users + [u], id) == if FindById(users, id).Some? then FindById(users, id) else if u.id == id then Some(u) else None
    {
      FindByIdAppend(users, u, id);
    }
  }

  /** The user table and its profile tables (profiles by user id). */
  class Db {
    var users: seq<User>
    var clientProfiles: set<string>
    var driverProfiles: set<string>

    /** Unique columns, and every profile belongs to a stored user. */
    ghost predicate Valid()
      reads this
    {
      Unique(users) &&
      (forall id {:trigger FindById(users, id)} :: id in clientProfiles ==> FindById(users, id).Some?) &&
      (forall id {:trigger FindById(users, id)} :: id in driverProfiles ==> FindById(users, id).Some?)
    }

    constructor (users: seq<User>)
      requires Unique(users)
      ensures Valid() && this.users == users && clientProfiles == {} && driverProfiles == {}
    {
      this.users := users;
      clientProfiles := {};
      driverProfiles := {};
    }

    /** `user.create`, with the nested profile creates. The insert fails,
        changing nothing, when the id or the email is already taken (the
        unique constraints); otherwise the user is stored, with a client
        profile when `client` and a driver profile when `driver`. */
    method Create(u: User, client: bool, driver: bool) returns (ok: bool)
      requires Valid()
      modifies this
      ensures Valid()
      ensures ok <==> FindById(old(users), u.id).None? && FindByEmail(old(users), u.email).None?
      ensures ok ==> users == old(users) + [u]
      ensures ok ==> clientProfiles == old(clientProfiles) + (if client then {u.id} else {})
      ensures ok ==> driverProfiles == old(driverProfiles) + (if driver then {u.id} else {})
      ensures ok ==> FindByEmail(users, u.email) == Some(u) && FindById(users, u.id) == Some(u)
      ensures ok ==> forall e :: e != u.email ==> FindByEmail(users, e) == FindByEmail(old(users), e)
      ensures !ok ==> users == old(users) && clientProfiles == old(clientProfiles) && driverProfiles == old(driverProfiles)
    {
      if FindById(users, u.id).Some? || FindByEmail(users, u.email).Some? {
        return false;
      }
      AppendFresh(users, u);
      users := users + [u];
      if client {
        clientProfiles := clientProfiles + {u.id};
      }
      if driver {
        driverProfiles := driverProfiles + {u.id};
      }
      ok := true;
    }
  }
}
