/** The test-account seeding route: a loop over three fixed accounts that
    skips each one whose email is already stored and creates the others,
    with the profile their role calls for. Password hashing, id assignment
    and token signing are parameters. */
module Seed {
  import opened Wrappers
  import opened Json
  import opened Database
  import opened Http
  import Auth
  import Register

  datatype Account = Account(name: string, email: string, password: string, role: Role)

  /** The fixed accounts, in the order they are seeded. */
  const Accounts: seq<Account> := [
    Account("Administrator", "admin@topdrive.com", "Admin@123", Admin),
    Account("John Driver", "driver@topdrive.com", "Driver@123", Driver),
    Account("Jane Client", "client@topdrive.com", "Client@123", Client)
  ]

  lemma AccountEmailsDistinct()
    ensures forall k, j :: 0 <= k < j < |Accounts| ==> Accounts[k].email != Accounts[j].email
  {
    assert Accounts[0].email[0] == 'a' && Accounts[1].email[0] == 'd' && Accounts[2].email[0] == 'c';
  }

  /** One entry of `results`. */
  datatype Entry =
    | Skipped(email: string)
    | Created(email: string, message: string, accessToken: string, user: User)

  /** Why a run stopped early: the token could not be signed (after the
      user was stored), or the database refused the insert. */
  datatype Failure = SignFailed | InsertFailed

  /** The stored user for account `k`, whose id is `idFor(k)`. */
  function NewUser(k: nat, idFor: nat -> string, hash: string -> string): (u: User)
    requires k < |Accounts|
    ensures u.email == Accounts[k].email && u.id == idFor(k) && u.role == Accounts[k].role
  {
    User(idFor(k), Accounts[k].email, Some(Accounts[k].name), hash(Accounts[k].password), Accounts[k].role)
  }

  /** Account `k` is already stored before the run. */
  predicate Present(users: seq<User>, k: nat)
    requires k < |Accounts|
  {
    FindByEmail(users, Accounts[k].email).Some?
  }

  /** The users a run adds for the first `n` accounts: one per account
      not present before the run, in account order. */
  function Added(users: seq<User>, idFor: nat -> string, hash: string -> string, n: nat): seq<User>
    requires n <= |Accounts|
    decreases n
  {
    if n == 0 then []
    else
      var prev := Added(users, idFor, hash, n - 1);
      if Present(users, n - 1) then prev else prev + [NewUser(n - 1, idFor, hash)]
  }

  /** What a run adds for the first `n` accounts: nothing carrying the email
      or (with distinct ids) the id of a later account, nothing at all when
      every account was present, and the new user of every absent one. */
  lemma {:induction false} AddedAccounts(users: seq<User>, idFor: nat -> string, hash: string -> string, n: nat)
    requires n <= |Accounts|
    ensures var r := Added(users, idFor, hash, n);
      forall j, k :: 0 <= j < |r| && n <= k < |Accounts| ==> r[j].email != Accounts[k].email
    ensures var r := Added(users, idFor, hash, n);
      (forall k, m :: 0 <= k < m < |Accounts| ==> idFor(k) != idFor(m)) ==>
        forall j, k :: 0 <= j < |r| && n <= k < |Accounts| ==> r[j].id != idFor(k)
    ensures (forall k :: 0 <= k < n ==> Present(users, k)) ==> Added(users, idFor, hash, n) == []
    ensures forall k :: 0 <= k < n && !Present(users, k) ==> NewUser(k, idFor, hash) in Added(users, idFor, hash, n)
    decreases n
  {
    if n > 0 {
      AccountEmailsDistinct();
      AddedAccounts(users, idFor, hash, n - 1);
    }
  }

  /** The entry a run records for account `k`. */
  function Expected(users: seq<User>, idFor: nat -> string, hash: string -> string, secret: string, sign: Auth.Sign, k: nat): (e: Entry)
    requires k < |Accounts|
    ensures e.email == Accounts[k].email
    ensures e.Skipped? <==> Present(users, k)
  {
    if Present(users, k) then Skipped(Accounts[k].email)
    else
      var u := NewUser(k, idFor, hash);
      Created(u.email, Accounts[k].name + " (" + RoleName(u.role) + ")",
              sign(JObj([Member("sub", JStr(u.id))]), secret), u)
  }

  /** The entries a run records for the first `n` accounts, in order. */
  function Entries(users: seq<User>, idFor: nat -> string, hash: string -> string, secret: string, sign: Auth.Sign, n: nat): (r: seq<Entry>)
    requires n <= |Accounts|
    ensures |r| == n
    decreases n
  {
    if n == 0 then [] else Entries(users, idFor, hash, secret, sign, n - 1) + [Expected(users, idFor, hash, secret, sign, n - 1)]
  }

  /** Entry `k` of the recorded entries is the expected one for account `k`. */
  lemma {:induction false} EntriesExpected(users: seq<User>, idFor: nat -> string, hash: string -> string, secret: string, sign: Auth.Sign, n: nat)
    requires n <= |Accounts|
    ensures forall k :: 0 <= k < n ==> Entries(users, idFor, hash, secret, sign, n)[k] == Expected(users, idFor, hash, secret, sign, k)
    decreases n
  {
    if n > 0 {
      EntriesExpected(users, idFor, hash, secret, sign, n - 1);
    }
  }

  /** The profile of role `role` that the run creates for account `k`: one
      for the new user's id when the account is absent and has that role. */
  function ProfileFor(users: seq<User>, idFor: nat -> string, k: nat, role: Role): set<string>
    requires k < |Accounts|
  {
    if !Present(users, k) && Accounts[k].role == role then {idFor(k)} else {}
  }

  /** The profiles of role `role` a run creates for the first `n` accounts. */
  function Profiles(users: seq<User>, idFor: nat -> string, n: nat, role: Role): set<string>
    requires n <= |Accounts|
    decreases n
  {
    if n == 0 then {} else Profiles(users, idFor, n - 1, role) + ProfileFor(users, idFor, n - 1, role)
  }

  /** A whole run creates a client profile only for the client account and
      a driver profile only for the driver account, each when that account
      was absent; the administrator gets neither. */
  lemma RunProfiles(users: seq<User>, idFor: nat -> string)
    ensures Profiles(users, idFor, |Accounts|, Client) == if Present(users, 2) then {} else {idFor(2)}
    ensures Profiles(users, idFor, |Accounts|, Driver) == if Present(users, 1) then {} else {idFor(1)}
  {
    assert Accounts[0].role == Admin && Accounts[1].role == Driver && Accounts[2].role == Client;
    assert Profiles(users, idFor, 1, Client) == {} && Profiles(users, idFor, 1, Driver) == {};
    assert Profiles(users, idFor, 2, Client) == {};
  }

  /** One more account's profile on top of those of the accounts before it. */
  lemma ProfilesStep(c0: set<string>, c: set<string>, users: seq<User>, idFor: nat -> string, i: nat, role: Role)
    requires i < |Accounts| && c == c0 + Profiles(users, idFor, i, role)
    ensures c + ProfileFor(users, idFor, i, role) == c0 + Profiles(users, idFor, i + 1, role)
  {
  }

  /** The ids the run would assign are all distinct and not yet in use. */
  predicate FreshIds(users: seq<User>, idFor: nat -> string) {
    (forall k, j :: 0 <= k < j < |Accounts| ==> idFor(k) != idFor(j)) &&
    (forall k :: 0 <= k < |Accounts| ==> FindById(users, idFor(k)).None?)
  }

  /** `POST /api/auth/seed`'s loop. Without a failure the results are one
      entry per account in order, each skipped exactly when its email was
      stored before, and the table gains exactly the missing accounts
      behind the existing rows. Stored rows are never changed. */
  method Run(db: Db, idFor: nat -> string, hash: string -> string, secret: string, sign: Auth.Sign)
    returns (results: seq<Entry>, failure: Option<Failure>)
    requires db.Valid()
    modifies db
    ensures db.Valid()
    ensures old(db.users) <= db.users
    ensures failure.None? ==>
      results == Entries(old(db.users), idFor, hash, secret, sign, |Accounts|) &&
      db.users == old(db.users) + Added(old(db.users), idFor, hash, |Accounts|)
    ensures failure.Some? ==> exists k :: 0 <= k < |Accounts| && !Present(old(db.users), k)
    ensures failure == Some(SignFailed) ==> secret == ""
    ensures failure == Some(InsertFailed) ==> !FreshIds(old(db.users), idFor)
    ensures secret == "" && failure.None? ==> forall k :: 0 <= k < |Accounts| ==> Present(old(db.users), k)
    ensures old(db.clientProfiles) <= db.clientProfiles && old(db.driverProfiles) <= db.driverProfiles
    ensures failure.None? ==>
      db.clientProfiles == old(db.clientProfiles) + Profiles(old(db.users), idFor, |Accounts|, Client) &&
      db.driverProfiles == old(db.driverProfiles) + Profiles(old(db.users), idFor, |Accounts|, Driver)
  {
    ghost var before := db.users;
    ghost var clients0, drivers0 := db.clientProfiles, db.driverProfiles;
    results := [];
    failure := None;
    var i := 0;
    while i < |Accounts|
      invariant 0 <= i <= |Accounts|
      invariant db.Valid() && before <= db.users
      invariant db.users == before + Added(before, idFor, hash, i)
      invariant results == Entries(before, idFor, hash, secret, sign, i)
      invariant secret == "" ==> forall k :: 0 <= k < i ==> Present(before, k)
      invariant db.clientProfiles == clients0 + Profiles(before, idFor, i, Client)
      invariant db.driverProfiles == drivers0 + Profiles(before, idFor, i, Driver)
    {
      var entry, f := Visit(db, before, clients0, drivers0, i, idFor, hash, secret, sign);
      if f.Some? {
        assert !Present(before, i);
        failure := f;
        return;
      }
      results := results + [entry];
      i := i + 1;
    }
  }

  /** One pass of the loop, for account `i`: skip it when its email is
      stored, otherwise store it and sign its token. */
  method Visit(db: Db, ghost before: seq<User>, ghost clients0: set<string>, ghost drivers0: set<string>,
               i: nat, idFor: nat -> string, hash: string -> string, secret: string, sign: Auth.Sign)
    returns (entry: Entry, failure: Option<Failure>)
    requires i < |Accounts| && db.Valid()
    requires db.users == before + Added(before, idFor, hash, i)
    requires db.clientProfiles == clients0 + Profiles(before, idFor, i, Client)
    requires db.driverProfiles == drivers0 + Profiles(before, idFor, i, Driver)
    modifies db
    ensures db.Valid() && before <= db.users
    ensures failure.None? ==>
      entry == Expected(before, idFor, hash, secret, sign, i) &&
      db.users == before + Added(before, idFor, hash, i + 1)
    ensures failure.Some? ==> !Present(before, i)
    ensures failure.None? && !Present(before, i) ==> secret != ""
    ensures failure == Some(SignFailed) ==> secret == ""
    ensures failure == Some(InsertFailed) ==> !FreshIds(before, idFor)
    ensures old(db.clientProfiles) <= db.clientProfiles && old(db.driverProfiles) <= db.driverProfiles
    ensures failure.None? ==>
      db.clientProfiles == clients0 + Profiles(before, idFor, i + 1, Client) &&
      db.driverProfiles == drivers0 + Profiles(before, idFor, i + 1, Driver)
  {
    ProfilesStep(clients0, db.clientProfiles, before, idFor, i, Client);
    ProfilesStep(drivers0, db.driverProfiles, before, idFor, i, Driver);
    ghost var added := Added(before, idFor, hash, i);
    AddedAccounts(before, idFor, hash, i);
    FindByEmailExtend(before, added, Accounts[i].email);
    var existing := FindByEmail(db.users, Accounts[i].email);
    if existing.Some? {
      assert Added(before, idFor, hash, i + 1) == added;
      return Skipped(Accounts[i].email), None;
    }
    entry, failure := Create(db, before, i, idFor, hash, secret, sign);
  }

  /** The creating half of a pass, for an account whose email is not
      stored: insert the user with its role's profile, then sign. */
  method Create(db: Db, ghost before: seq<User>, i: nat, idFor: nat -> string, hash: string -> string, secret: string, sign: Auth.Sign)
    returns (entry: Entry, failure: Option<Failure>)
    requires i < |Accounts| && db.Valid() && !Present(before, i)
    requires db.users == before + Added(before, idFor, hash, i)
    modifies db
    ensures db.Valid() && before <= db.users
    ensures failure.None? ==>
      entry == Expected(before, idFor, hash, secret, sign, i) &&
      db.users == before + Added(before, idFor, hash, i + 1)
    ensures failure.None? ==> secret != ""
    ensures failure == Some(SignFailed) ==> secret == ""
    ensures failure == Some(InsertFailed) ==> !FreshIds(before, idFor)
    ensures failure == Some(InsertFailed) ==>
      db.users == old(db.users) && db.clientProfiles == old(db.clientProfiles) && db.driverProfiles == old(db.driverProfiles)
    ensures failure != Some(InsertFailed) ==>
      db.clientProfiles == old(db.clientProfiles) + (if Accounts[i].role == Client then {idFor(i)} else {}) &&
      db.driverProfiles == old(db.driverProfiles) + (if Accounts[i].role == Driver then {idFor(i)} else {})
  {
    var account := Accounts[i];
    ghost var added := Added(before, idFor, hash, i);
    var u := NewUser(i, idFor, hash);
    var ok := db.Create(u, account.role == Client, account.role == Driver);
    if !ok {
      IdClash(before, added, idFor, hash, i);
      return Skipped(account.email), Some(InsertFailed);
    }
    var token := Auth.SignAccessToken(u.id, secret, sign);
    if token.Err? {
      return Skipped(account.email), Some(SignFailed);
    }
    assert Added(before, idFor, hash, i + 1) == added + [u];
    entry := Created(account.email, account.name + " (" + RoleName(account.role) + ")", token.value, u);
    failure := None;
  }

  /** After the whole run every account's email is stored, existing or
      created. */
  lemma AllStored(before: seq<User>, idFor: nat -> string, hash: string -> string)
    ensures forall k :: 0 <= k < |Accounts| ==> FindByEmail(before + Added(before, idFor, hash, |Accounts|), Accounts[k].email).Some?
  {
    var added := Added(before, idFor, hash, |Accounts|);
    AddedAccounts(before, idFor, hash, |Accounts|);
    var w := before + added;
    forall k | 0 <= k < |Accounts|
      ensures FindByEmail(w, Accounts[k].email).Some?
    {
      if Present(before, k) {
        var j :| 0 <= j < |before| && before[j].email == Accounts[k].email;
        assert w[j] == before[j];
      } else {
        var j :| 0 <= j < |added| && added[j] == NewUser(k, idFor, hash);
        assert w[|before| + j] == added[j];
      }
    }
  }

  /** An insert refused for a missing email means the id it was given is
      taken (the email cannot be, as no row added earlier in the run
      carries it), by a row stored before or by an account created earlier
      in the same run; either way the ids were not fresh. */
  lemma IdClash(before: seq<User>, added: seq<User>, idFor: nat -> string, hash: string -> string, i: nat)
    requires i < |Accounts|
    requires added == Added(before, idFor, hash, i) && !Present(before, i)
    requires FindById(before + added, idFor(i)).Some? || FindByEmail(before + added, Accounts[i].email).Some?
    ensures !FreshIds(before, idFor)
  {
    AddedAccounts(before, idFor, hash, i);
    FindByEmailExtend(before, added, Accounts[i].email);
    var w := before + added;
    var j :| 0 <= j < |w| && w[j].id == idFor(i);
    if j >= |before| {
      assert added[j - |before|] == w[j];
    } else {
      assert before[j].id == idFor(i);
    }
  }

  /** Seeding twice: after a run without failure every account is stored,
      so a second run stores nothing and skips all three. */
  method RunTwice(db: Db, idFor: nat -> string, hash: string -> string, secret: string, sign: Auth.Sign)
    returns (first: seq<Entry>, second: seq<Entry>, failure: Option<Failure>)
    requires db.Valid()
    modifies db
    ensures failure.None? ==> |second| == |Accounts| && forall k :: 0 <= k < |Accounts| ==> second[k] == Skipped(Accounts[k].email)
    ensures failure.None? ==> db.users == old(db.users) + Added(old(db.users), idFor, hash, |Accounts|)
  {
    var f1, f2;
    first, f1 := Run(db, idFor, hash, secret, sign);
    if f1.Some? {
      return first, [], f1;
    }
    ghost var middle := db.users;
    AllStored(old(db.users), idFor, hash);
    second, f2 := Run(db, idFor, hash, secret, sign);
    assert forall k :: 0 <= k < |Accounts| ==> Present(middle, k);
    AddedAccounts(middle, idFor, hash, |Accounts|);
    EntriesExpected(middle, idFor, hash, secret, sign, |Accounts|);
    failure := f2;
  }

  /** The entry as the route answers it. */
  function EntryJson(e: Entry): (v: Value)
    ensures Property(v, "email") == Some(JStr(e.email))
  {
    match e
    case Skipped(email) =>
      var ms := [Member("email", JStr(email)), Member("status", JStr("skipped")), Member("message", JStr("Already exists"))];
      LookupUnique(ms, 0, "email");
      JObj(ms)
    case Created(email, message, token, u) =>
      var ms := [Member("email", JStr(email)), Member("status", JStr("created")), Member("message", JStr(message)),
                 Member("accessToken", JStr(token)), Member("user", Register.UserJson(u))];
      LookupUnique(ms, 0, "email");
      JObj(ms)
  }

  /** The page each test role signs in to. */
  function Landing(r: Role): string {
    match r
    case Admin => "http://localhost:3000/admin"
    case Driver => "http://localhost:3000/driver"
    case Client => "http://localhost:3000/dashboard"
  }

  function Credential(a: Account): Value {
    JObj([Member("role", JStr(RoleName(a.role))), Member("email", JStr(a.email)),
          Member("password", JStr(a.password)), Member("url", JStr(Landing(a.role)))])
  }

  /** The route's answer: the results and the test credentials, or a 500
      carrying the error's message. */
  function Response(results: seq<Entry>, failure: Option<Failure>, insertMessage: string): (r: Reply)
    ensures failure.None? <==> r.status == 200
    ensures failure.Some? ==> r.status == 500 && Property(r.body, "error") == Some(JStr("Server error"))
    ensures failure.None? ==> Property(r.body, "accounts") == Some(JArr(seq(|results|, k requires 0 <= k < |results| => EntryJson(results[k]))))
  {
    match failure
    case None =>
      var ms := [Member("message", JStr("Test accounts seeded successfully")),
                 Member("accounts", JArr(seq(|results|, k requires 0 <= k < |results| => EntryJson(results[k])))),
                 Member("testCredentials", JArr(seq(|Accounts|, k requires 0 <= k < |Accounts| => Credential(Accounts[k]))))];
      LookupUnique(ms, 1, "accounts");
      Reply(200, JObj(ms))
    case Some(f) =>
      var details := match f case SignFailed => Auth.SecretMissing case InsertFailed => insertMessage;
      var ms := [Member("error", JStr("Server error")), Member("details", JStr(details))];
      LookupUnique(ms, 0, "error");
      Reply(500, JObj(ms))
  }
}
