/** The driver wallet route: its own token check, the earnings fold over
    a driver's completed rides, the balance summary, and the withdraw
    decision. The stored tables are values; the route changes neither.
    Token verification, number formatting and the text of library errors
    are parameters. */
module Wallet {
  import opened Wrappers
  import opened Seqs
  import opened Text
  import opened Json
  import opened Rides
  import opened Database
  import opened Http
  import Auth

  const NotAuthenticated := "Not authenticated"
  const InvalidToken := "Invalid token"
  const UserNotFound := "User not found"
  const InvalidAmount := "Invalid amount"
  const Insufficient := "Insufficient balance"
  const InvalidAction := "Invalid action"

  /** This route's token: the header (missing counts as empty) with its
      first `Bearer ` removed, wherever it stands. */
  function LocalToken(header: Option<string>): string {
    ReplaceFirst(header.GetOr(""), "Bearer ", "")
  }

  /** On a header that starts with `Bearer ` this route reads the same
      token as the shared check. */
  lemma LocalTokenAgrees(header: Option<string>)
    requires StartsWith(header.GetOr(""), "Bearer ")
    ensures LocalToken(header) == Auth.BearerToken(header)
  {
    var h := header.GetOr("");
    assert h[0..|"Bearer "|] == "Bearer ";
  }

  /** A header without `Bearer ` anywhere is taken whole as the token,
      where the shared check would refuse it. */
  lemma LocalTokenWithoutPrefix(header: Option<string>)
    requires IndexOf(header.GetOr(""), "Bearer ").None?
    ensures LocalToken(header) == header.GetOr("")
  {
  }

  /** `process.env.JWT_SECRET || "secret"` */
  function WalletSecret(env: Option<string>): (s: string)
    ensures s != ""
    ensures env.Some? && env.value != "" ==> s == env.value
  {
    if env.GetOr("") == "" then "secret" else env.value
  }

  /** This route's `requireAuth`: the `sub` of the verified payload, which
      may be missing or not a string. */
  function RequireAuth(header: Option<string>, env: Option<string>, verify: Auth.Verify): (r: Result<Option<Value>, string>)
    ensures LocalToken(header) == "" <==> r == Err(NotAuthenticated)
    ensures LocalToken(header) != "" && verify(LocalToken(header), WalletSecret(env)).None? <==> r == Err(InvalidToken)
    ensures r.Ok? ==> r.value == Property(verify(LocalToken(header), WalletSecret(env)).value, "sub")
  {
    var token := LocalToken(header);
    if token == "" then Err(NotAuthenticated)
    else match verify(token, WalletSecret(env))
      case None => Err(InvalidToken)
      case Some(payload) => Ok(Property(payload, "sub"))
  }

  /** `user.findUnique({ where: { id: userId } })`, then the not-found
      check: a `sub` that is not a string makes the query itself throw
      (with the database's message `queryError`). */
  function FindUser(sub: Option<Value>, users: seq<User>, queryError: string): (r: Result<User, string>)
    ensures r.Ok? ==> sub == Some(JStr(r.value.id)) && r.value in users
    ensures r == Err(UserNotFound) && UserNotFound != queryError ==> sub.Some? && sub.value.JStr? && FindById(users, sub.value.s).None?
  {
    match sub
    case Some(JStr(id)) =>
      (match FindById(users, id)
       case None => Err(UserNotFound)
       case Some(u) => Ok(u))
    case _ => Err(queryError)
  }

  /** `offeredPrice || estimate`: a missing or zero offer falls back. */
  function Earning(r: Ride): (n: int)
    ensures r.offeredPrice.Some? && r.offeredPrice.value != 0 ==> n == r.offeredPrice.value
    ensures r.offeredPrice.None? || r.offeredPrice == Some(0) ==> n == r.estimate
  {
    match r.offeredPrice
    case None => r.estimate
    case Some(p) => if p == 0 then r.estimate else p
  }

  /** The rows `ride.findMany({ where: { driverName: email, status: "COMPLETED" } })` selects. */
  predicate CompletedBy(email: string, r: Ride) {
    r.driverName == Some(email) && r.status == Completed
  }

  predicate DrivenBy(email: string, r: Ride) {
    r.driverName == Some(email)
  }

  /** `reduce((acc, ride) => acc + earning(ride), acc)`, left to right. */
  function Reduce(rs: seq<Ride>, acc: int): int
    decreases |rs|
  {
    if rs == [] then acc else Reduce(rs[1..], acc + Earning(rs[0]))
  }

  /** The plain sum of the earnings. */
  function Sum(rs: seq<Ride>): int
    decreases |rs|
  {
    if rs == [] then 0 else Earning(rs[0]) + Sum(rs[1..])
  }

  /** The fold from `acc` adds the sum to `acc`. */
  lemma {:induction false} ReduceIsSum(rs: seq<Ride>, acc: int)
    ensures Reduce(rs, acc) == acc + Sum(rs)
    decreases |rs|
  {
    if rs != [] {
      ReduceIsSum(rs[1..], acc + Earning(rs[0]));
    }
  }

  lemma {:induction false} SumAppend(a: seq<Ride>, b: seq<Ride>)
    ensures Sum(a + b) == Sum(a) + Sum(b)
    decreases |a|
  {
    if a != [] {
      assert (a + b)[1..] == a[1..] + b;
      SumAppend(a[1..], b);
    } else {
      assert a + b == b;
    }
  }

  lemma {:induction false} FilterAppend(s: seq<Ride>, x: Ride, p: Ride -> bool)
    ensures Filter(s + [x], p) == Filter(s, p) + (if p(x) then [x] else [])
    decreases |s|
  {
    if s != [] {
      assert (s + [x])[1..] == s[1..] + [x];
      FilterAppend(s[1..], x, p);
    }
  }

  /** The wallet balance: the earnings of the driver's completed rides. */
  function Earnings(rides: seq<Ride>, email: string): int {
    Reduce(Filter(rides, r => CompletedBy(email, r)), 0)
  }

  /** Only the driver's completed rides count: another row leaves the
      earnings as they were, a completed ride of the driver adds its
      earning. */
  lemma EarningsAppend(rides: seq<Ride>, x: Ride, email: string)
    ensures !CompletedBy(email, x) ==> Earnings(rides + [x], email) == Earnings(rides, email)
    ensures CompletedBy(email, x) ==> Earnings(rides + [x], email) == Earnings(rides, email) + Earning(x)
  {
    var p := (r: Ride) => CompletedBy(email, r);
    FilterAppend(rides, x, p);
    ReduceIsSum(Filter(rides + [x], p), 0);
    ReduceIsSum(Filter(rides, p), 0);
    SumAppend(Filter(rides, p), if p(x) then [x] else []);
  }

  /** Prices that are never negative give a balance that is not negative. */
  lemma {:induction false} SumNonNegative(rs: seq<Ride>)
    requires forall i :: 0 <= i < |rs| ==> rs[i].estimate >= 0 && rs[i].offeredPrice.GetOr(0) >= 0
    ensures Sum(rs) >= 0
    decreases |rs|
  {
    if rs != [] {
      assert forall i :: 1 <= i < |rs| ==> rs[1..][i - 1] == rs[i];
      SumNonNegative(rs[1..]);
    }
  }

  lemma EarningsNonNegative(rides: seq<Ride>, email: string)
    requires forall i :: 0 <= i < |rides| ==> rides[i].estimate >= 0 && rides[i].offeredPrice.GetOr(0) >= 0
    ensures Earnings(rides, email) >= 0
  {
    var f := Filter(rides, r => CompletedBy(email, r));
    ReduceIsSum(f, 0);
    SumNonNegative(f);
  }

  /** A driver's completed rides are among the rides they drove. */
  lemma {:induction false} CompletedAtMostTotal(rides: seq<Ride>, email: string)
    ensures Count(rides, r => CompletedBy(email, r)) <= Count(rides, r => DrivenBy(email, r))
    decreases |rides|
  {
    if rides != [] {
      CompletedAtMostTotal(rides[1..], email);
    }
  }

  /** What `GET` answers. */
  datatype Summary = Summary(balance: int, totalEarnings: int, completedRides: nat, totalRides: nat)

  function SummaryJson(s: Summary): Value {
    JObj([Member("balance", JNum(s.balance)), Member("totalEarnings", JNum(s.totalEarnings)),
          Member("completedRides", JNum(s.completedRides)), Member("totalRides", JNum(s.totalRides)),
          Member("currency", JStr("\U{20A6}"))])
  }

  /** `GET /api/wallet`: every failure, the token's included, is a 500. */
  function Get(header: Option<string>, env: Option<string>, verify: Auth.Verify, users: seq<User>, rides: seq<Ride>, queryError: string): (r: Reply)
    ensures r.status == 200 || r == Http.Error(500, "Server error")
    ensures r.status == 200 <==> RequireAuth(header, env, verify).Ok? && FindUser(RequireAuth(header, env, verify).value, users, queryError).Ok?
    ensures r.status == 200 ==>
      var u := FindUser(RequireAuth(header, env, verify).value, users, queryError).value;
      var s := Summary(Earnings(rides, u.email), Earnings(rides, u.email),
                       Count(rides, x => CompletedBy(u.email, x)), Count(rides, x => DrivenBy(u.email, x)));
      r.body == SummaryJson(s) && s.completedRides <= s.totalRides
  {
    match RequireAuth(header, env, verify)
    case Err(_) => Http.Error(500, "Server error")
    case Ok(sub) =>
      match FindUser(sub, users, queryError)
      case Err(_) => Http.Error(500, "Server error")
      case Ok(u) =>
        var completed := Filter(rides, x => CompletedBy(u.email, x));
        var total := Reduce(completed, 0);
        FilterLength(rides, x => CompletedBy(u.email, x));
        CompletedAtMostTotal(rides, u.email);
        Reply(200, SummaryJson(Summary(total, total, |completed|, Count(rides, x => DrivenBy(u.email, x)))))
  }

  /** A JavaScript number in this model: an integer, or NaN. */
  type Number = Option<int>

  /** `body?.amount ?? 0` as a number for the comparisons: absent and null
      give 0, booleans 0 or 1; strings, arrays and objects are NaN here. */
  function Amount(v: Option<Value>): (n: Number)
    ensures v.None? || v == Some(JNull) ==> n == Some(0)
    ensures (exists k :: v == Some(JNum(k))) ==> n == Some(v.value.n)
  {
    match v
    case None => Some(0)
    case Some(JNull) => Some(0)
    case Some(JBool(b)) => Some(if b then 1 else 0)
    case Some(JNum(k)) => Some(k)
    case Some(_) => None
  }

  /** The withdraw decision against the balance: the new balance, or the
      rejection. A NaN amount passes both comparisons (each is false) and
      leaves a NaN balance. */
  function Withdraw(amount: Number, balance: int): (r: Result<Number, string>)
    ensures amount.Some? && amount.value <= 0 <==> r == Err(InvalidAmount)
    ensures amount.Some? && 0 < amount.value && amount.value > balance <==> r == Err(Insufficient)
    ensures amount.Some? && 0 < amount.value <= balance ==> r == Ok(Some(balance - amount.value))
    ensures r.Ok? && r.value.Some? ==> amount.Some? && r.value.value == balance - amount.value && 0 <= r.value.value < balance
    ensures amount.None? <==> r == Ok(None)
  {
    match amount
    case None => Ok(None)
    case Some(a) =>
      if a <= 0 then Err(InvalidAmount)
      else if a > balance then Err(Insufficient)
      else Ok(Some(balance - a))
  }

  /** A JSON number, with NaN as `null` (what `JSON.stringify` writes). */
  function NumberJson(n: Number): Value {
    match n
    case None => JNull
    case Some(k) => JNum(k)
  }

  /** The success answer of a withdrawal: the message with the formatted
      amount, the new balance and a transaction id from the clock. */
  function Withdrawn(shown: string, n: Number, now: int): (r: Reply)
    ensures r.status == 200 && Property(r.body, "newBalance") == Some(NumberJson(n))
    ensures Property(r.body, "success") == Some(JBool(true))
    ensures Property(r.body, "message") == Some(JStr("\U{20A6}" + shown + " withdrawn successfully"))
    ensures Property(r.body, "transactionId") == Some(JStr("WTH-" + IntToString(now)))
  {
    var ms := [Member("success", JBool(true)),
               Member("message", JStr("\U{20A6}" + shown + " withdrawn successfully")),
               Member("newBalance", NumberJson(n)),
               Member("transactionId", JStr("WTH-" + IntToString(now)))];
    LookupUnique(ms, 0, "success");
    LookupUnique(ms, 1, "message");
    LookupUnique(ms, 2, "newBalance");
    LookupUnique(ms, 3, "transactionId");
    Reply(200, JObj(ms))
  }

  /** `POST /api/wallet`: every failure is a 400 carrying the error's
      message. `body` is None when it does not parse (`parseError` is
      then the message); `format` is `toLocaleString`; `now` is
      `Date.now()`. */
  function Post(header: Option<string>, env: Option<string>, verify: Auth.Verify, body: Option<Value>,
                users: seq<User>, rides: seq<Ride>, now: int, format: Number -> string,
                parseError: string, queryError: string): (r: Reply)
    ensures r.status == 200 || r.status == 400
    ensures RequireAuth(header, env, verify).Err? ==> r == Http.Error(400, RequireAuth(header, env, verify).error)
    ensures RequireAuth(header, env, verify).Ok? && body.None? ==> r == Http.Error(400, parseError)
    ensures RequireAuth(header, env, verify).Ok? && body.Some? &&
            FindUser(RequireAuth(header, env, verify).value, users, queryError).Err? ==>
      r == Http.Error(400, FindUser(RequireAuth(header, env, verify).value, users, queryError).error)
    ensures RequireAuth(header, env, verify).Ok? && body.Some? &&
            FindUser(RequireAuth(header, env, verify).value, users, queryError).Ok? ==>
      var u := FindUser(RequireAuth(header, env, verify).value, users, queryError).value;
      (Property(body.value, "action") != Some(JStr("withdraw")) ==> r == Http.Error(400, InvalidAction)) &&
      (Property(body.value, "action") == Some(JStr("withdraw")) ==>
        match Withdraw(Amount(Property(body.value, "amount")), Earnings(rides, u.email))
        case Err(e) => r == Http.Error(400, e)
        case Ok(n) => r.status == 200 && Property(r.body, "newBalance") == Some(NumberJson(n)))
  {
    match RequireAuth(header, env, verify)
    case Err(e) => Http.Error(400, e)
    case Ok(sub) =>
      match body
      case None => Http.Error(400, parseError)
      case Some(b) =>
        match FindUser(sub, users, queryError)
        case Err(e) => Http.Error(400, e)
        case Ok(u) =>
          if Property(b, "action") != Some(JStr("withdraw")) then Http.Error(400, InvalidAction)
          else
            var amount := Amount(Property(b, "amount"));
            match Withdraw(amount, Earnings(rides, u.email))
            case Err(e) => Http.Error(400, e)
            case Ok(n) =>
              Withdrawn(format(amount), n, now)
  }

  /** A non-numeric amount slips through both checks: it is accepted and
      the reported balance is NaN. */
  lemma NonNumericAmountAccepted(balance: int)
    ensures Withdraw(Amount(Some(JStr("all"))), balance) == Ok(None)
  {
  }
}
