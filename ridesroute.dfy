/** The rides collection route: `GET` lists the newest 50 rides, `POST`
    checks the body and stores a new REQUESTED ride. The ride table is a
    field of `RideTable`; the id and the creation time the database gives
    the row are parameters. */
module RidesRoute {
  import opened Wrappers
  import opened Seqs
  import opened Json
  import opened Rides
  import opened Http

  const Required := "pickup, destination, city, estimate are required"

  /** Newest first: creation times never increase along the list. */
  predicate NewestFirst(s: seq<Ride>) {
    forall i, j :: 0 <= i < j < |s| ==> s[i].createdAt >= s[j].createdAt
  }

  /** A ride no older than the head of a newest-first list may go in front. */
  lemma ConsNewest(x: Ride, t: seq<Ride>)
    requires NewestFirst(t) && (t != [] ==> x.createdAt >= t[0].createdAt)
    ensures NewestFirst([x] + t)
  {
    var r := [x] + t;
    forall i, j | 0 <= i < j < |r| ensures r[i].createdAt >= r[j].createdAt {
      if i == 0 {
        assert r[j] == t[j - 1];
        assert t[0].createdAt >= t[j - 1].createdAt;
      } else {
        assert r[i] == t[i - 1] && r[j] == t[j - 1];
      }
    }
  }

  /** `x` placed in a list before the first ride older than it. */
  function Insert(x: Ride, s: seq<Ride>): (r: seq<Ride>)
    ensures multiset(r) == multiset(s) + multiset{x} && |r| == |s| + 1
    ensures r[0] == x || (s != [] && r[0] == s[0])
  {
    if s == [] then [x]
    else if x.createdAt >= s[0].createdAt then [x] + s
    else
      assert s == [s[0]] + s[1..];
      [s[0]] + Insert(x, s[1..])
  }

  /** Inserting into a newest-first list keeps it newest first. */
  lemma {:induction false} InsertNewest(x: Ride, s: seq<Ride>)
    requires NewestFirst(s)
    ensures NewestFirst(Insert(x, s))
  {
    if s == [] {
    } else if x.createdAt >= s[0].createdAt {
      ConsNewest(x, s);
    } else {
      assert NewestFirst(s[1..]) by {
        forall i, j | 0 <= i < j < |s[1..]| ensures s[1..][i].createdAt >= s[1..][j].createdAt {
          assert s[1..][i] == s[i + 1] && s[1..][j] == s[j + 1];
        }
      }
      InsertNewest(x, s[1..]);
      var t := Insert(x, s[1..]);
      assert t[0].createdAt <= s[0].createdAt;
      ConsNewest(s[0], t);
    }
  }

  /** `orderBy: { createdAt: "desc" }` */
  function SortNewest(s: seq<Ride>): (r: seq<Ride>)
    ensures NewestFirst(r) && multiset(r) == multiset(s) && |r| == |s|
  {
    if s == [] then []
    else
      InsertNewest(s[0], SortNewest(s[1..]));
      assert s == [s[0]] + s[1..];
      Insert(s[0], SortNewest(s[1..]))
  }

  /** `findMany({ orderBy: { createdAt: "desc" }, take: 50 })` */
  function Latest(rides: seq<Ride>): seq<Ride> {
    Take(SortNewest(rides), 50)
  }

  /** At most 50 rides, newest first, all of them stored rides; all of
      them when there are no more than 50. */
  lemma LatestIsNewest(rides: seq<Ride>)
    ensures |Latest(rides)| == if |rides| < 50 then |rides| else 50
    ensures NewestFirst(Latest(rides))
    ensures multiset(Latest(rides)) <= multiset(rides)
    ensures |rides| <= 50 ==> multiset(Latest(rides)) == multiset(rides)
  {
    var sorted := SortNewest(rides);
    var r := Latest(rides);
    assert sorted == r + sorted[|r|..];
    assert multiset(rides) == multiset(r) + multiset(sorted[|r|..]);
  }

  /** No ride left out of the list is newer than the last one listed. */
  lemma LatestLeavesOutOlder(rides: seq<Ride>, x: Ride)
    requires x in multiset(rides) - multiset(Latest(rides))
    ensures |Latest(rides)| == 50 && x.createdAt <= Latest(rides)[49].createdAt
  {
    var sorted := SortNewest(rides);
    var r := Latest(rides);
    var rest := sorted[|r|..];
    assert sorted == r + rest;
    assert multiset(rides) == multiset(r) + multiset(rest);
    assert x in multiset(rest);
    var k :| 0 <= k < |rest| && rest[k] == x;
    assert sorted[|r| + k] == x;
  }

  /** A ride row as the routes answer it. */
  function RideJson(r: Ride): Value {
    JObj([Member("id", JStr(r.id)), Member("pickup", JStr(r.pickup)), Member("destination", JStr(r.destination)),
          Member("city", JStr(r.city)), Member("estimate", JNum(r.estimate)),
          Member("offeredPrice", match r.offeredPrice case None => JNull case Some(p) => JNum(p)),
          Member("status", JStr(StatusName(r.status))),
          Member("driverName", match r.driverName case None => JNull case Some(n) => JStr(n)),
          Member("createdAt", JNum(r.createdAt)), Member("updatedAt", JNum(r.updatedAt))])
  }

  /** The parsed body; a body that does not parse is taken as `{}`. */
  function Incoming(parsed: Option<Value>): Value {
    parsed.GetOr(JObj([]))
  }

  /** `!body.pickup || !body.destination || !body.city || !body.estimate` fails. */
  predicate HasRequired(body: Value) {
    Truthy(Property(body, "pickup")) && Truthy(Property(body, "destination")) &&
    Truthy(Property(body, "city")) && Truthy(Property(body, "estimate"))
  }

  /** `Number(body.estimate)` for a truthy estimate the store can hold: a
      number, or `true` (1). */
  function Estimate(v: Value): Option<int> {
    match v
    case JNum(n) => Some(n)
    case JBool(b) => if b then Some(1) else None
    case _ => None
  }

  /** The row `ride.create` is given, or None when the store rejects it
      (a text column given something other than a string, or an estimate
      it cannot hold). `offeredPrice` is kept only when it is a number. */
  function Record(body: Value, id: string, now: int): (r: Option<Ride>)
    requires HasRequired(body)
    ensures r.Some? ==> r.value.status == Requested && r.value.driverName.None?
    ensures r.Some? ==> r.value.id == id && r.value.createdAt == now && r.value.updatedAt == now
    ensures r.Some? ==>
      Property(body, "pickup") == Some(JStr(r.value.pickup)) &&
      Property(body, "destination") == Some(JStr(r.value.destination)) &&
      Property(body, "city") == Some(JStr(r.value.city))
    ensures r.Some? ==> Some(r.value.estimate) == Estimate(Property(body, "estimate").value)
    ensures r.Some? ==>
      r.value.offeredPrice == match Property(body, "offeredPrice") case Some(JNum(p)) => Some(p) case _ => None
  {
    match (Property(body, "pickup").value, Property(body, "destination").value, Property(body, "city").value)
    case (JStr(p), JStr(d), JStr(c)) =>
      (match Estimate(Property(body, "estimate").value)
       case None => None
       case Some(e) =>
         var offered := match Property(body, "offeredPrice") case Some(JNum(x)) => Some(x) case _ => None;
         Some(Ride(id, p, d, e, offered, Requested, None, now, now, c)))
    case _ => None
  }

  /** An estimate of 0 is refused, being falsy. */
  lemma ZeroEstimateRefused(body: Value)
    requires Property(body, "estimate") == Some(JNum(0))
    ensures !HasRequired(body)
  {
  }

  /** An unparsable body is refused. */
  lemma UnparsableRefused()
    ensures !HasRequired(Incoming(None))
  {
  }

  /** The ride table. */
  class RideTable {
    var rides: seq<Ride>

    constructor (rides: seq<Ride>)
      ensures this.rides == rides
    {
      this.rides := rides;
    }

    /** `GET /api/rides` */
    function Get(): (r: Reply)
      reads this
      ensures r.status == 200 && r.body.JArr? && |r.body.items| == |Latest(rides)|
      ensures forall k :: 0 <= k < |r.body.items| ==> r.body.items[k] == RideJson(Latest(rides)[k])
    {
      var latest := Latest(rides);
      Reply(200, JArr(seq(|latest|, k requires 0 <= k < |latest| => RideJson(latest[k]))))
    }

    /** `POST /api/rides`: a body without the four required fields is
        refused with 400 and stores nothing; otherwise the ride is stored
        and answered with 201, or the store rejects it and the handler
        fails (500): for a column of the wrong type, or when the insert
        itself fails (`insertFails`). A `null` body throws before the
        check. */
    method Post(parsed: Option<Value>, id: string, now: int, insertFails: bool) returns (reply: Reply)
      modifies this
      ensures Incoming(parsed) == JNull ==> reply == Unhandled && rides == old(rides)
      ensures Incoming(parsed) != JNull && !HasRequired(Incoming(parsed)) ==>
        reply == Http.Error(400, Required) && rides == old(rides)
      ensures Incoming(parsed) != JNull && HasRequired(Incoming(parsed)) && (Record(Incoming(parsed), id, now).None? || insertFails) ==>
        reply == Unhandled && rides == old(rides)
      ensures Incoming(parsed) != JNull && HasRequired(Incoming(parsed)) && Record(Incoming(parsed), id, now).Some? && !insertFails ==>
        rides == old(rides) + [Record(Incoming(parsed), id, now).value] &&
        reply == Reply(201, RideJson(Record(Incoming(parsed), id, now).value))
    {
      var body := Incoming(parsed);
      if body == JNull {
        return Unhandled;
      }
      if !HasRequired(body) {
        return Http.Error(400, Required);
      }
      var ride := Record(body, id, now);
      if ride.None? || insertFails {
        return Unhandled;
      }
      rides := rides + [ride.value];
      reply := Reply(201, RideJson(ride.value));
    }
  }
}
