/** The driver page's logic: the next status a driver can move a trip to,
    the status labels, the three ride lists the page shows, and the guards
    and state updates of loading, accepting and advancing a ride. The
    remote calls themselves are not part of the model: their outcomes are
    parameters, and the calls made are logged in `calls`. */
module DriverPage {
  import opened Wrappers
  import opened Seqs
  import opened Rides

  /** `nextStatus`: the status a driver moves an active trip to. */
  function NextStatus(s: Status): Option<Status> {
    match s
    case Accepted => Some(Arriving)
    case Arriving => Some(InProgress)
    case InProgress => Some(Completed)
    case _ => None
  }

  /** The lifecycle order of a ride that is not cancelled. */
  const Lifecycle: seq<Status> := [Requested, Accepted, Arriving, InProgress, Completed]

  /** `nextStatus` moves exactly one place forward along the lifecycle,
      and only from the three places a driver acts on (not from REQUESTED,
      which is accepted instead, nor from the end). */
  lemma NextStatusIsSuccessor(s: Status, t: Status)
    ensures NextStatus(s) == Some(t) <==>
      exists i :: 1 <= i <= 3 && Lifecycle[i] == s && Lifecycle[i + 1] == t
  {
    if NextStatus(s) == Some(t) {
      var i := if s == Accepted then 1 else if s == Arriving then 2 else 3;
      assert Lifecycle[i] == s && Lifecycle[i + 1] == t;
    }
  }

  /** Steps until `nextStatus` gives null. */
  function StepsToEnd(s: Status): (n: nat)
    ensures n <= 3
    ensures n == 0 <==> NextStatus(s).None?
    decreases match s case Accepted => 3 case Arriving => 2 case InProgress => 1 case _ => 0
  {
    match NextStatus(s)
    case None => 0
    case Some(t) => 1 + StepsToEnd(t)
  }

  /** `nextStatus` applied `n` times, stopping at null. */
  function Iterate(s: Status, n: nat): Option<Status>
    decreases n
  {
    if n == 0 then Some(s)
    else match NextStatus(s)
      case None => None
      case Some(t) => Iterate(t, n - 1)
  }

  /** From any status the chain of next statuses ends within three steps,
      and it never produces REQUESTED or CANCELLED along the way. */
  lemma {:induction false} ChainEnds(s: Status, n: nat)
    ensures n > StepsToEnd(s) ==> Iterate(s, n).None?
    ensures n > 0 && Iterate(s, n).Some? ==> Iterate(s, n).value != Requested && Iterate(s, n).value != Cancelled
    decreases n
  {
    if n > 0 {
      match NextStatus(s)
      case None =>
      case Some(t) =>
        ChainEnds(t, n - 1);
    }
  }

  /** `statusLabel` */
  function StatusLabel(s: Status): string {
    match s
    case Requested => "Requested"
    case Accepted => "Accepted"
    case Arriving => "Arriving"
    case InProgress => "In progress"
    case Completed => "Completed"
    case Cancelled => "Cancelled"
  }

  /** The six labels are distinct. */
  lemma StatusLabelInjective(a: Status, b: Status)
    ensures StatusLabel(a) == StatusLabel(b) <==> a == b
  {
  }

  predicate IsRequested(r: Ride) { r.status == Requested }
  predicate IsActive(r: Ride) { r.status != Requested && r.status != Completed && r.status != Cancelled }
  predicate IsCompleted(r: Ride) { r.status == Completed }
  predicate IsCancelled(r: Ride) { r.status == Cancelled }

  /** The `requested` list. */
  function RequestedRides(rides: seq<Ride>): seq<Ride> {
    Filter(rides, IsRequested)
  }

  /** The `active` list. */
  function ActiveRides(rides: seq<Ride>): seq<Ride> {
    Filter(rides, IsActive)
  }

  /** The `recentDone` list: the first ten completed rides. */
  function RecentDone(rides: seq<Ride>): (r: seq<Ride>)
    ensures |r| == if Count(rides, IsCompleted) < 10 then Count(rides, IsCompleted) else 10
    ensures forall i :: 0 <= i < |r| ==> r[i].status == Completed
    ensures IsSubsequence(r, rides)
    ensures |r| <= |Filter(rides, IsCompleted)| && r == Filter(rides, IsCompleted)[..|r|]
  {
    var done := Filter(rides, IsCompleted);
    FilterIsSubsequence(rides, IsCompleted);
    FilterLength(rides, IsCompleted);
    PrefixIsSubsequence(done, rides, |Take(done, 10)|);
    Take(done, 10)
  }

  /** No ride is both requested and active. */
  lemma RequestedActiveDisjoint(rides: seq<Ride>)
    ensures forall r :: r in RequestedRides(rides) ==> r !in ActiveRides(rides)
  {
  }

  /** Every ride is in exactly one of: requested, active, completed,
      cancelled; so the two lists and the finished rides add up to all of
      them. */
  lemma {:induction false} StatusPartition(rides: seq<Ride>)
    ensures |RequestedRides(rides)| + |ActiveRides(rides)| + Count(rides, IsCompleted) + Count(rides, IsCancelled) == |rides|
  {
    FilterLength(rides, IsRequested);
    FilterLength(rides, IsActive);
    CountPartition(rides);
  }

  lemma {:induction false} CountPartition(rides: seq<Ride>)
    ensures Count(rides, IsRequested) + Count(rides, IsActive) + Count(rides, IsCompleted) + Count(rides, IsCancelled) == |rides|
  {
    if rides != [] {
      CountPartition(rides[1..]);
    }
  }

  /** A remote call the page makes. */
  datatype Call = GetRides | AcceptRide(rideId: string, driverId: string) | SetStatus(rideId: string, status: Status)

  /** What an accept or status call does: resolve, or throw an error whose
      `message` may be missing. */
  type Outcome = Result<(), Option<string>>

  const LoginAsDriver := "You are not logged in. Please login as a DRIVER."
  const LoginAgain := "You are not logged in. Please login again."
  const NoDriverId := "Driver ID not found. Please login again (user data missing)."

  /** The page's state. */
  class DriverPageState {
    var token: string
    var driverId: string
    var rides: seq<Ride>
    var loading: bool
    var busyRideId: Option<string>
    var err: Option<string>
    var toast: Option<string>
    var location: Option<string>
    var calls: seq<Call>

    constructor (token: string, driverId: string)
      ensures this.token == token && this.driverId == driverId
      ensures rides == [] && loading && busyRideId == None && err == None
      ensures toast == None && location == None && calls == []
    {
      this.token := token;
      this.driverId := driverId;
      rides := [];
      loading := true;
      busyRideId := None;
      err := None;
      toast := None;
      location := None;
      calls := [];
    }

    /** `load(activeToken)`: without a token the list is emptied and an
        error shown, and nothing is fetched; otherwise the rides are
        fetched, and a non-array answer counts as no rides. */
    method Load(activeToken: Option<string>, fetched: Fetch)
      modifies this
      ensures !loading
      ensures token == old(token) && driverId == old(driverId) && busyRideId == old(busyRideId)
      ensures toast == old(toast) && location == old(location)
      ensures activeToken.GetOr(old(token)) == "" ==>
        rides == [] && err == Some(LoginAsDriver) && calls == old(calls)
      ensures activeToken.GetOr(old(token)) != "" ==> calls == old(calls) + [GetRides]
      ensures activeToken.GetOr(old(token)) != "" && fetched.Ok? ==>
        rides == fetched.value.GetOr([]) && err == None
      ensures activeToken.GetOr(old(token)) != "" && fetched.Err? ==>
        rides == old(rides) && err == Some(fetched.error.GetOr("Failed to load rides"))
    {
      err := None;
      loading := true;
      var t := activeToken.GetOr(token);
      if t == "" {
        rides := [];
        err := Some(LoginAsDriver);
        loading := false;
        return;
      }
      calls := calls + [GetRides];
      match fetched {
        case Ok(data) => rides := data.GetOr([]);
        case Err(message) => err := Some(message.GetOr("Failed to load rides"));
      }
      loading := false;
    }

    /** `onAccept(ride)`: refuses without a token, then without a driver
        id, making no call in either case; otherwise accepts the ride,
        reloads and moves to the ride's page, or shows the error. */
    method OnAccept(ride: Ride, accepted: Outcome, reloaded: Fetch)
      modifies this
      ensures token == old(token) && driverId == old(driverId)
      ensures token == "" ==>
        err == Some(LoginAgain) && calls == old(calls) && rides == old(rides) && busyRideId == old(busyRideId)
      ensures token != "" && driverId == "" ==>
        err == Some(NoDriverId) && calls == old(calls) && rides == old(rides) && busyRideId == old(busyRideId)
      ensures token != "" && driverId != "" ==>
        busyRideId == None &&
        |calls| > |old(calls)| && calls[..|old(calls)| + 1] == old(calls) + [AcceptRide(ride.id, driverId)]
      ensures token != "" && driverId != "" && accepted.Ok? ==>
        calls == old(calls) + [AcceptRide(ride.id, driverId), GetRides] &&
        toast == Some("Ride accepted \U{2705}") && location == Some("/ride/" + ride.id)
      ensures token != "" && driverId != "" && accepted.Ok? && reloaded.Ok? ==>
        rides == reloaded.value.GetOr([]) && err == None
      ensures token != "" && driverId != "" && accepted.Ok? && reloaded.Err? ==>
        rides == old(rides) && err == Some(reloaded.error.GetOr("Failed to load rides"))
      ensures token != "" && driverId != "" && accepted.Err? ==>
        calls == old(calls) + [AcceptRide(ride.id, driverId)] &&
        err == Some(accepted.error.GetOr("Failed to accept ride")) && rides == old(rides)
    {
      if token == "" {
        err := Some(LoginAgain);
        return;
      }
      if driverId == "" {
        err := Some(NoDriverId);
        return;
      }
      busyRideId := Some(ride.id);
      err := None;
      calls := calls + [AcceptRide(ride.id, driverId)];
      match accepted {
        case Ok(_) =>
          toast := Some("Ride accepted \U{2705}");
          Load(Some(token), reloaded);
          location := Some("/ride/" + ride.id);
        case Err(message) =>
          err := Some(message.GetOr("Failed to accept ride"));
      }
      busyRideId := None;
    }

    /** `onAdvanceStatus(ride)`: refuses without a token; does nothing at
        all for a ride with no next status; otherwise moves the ride one
        status forward, reloads, or shows the error. */
    method OnAdvanceStatus(ride: Ride, updated: Outcome, reloaded: Fetch)
      modifies this
      ensures token == old(token) && driverId == old(driverId)
      ensures token == "" ==>
        err == Some(LoginAgain) && calls == old(calls) && rides == old(rides) && busyRideId == old(busyRideId)
      ensures token != "" && NextStatus(ride.status).None? ==>
        err == old(err) && calls == old(calls) && rides == old(rides) && busyRideId == old(busyRideId) &&
        toast == old(toast) && loading == old(loading)
      ensures token != "" && NextStatus(ride.status).Some? && updated.Ok? ==>
        busyRideId == None &&
        calls == old(calls) + [SetStatus(ride.id, NextStatus(ride.status).value), GetRides] &&
        toast == Some("Status updated \U{2192} " + StatusLabel(NextStatus(ride.status).value) + " \U{2705}")
      ensures token != "" && NextStatus(ride.status).Some? && updated.Ok? && reloaded.Ok? ==>
        rides == reloaded.value.GetOr([]) && err == None
      ensures token != "" && NextStatus(ride.status).Some? && updated.Ok? && reloaded.Err? ==>
        rides == old(rides) && err == Some(reloaded.error.GetOr("Failed to load rides"))
      ensures token != "" && NextStatus(ride.status).Some? && updated.Err? ==>
        busyRideId == None &&
        calls == old(calls) + [SetStatus(ride.id, NextStatus(ride.status).value)] &&
        err == Some(updated.error.GetOr("Failed to update status")) && rides == old(rides)
    {
      if token == "" {
        err := Some(LoginAgain);
        return;
      }
      var ns := NextStatus(ride.status);
      if ns.None? {
        return;
      }
      busyRideId := Some(ride.id);
      err := None;
      calls := calls + [SetStatus(ride.id, ns.value)];
      match updated {
        case Ok(_) =>
          toast := Some("Status updated \U{2192} " + StatusLabel(ns.value) + " \U{2705}");
          Load(Some(token), reloaded);
        case Err(message) =>
          err := Some(message.GetOr("Failed to update status"));
      }
      busyRideId := None;
    }
  }
}
