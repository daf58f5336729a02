/** The shared ride vocabulary: the six ride statuses and the ride record
    every page and store passes around. */
module Rides {
  import opened Wrappers

  datatype Status = Requested | Accepted | Arriving | InProgress | Completed | Cancelled

  /** The wire name of a status. */
  function StatusName(s: Status): (r: string)
    ensures r != []
  {
    match s
    case Requested => "REQUESTED"
    case Accepted => "ACCEPTED"
    case Arriving => "ARRIVING"
    case InProgress => "IN_PROGRESS"
    case Completed => "COMPLETED"
    case Cancelled => "CANCELLED"
  }

  /** Reading a wire name back; the inverse of StatusName. */
  function ParseStatus(name: string): (r: Option<Status>)
    ensures r.Some? ==> StatusName(r.value) == name
  {
    if name == "REQUESTED" then Some(Requested)
    else if name == "ACCEPTED" then Some(Accepted)
    else if name == "ARRIVING" then Some(Arriving)
    else if name == "IN_PROGRESS" then Some(InProgress)
    else if name == "COMPLETED" then Some(Completed)
    else if name == "CANCELLED" then Some(Cancelled)
    else None
  }

  /** The wire names are distinct, so a status survives the trip to text. */
  lemma StatusNameRoundTrip(s: Status)
    ensures ParseStatus(StatusName(s)) == Some(s)
  {
  }

  /** A finished ride: one no driver can act on any more. */
  predicate IsTerminal(s: Status) {
    s == Completed || s == Cancelled
  }

  /** The only city the service runs in. */
  const City: string := "Ijebu-Ode"

  /** A ride request. Times are instants (milliseconds since the epoch);
      prices are whole naira. */
  datatype Ride = Ride(
    id: string,
    pickup: string,
    destination: string,
    estimate: int,
    offeredPrice: Option<int>,
    status: Status,
    driverName: Option<string>,
    createdAt: int,
    updatedAt: int,
    city: string)

  /** What the pages' `getRides` call gives: an array of rides, `None` for
      any answer that is not an array, or the `message` (possibly missing)
      of the error it throws. */
  type Fetch = Result<Option<seq<Ride>>, Option<string>>
}
