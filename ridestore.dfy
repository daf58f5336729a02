/** The browser-side ride list: a defensive load from local storage, a
    save, the flat fare estimate, and the create / patch / set-status
    operations, each a read-modify-write of the stored list. */
module RideStore {
  import opened Wrappers
  import opened Text
  import opened Rides

  /** What `localStorage.getItem` followed by `JSON.parse` finds under the
      ride-list key: nothing, an empty string, text that does not parse,
      a parsed value that is not an array, or an array of rides. */
  datatype Slot = Missing | Blank | Unparsable | NotAnArray | Stored(rides: seq<Ride>)

  /** The estimate for a total input length: 900 plus 25 per character,
      but never below 1200. */
  function FareForLength(len: nat): (n: int)
    ensures n >= 1200 && n % 25 == 0
    ensures n >= 900 + 25 * len
    ensures n == 1200 || n == 900 + 25 * len
  {
    if 900 + 25 * len < 1200 then 1200 else 900 + 25 * len
  }

  /** `estimateFare(pickup, destination)`, lengths in UTF-16 units. */
  function EstimateFare(pickup: string, destination: string): (n: int)
    ensures n >= 1200 && n % 25 == 0
    ensures n >= 900 + 25 * (JsLength(pickup) + JsLength(destination))
  {
    FareForLength(JsLength(pickup) + JsLength(destination))
  }

  /** The estimate is the 1200 floor exactly up to 12 characters, and grows
      by 25 per character after that. */
  lemma FareFloor(len: nat)
    ensures FareForLength(len) == 1200 <==> len <= 12
    ensures len >= 12 ==> FareForLength(len) == 900 + 25 * len
  {
  }

  /** More input never lowers the estimate. */
  lemma FareMonotone(a: nat, b: nat)
    requires a <= b
    ensures FareForLength(a) <= FareForLength(b)
  {
  }

  /** The input of `createRide`. */
  datatype RideInput = RideInput(pickup: string, destination: string, offeredPrice: Option<int>)

  /** The ride `createRide` builds, with `id` standing for the random UUID
      and `now` for the current time. */
  function NewRide(input: RideInput, id: string, now: int): (r: Ride)
    ensures r.id == id && r.status == Requested && r.city == City
    ensures r.createdAt == now && r.updatedAt == now
    ensures r.pickup == Trim(input.pickup) && r.destination == Trim(input.destination)
    ensures r.estimate == EstimateFare(input.pickup, input.destination)
    ensures r.offeredPrice == input.offeredPrice && r.driverName == None
  {
    Ride(id, Trim(input.pickup), Trim(input.destination), EstimateFare(input.pickup, input.destination),
         input.offeredPrice, Requested, None, now, now, City)
  }

  /** The estimate is taken from the untrimmed input, so surrounding white
      space can only raise it above the estimate of the stored text. */
  lemma NewRideEstimateUntrimmed(input: RideInput, id: string, now: int)
    ensures var r := NewRide(input, id, now);
      EstimateFare(r.pickup, r.destination) <= r.estimate
  {
    TrimShortens(input.pickup);
    TrimShortens(input.destination);
    FareMonotone(JsLength(Trim(input.pickup)) + JsLength(Trim(input.destination)),
                 JsLength(input.pickup) + JsLength(input.destination));
  }

  /** A `Partial<RideRequest>`: a field is overwritten when present. For
      the optional fields `Some(None)` is a key present with value
      `undefined`. `updatedAt` is left out: the update always overwrites it. */
  datatype Patch = Patch(
    id: Option<string>,
    pickup: Option<string>,
    destination: Option<string>,
    estimate: Option<int>,
    offeredPrice: Option<Option<int>>,
    status: Option<Status>,
    driverName: Option<Option<string>>,
    createdAt: Option<int>,
    city: Option<string>)

  /** `{ status }` */
  function StatusPatch(s: Status): Patch {
    Patch(None, None, None, None, None, Some(s), None, None, None)
  }

  /** `{ ...r, ...patch, updatedAt: now }` */
  function Apply(r: Ride, p: Patch, now: int): (q: Ride)
    ensures q.updatedAt == now
    ensures q.id == p.id.GetOr(r.id) && q.pickup == p.pickup.GetOr(r.pickup)
    ensures q.destination == p.destination.GetOr(r.destination)
    ensures q.estimate == p.estimate.GetOr(r.estimate)
    ensures q.offeredPrice == p.offeredPrice.GetOr(r.offeredPrice)
    ensures q.status == p.status.GetOr(r.status)
    ensures q.driverName == p.driverName.GetOr(r.driverName)
    ensures q.createdAt == p.createdAt.GetOr(r.createdAt) && q.city == p.city.GetOr(r.city)
  {
    Ride(p.id.GetOr(r.id), p.pickup.GetOr(r.pickup), p.destination.GetOr(r.destination),
         p.estimate.GetOr(r.estimate), p.offeredPrice.GetOr(r.offeredPrice),
         p.status.GetOr(r.status), p.driverName.GetOr(r.driverName),
         p.createdAt.GetOr(r.createdAt), now, p.city.GetOr(r.city))
  }

  /** The `rides.map` of `updateRide`: every ride with the target id gets
      the patch, every other ride is kept as it is, in place. */
  function UpdateList(rides: seq<Ride>, rideId: string, p: Patch, now: int): (r: seq<Ride>)
    ensures |r| == |rides|
    ensures forall i :: 0 <= i < |rides| ==>
      r[i] == if rides[i].id == rideId then Apply(rides[i], p, now) else rides[i]
  {
    if rides == [] then []
    else [if rides[0].id == rideId then Apply(rides[0], p, now) else rides[0]]
         + UpdateList(rides[1..], rideId, p, now)
  }

  /** A status change writes the new status over whatever status the ride
      had (there is no transition check) and changes nothing else but the
      update time. */
  lemma SetStatusOverwrites(rides: seq<Ride>, rideId: string, s: Status, now: int)
    ensures var r := UpdateList(rides, rideId, StatusPatch(s), now);
      |r| == |rides| &&
      forall i :: 0 <= i < |rides| && rides[i].id == rideId ==>
        r[i] == rides[i].(status := s, updatedAt := now)
  {
  }

  /** Patching by id with a patch that leaves `id` alone keeps every id,
      so the list still holds the same rides by identity, in order. */
  lemma UpdateKeepsIds(rides: seq<Ride>, rideId: string, p: Patch, now: int)
    requires p.id.None?
    ensures var r := UpdateList(rides, rideId, p, now);
      forall i :: 0 <= i < |rides| ==> r[i].id == rides[i].id
  {
  }

  /** Applying the same patch twice at the same time is applying it once,
      as long as the patch keeps the target id. */
  lemma UpdateIdempotent(rides: seq<Ride>, rideId: string, p: Patch, now: int)
    requires p.id.None? || p.id == Some(rideId)
    ensures UpdateList(UpdateList(rides, rideId, p, now), rideId, p, now) == UpdateList(rides, rideId, p, now)
  {
    var once := UpdateList(rides, rideId, p, now);
    var twice := UpdateList(once, rideId, p, now);
    forall i | 0 <= i < |rides| ensures twice[i] == once[i] {
      if rides[i].id == rideId {
        assert once[i] == Apply(rides[i], p, now);
      }
    }
  }

  /** The store, with `hasWindow` telling a browser from the server. */
  class LocalRideStore {
    const hasWindow: bool
    var slot: Slot

    constructor (hasWindow: bool, slot: Slot)
      ensures this.hasWindow == hasWindow && this.slot == slot
    {
      this.hasWindow := hasWindow;
      this.slot := slot;
    }

    /** `loadRides`: the stored array, or an empty list when there is no
        window, nothing stored, an empty string, unparsable text, or a
        value that is not an array. */
    function LoadRides(): (r: seq<Ride>)
      reads this
      ensures !hasWindow ==> r == []
      ensures !slot.Stored? ==> r == []
      ensures hasWindow && slot.Stored? ==> r == slot.rides
    {
      if !hasWindow then []
      else match slot
        case Stored(rides) => rides
        case _ => []
    }

    /** `saveRides`: what is saved is what the next load returns; without a
        window nothing happens. */
    method SaveRides(rides: seq<Ride>)
      modifies this
      ensures hasWindow ==> slot == Stored(rides) && LoadRides() == rides
      ensures !hasWindow ==> slot == old(slot)
    {
      if hasWindow {
        slot := Stored(rides);
      }
    }

    /** `createRide`: the new ride goes in front of the loaded list. */
    method CreateRide(input: RideInput, id: string, now: int) returns (ride: Ride)
      modifies this
      ensures ride == NewRide(input, id, now)
      ensures hasWindow ==> LoadRides() == [ride] + old(LoadRides())
      ensures !hasWindow ==> slot == old(slot)
    {
      ride := NewRide(input, id, now);
      var rides := LoadRides();
      SaveRides([ride] + rides);
    }

    /** `updateRide` */
    method UpdateRide(rideId: string, p: Patch, now: int)
      modifies this
      ensures hasWindow ==> LoadRides() == UpdateList(old(LoadRides()), rideId, p, now)
      ensures !hasWindow ==> slot == old(slot)
    {
      var rides := LoadRides();
      SaveRides(UpdateList(rides, rideId, p, now));
    }

    /** `setRideStatus` */
    method SetRideStatus(rideId: string, s: Status, now: int)
      modifies this
      ensures hasWindow ==> LoadRides() == UpdateList(old(LoadRides()), rideId, StatusPatch(s), now)
      ensures !hasWindow ==> slot == old(slot)
    {
      UpdateRide(rideId, StatusPatch(s), now);
    }
  }
}
