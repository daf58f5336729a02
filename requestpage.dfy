/** The request page's logic: the route-based estimate, the validation and
    payload of a submitted request, and the recent-rides slice. The ride
    API is not part of the model: its outcomes are parameters and the
    calls made are logged in `calls`. */
module RequestPage {
  import opened Wrappers
  import opened Seqs
  import opened Text
  import opened Rides

  /** `Math.round` on a real number: the nearest integer, halves upward. */
  function JsRound(x: real): (n: int)
    ensures n as real - 0.5 <= x < n as real + 0.5
  {
    (x + 0.5).Floor
  }

  lemma JsRoundInteger(k: int)
    ensures JsRound(k as real) == k
  {
  }

  /** The text length the estimate uses: both trimmed inputs in UTF-16
      units, with 0 replaced by 1. */
  function RouteLength(pickup: string, destination: string): (len: nat)
    ensures len >= 1
    ensures JsLength(Trim(pickup)) + JsLength(Trim(destination)) > 0 ==>
      len == JsLength(Trim(pickup)) + JsLength(Trim(destination))
  {
    var l := JsLength(Trim(pickup)) + JsLength(Trim(destination));
    if l == 0 then 1 else l
  }

  /** The fare before rounding: 800 plus 18 per character, the per-character
      part capped at 1200. */
  function RouteTotal(pickup: string, destination: string): (total: int)
    ensures 818 <= total <= 2000
  {
    var len := RouteLength(pickup, destination);
    JsRoundInteger(len * 18);
    var complexity := if 1200 < JsRound((len * 18) as real) then 1200 else JsRound((len * 18) as real);
    800 + complexity
  }

  /** `Math.round(total / 25) * 25` */
  function RoundTo25(total: int): int {
    JsRound(total as real / 25.0) * 25
  }

  /** `estimateFromRoute` */
  function EstimateFromRoute(pickup: string, destination: string): int {
    RoundTo25(RouteTotal(pickup, destination))
  }

  /** Rounding gives the multiple of 25 nearest to the total (halves
      upward), so it is never more than 12 away. */
  lemma RoundTo25Nearest(total: int)
    ensures RoundTo25(total) % 25 == 0
    ensures -12 <= RoundTo25(total) - total <= 12
    ensures forall m :: m % 25 == 0 ==>
      (RoundTo25(total) - total) * (RoundTo25(total) - total) <= (m - total) * (m - total)
  {
    var q := JsRound(total as real / 25.0);
    var r := q * 25;
    assert q as real - 0.5 <= total as real / 25.0 < q as real + 0.5;
    assert (q as real - 0.5) * 25.0 <= total as real < (q as real + 0.5) * 25.0;
    assert r as real - 12.5 <= total as real < r as real + 12.5;
    assert -12 <= r - total <= 12;
    forall m | m % 25 == 0
      ensures (r - total) * (r - total) <= (m - total) * (m - total)
    {
      var j := m / 25;
      assert m == j * 25;
      if j > q {
        assert m - total >= 13;
      } else if j < q {
        assert m - total <= -13;
      }
    }
  }

  /** The estimate is a multiple of 25 between 825 and 2000, and within 12
      of the unrounded fare. */
  lemma EstimateBounds(pickup: string, destination: string)
    ensures EstimateFromRoute(pickup, destination) % 25 == 0
    ensures 825 <= EstimateFromRoute(pickup, destination) <= 2000
    ensures -12 <= EstimateFromRoute(pickup, destination) - RouteTotal(pickup, destination) <= 12
  {
    var total := RouteTotal(pickup, destination);
    RoundTo25Nearest(total);
  }

  /** What `createRide` is called with. */
  datatype CreatePayload = CreatePayload(pickup: string, destination: string, estimate: int, city: string)

  /** A remote call the page makes. */
  datatype Call = GetRides | CreateRide(payload: CreatePayload)

  /** The payload of a submission: the trimmed inputs, the estimate of the
      inputs as typed, and the city. */
  function Payload(pickup: string, destination: string): (p: CreatePayload)
    ensures p.pickup == Trim(pickup) && p.destination == Trim(destination)
    ensures p.estimate == EstimateFromRoute(pickup, destination) && p.city == City
  {
    CreatePayload(Trim(pickup), Trim(destination), EstimateFromRoute(pickup, destination), City)
  }

  /** `rides.slice(0, 10)` */
  function Recent(rides: seq<Ride>): (r: seq<Ride>)
    ensures |r| <= 10 && |r| <= |rides| && r == rides[..|r|]
    ensures |rides| < 10 ==> r == rides
    ensures |rides| >= 10 ==> |r| == 10
  {
    Take(rides, 10)
  }

  const Required := "Pickup and destination are required."

  class RequestPageState {
    var pickup: string
    var destination: string
    var rides: seq<Ride>
    var loading: bool
    var busy: bool
    var err: Option<string>
    var toast: Option<string>
    var location: Option<string>
    var calls: seq<Call>

    constructor ()
      ensures pickup == "" && destination == "" && rides == [] && loading && !busy
      ensures err == None && toast == None && location == None && calls == []
    {
      pickup := "";
      destination := "";
      rides := [];
      loading := true;
      busy := false;
      err := None;
      toast := None;
      location := None;
      calls := [];
    }

    /** `load` */
    method Load(fetched: Fetch)
      modifies this
      ensures !loading && calls == old(calls) + [GetRides]
      ensures pickup == old(pickup) && destination == old(destination) && busy == old(busy)
      ensures toast == old(toast) && location == old(location)
      ensures fetched.Ok? ==> rides == fetched.value.GetOr([]) && err == None
      ensures fetched.Err? ==> rides == old(rides) && err == Some(fetched.error.GetOr("Failed to load rides"))
    {
      err := None;
      loading := true;
      calls := calls + [GetRides];
      match fetched {
        case Ok(data) => rides := data.GetOr([]);
        case Err(message) => err := Some(message.GetOr("Failed to load rides"));
      }
      loading := false;
    }

    /** `onSubmit`: an empty trimmed field is refused with no call;
        otherwise the ride is requested with the trimmed fields, and on
        success the form is cleared, the list reloaded and the page moves
        to the new ride. `created` is the new ride's id or the error. */
    method OnSubmit(created: Result<string, Option<string>>, reloaded: Fetch)
      modifies this
      ensures Payload(old(pickup), old(destination)).pickup == "" || Payload(old(pickup), old(destination)).destination == "" ==>
        err == Some(Required) && calls == old(calls) &&
        pickup == old(pickup) && destination == old(destination) && busy == old(busy)
      ensures Payload(old(pickup), old(destination)).pickup != "" && Payload(old(pickup), old(destination)).destination != "" ==>
        !busy && |calls| > |old(calls)| &&
        calls[..|old(calls)| + 1] == old(calls) + [CreateRide(Payload(old(pickup), old(destination)))] &&
        (created.Ok? ==> calls == old(calls) + [CreateRide(Payload(old(pickup), old(destination))), GetRides] &&
                         pickup == "" && destination == "" && location == Some("/ride/" + created.value) &&
                         toast == Some("Request sent \U{2705} Waiting for driver\U{2026}")) &&
        (created.Err? ==> calls == old(calls) + [CreateRide(Payload(old(pickup), old(destination)))] &&
                          err == Some(created.error.GetOr("Failed to create ride")) &&
                          pickup == old(pickup) && destination == old(destination))
    {
      err := None;
      var payload := Payload(pickup, destination);
      if payload.pickup == "" || payload.destination == "" {
        err := Some(Required);
        return;
      }
      Send(payload, created, reloaded);
    }

    /** The part of `onSubmit` after validation. */
    method Send(payload: CreatePayload, created: Result<string, Option<string>>, reloaded: Fetch)
      modifies this
      ensures !busy && |calls| > |old(calls)| && calls[..|old(calls)| + 1] == old(calls) + [CreateRide(payload)]
      ensures created.Ok? ==>
        calls == old(calls) + [CreateRide(payload), GetRides] &&
        pickup == "" && destination == "" && location == Some("/ride/" + created.value) &&
        toast == Some("Request sent \U{2705} Waiting for driver\U{2026}")
      ensures created.Err? ==>
        calls == old(calls) + [CreateRide(payload)] &&
        err == Some(created.error.GetOr("Failed to create ride")) &&
        pickup == old(pickup) && destination == old(destination)
    {
      busy := true;
      calls := calls + [CreateRide(payload)];
      match created {
        case Ok(id) =>
          pickup := "";
          destination := "";
          toast := Some("Request sent \U{2705} Waiting for driver\U{2026}");
          Load(reloaded);
          location := Some("/ride/" + id);
        case Err(message) =>
          err := Some(message.GetOr("Failed to create ride"));
      }
      busy := false;
    }
  }
}
