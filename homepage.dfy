/** The landing page's prototype request form: its fare estimate, when an
    estimate is shown, when a request may be made, and the local list of
    requests made. */
module HomePage {
  import opened Wrappers
  import opened Text

  /** The estimate for a total input length: 800 plus 25 per character,
      but never below 900. */
  function FareForLength(len: nat): (n: int)
    ensures n >= 900 && n % 25 == 0
    ensures len >= 4 ==> n == 800 + 25 * len
    ensures len < 4 ==> n == 900
  {
    if 800 + 25 * len < 900 then 900 else 800 + 25 * len
  }

  /** This page's `estimateFare`, lengths in UTF-16 units. */
  function EstimateFare(pickup: string, destination: string): (n: int)
    ensures n >= 900 && n % 25 == 0
  {
    FareForLength(JsLength(pickup) + JsLength(destination))
  }

  /** The shown `estimate`: nothing until both inputs hold something. */
  function Estimate(pickup: string, destination: string): (r: Option<int>)
    ensures r.Some? <==> pickup != "" && destination != ""
    ensures r.Some? ==> r.value == EstimateFare(pickup, destination)
  {
    if pickup == "" || destination == "" then None else Some(EstimateFare(pickup, destination))
  }

  /** `canRequest`: both trimmed inputs longer than two UTF-16 units. */
  predicate CanRequest(pickup: string, destination: string) {
    JsLength(Trim(pickup)) > 2 && JsLength(Trim(destination)) > 2
  }

  /** Whenever a request may be made an estimate is on show, and it is the
      estimate the request records. */
  lemma RequestableHasEstimate(pickup: string, destination: string)
    requires CanRequest(pickup, destination)
    ensures Estimate(pickup, destination) == Some(EstimateFare(pickup, destination))
  {
  }

  /** This page's own request record; its status is always REQUESTED. */
  datatype Request = Request(id: string, pickup: string, destination: string, estimate: int, createdAt: int)

  class HomeState {
    var pickup: string
    var destination: string
    var requests: seq<Request>

    constructor ()
      ensures pickup == "" && destination == "" && requests == []
    {
      pickup := "";
      destination := "";
      requests := [];
    }

    /** The Request Ride button: disabled unless `canRequest`; otherwise
        one request with the untrimmed inputs goes in front of the list. */
    method OnRequest(id: string, now: int)
      modifies this
      ensures pickup == old(pickup) && destination == old(destination)
      ensures CanRequest(pickup, destination) ==>
        requests == [Request(id, pickup, destination, EstimateFare(pickup, destination), now)] + old(requests)
      ensures !CanRequest(pickup, destination) ==> requests == old(requests)
    {
      if CanRequest(pickup, destination) {
        var est := EstimateFare(pickup, destination);
        requests := [Request(id, pickup, destination, est, now)] + requests;
      }
    }
  }
}
