/** The client dashboard's logic: the status label, the one active ride,
    the recent rides, the active counter, and the token guard of `load`. */
module Dashboard {
  import opened Wrappers
  import opened Seqs
  import opened Text
  import opened Rides

  /** `statusLabel`: the wire name with every `_` made a space. */
  function StatusLabel(s: Status): (r: string)
    ensures |r| == |StatusName(s)|
    ensures forall i :: 0 <= i < |r| ==> r[i] == (if StatusName(s)[i] == '_' then ' ' else StatusName(s)[i])
    ensures '_' !in r
  {
    ReplaceChar(StatusName(s), '_', ' ')
  }

  /** `rides.find(...)`: the first ride that is neither completed nor
      cancelled, if any. */
  function ActiveRide(rides: seq<Ride>): (r: Option<Ride>)
    ensures r.Some? ==> (exists i :: 0 <= i < |rides| && rides[i] == r.value &&
                           !IsTerminal(rides[i].status) &&
                           forall k :: 0 <= k < i ==> IsTerminal(rides[k].status))
    ensures r.None? ==> forall i :: 0 <= i < |rides| ==> IsTerminal(rides[i].status)
  {
    if rides == [] then None
    else if !IsTerminal(rides[0].status) then
      Some(rides[0])
    else
      var r := ActiveRide(rides[1..]);
      assert forall i :: 1 <= i < |rides| ==> rides[i] == rides[1..][i - 1];
      if r.Some? then
        var j :| 0 <= j < |rides[1..]| && rides[1..][j] == r.value &&
          !IsTerminal(rides[1..][j].status) &&
          forall k :: 0 <= k < j ==> IsTerminal(rides[1..][k].status);
        assert rides[j + 1] == r.value;
        assert forall k :: 0 <= k < j + 1 ==> IsTerminal(rides[k].status);
        r
      else r
  }

  /** `rides.slice(0, 12)` */
  function Recent(rides: seq<Ride>): (r: seq<Ride>)
    ensures |r| <= 12 && |r| <= |rides| && r == rides[..|r|]
    ensures |rides| >= 12 ==> |r| == 12
    ensures |rides| < 12 ==> r == rides
  {
    Take(rides, 12)
  }

  /** The ACTIVE counter. */
  function ActiveCounter(rides: seq<Ride>): string {
    if ActiveRide(rides).Some? then "1" else "0"
  }

  /** The counter shows "1" exactly when some ride is still under way. */
  lemma ActiveCounterIff(rides: seq<Ride>)
    ensures ActiveCounter(rides) == "1" <==> exists i :: 0 <= i < |rides| && !IsTerminal(rides[i].status)
    ensures ActiveCounter(rides) == "0" <==> !(exists i :: 0 <= i < |rides| && !IsTerminal(rides[i].status))
  {
  }

  const NotLoggedIn := "Not logged in. Please login."

  /** The dashboard's state; `token` is what the session held when the
      page rendered, `fetches` counts the `getRides` calls made. */
  class DashboardState {
    const token: string
    var rides: seq<Ride>
    var err: Option<string>
    var loading: bool
    var fetches: nat

    constructor (token: string)
      ensures this.token == token && rides == [] && err == None && loading && fetches == 0
    {
      this.token := token;
      rides := [];
      err := None;
      loading := true;
      fetches := 0;
    }

    /** `load`: without a token an error is shown and the list emptied,
        with no fetch; otherwise the rides are fetched; an error without a
        message, or with an empty one, shows the default text. */
    method Load(fetched: Fetch)
      modifies this
      ensures !loading
      ensures token == "" ==> err == Some(NotLoggedIn) && rides == [] && fetches == old(fetches)
      ensures token != "" ==> fetches == old(fetches) + 1
      ensures token != "" && fetched.Ok? ==> rides == fetched.value.GetOr([]) && err == None
      ensures token != "" && fetched.Err? ==>
        rides == old(rides) &&
        err == Some(if fetched.error.GetOr("") == "" then "Failed to load rides" else fetched.error.value)
    {
      err := None;
      loading := true;
      if token == "" {
        err := Some(NotLoggedIn);
        rides := [];
        loading := false;
        return;
      }
      fetches := fetches + 1;
      match fetched {
        case Ok(data) => rides := data.GetOr([]);
        case Err(message) =>
          var m := message.GetOr("");
          err := Some(if m == "" then "Failed to load rides" else m);
      }
      loading := false;
    }
  }
}
