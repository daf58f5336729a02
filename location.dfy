/** The driver-location route: the body check, the location payload, and
    its broadcast on the driver channel only. */
module DriverLocation {
  import opened Wrappers
  import opened Json
  import opened Http
  import opened Sse
  import opened EventBus

  const Required := "id, lat, lng required"

  /** The parsed body; a body that does not parse is taken as `{}`. */
  function Incoming(parsed: Option<Value>): Value {
    parsed.GetOr(JObj([]))
  }

  predicate IsNumber(v: Option<Value>) {
    v.Some? && v.value.JNum?
  }

  /** The check and the payload `{ id, lat, lng, available, ts }`, with
      `available` made a boolean by truthiness. A `null` body has no
      properties to read and throws. */
  function Payload(body: Value, now: int): (r: Result<Value, Reply>)
    ensures body == JNull ==> r == Err(Unhandled)
    ensures body != JNull && !(Truthy(Property(body, "id")) && IsNumber(Property(body, "lat")) && IsNumber(Property(body, "lng"))) ==>
      r == Err(Http.Error(400, Required))
    ensures r.Ok? <==> body != JNull && Truthy(Property(body, "id")) && IsNumber(Property(body, "lat")) && IsNumber(Property(body, "lng"))
    ensures r.Ok? ==>
      Property(r.value, "id") == Property(body, "id") &&
      Property(r.value, "lat") == Property(body, "lat") &&
      Property(r.value, "lng") == Property(body, "lng") &&
      Property(r.value, "available") == Some(JBool(Truthy(Property(body, "available")))) &&
      Property(r.value, "ts") == Some(JNum(now))
  {
    if body == JNull then Err(Unhandled)
    else if !(Truthy(Property(body, "id")) && IsNumber(Property(body, "lat")) && IsNumber(Property(body, "lng"))) then
      Err(Http.Error(400, Required))
    else
      Ok(Report(Property(body, "id").value, Property(body, "lat").value, Property(body, "lng").value,
                Truthy(Property(body, "available")), now))
  }

  /** `{ id, lat, lng, available, ts }` */
  function Report(id: Value, lat: Value, lng: Value, available: bool, now: int): (v: Value)
    ensures Property(v, "id") == Some(id) && Property(v, "lat") == Some(lat) && Property(v, "lng") == Some(lng)
    ensures Property(v, "available") == Some(JBool(available)) && Property(v, "ts") == Some(JNum(now))
  {
    var ms := [Member("id", id), Member("lat", lat), Member("lng", lng),
               Member("available", JBool(available)), Member("ts", JNum(now))];
    LookupUnique(ms, 0, "id");
    LookupUnique(ms, 1, "lat");
    LookupUnique(ms, 2, "lng");
    LookupUnique(ms, 3, "available");
    LookupUnique(ms, 4, "ts");
    JObj(ms)
  }

  /** A missing `available` is false. */
  lemma MissingAvailableIsFalse(body: Value, now: int)
    requires Payload(body, now).Ok? && Property(body, "available").None?
    ensures Property(Payload(body, now).value, "available") == Some(JBool(false))
  {
  }

  /** `POST /api/drivers/location`: a valid report is broadcast as one
      `driver-location` event to the driver channel's subscribers and
      answered `{ ok: true }`; the ride channel's subscribers get nothing.
      An invalid one is answered with its error and broadcasts nothing. */
  method Post(ch: Channels, parsed: Option<Value>, now: int) returns (reply: Reply)
    requires ch.Valid()
    modifies ch.drivers.clients
    ensures ch.Valid()
    ensures ch.rides.clients == old(ch.rides.clients) && ch.drivers.clients == old(ch.drivers.clients)
    ensures forall s :: s in ch.rides.clients ==> s.chunks == old(s.chunks) && s.closed == old(s.closed)
    ensures Payload(Incoming(parsed), now).Err? ==>
      reply == Payload(Incoming(parsed), now).error &&
      forall s :: s in ch.drivers.clients ==> s.chunks == old(s.chunks)
    ensures Payload(Incoming(parsed), now).Ok? ==>
      reply == Http.Ok &&
      forall s :: s in ch.drivers.clients ==>
        s.chunks == if old(s.Accepts()) then old(s.chunks) + [Frame("driver-location", Stringify(Payload(Incoming(parsed), now).value))]
                    else old(s.chunks)
  {
    var payload := Payload(Incoming(parsed), now);
    if payload.Err? {
      return payload.error;
    }
    ch.BroadcastDrivers("driver-location", payload.value);
    reply := Http.Ok;
  }
}
