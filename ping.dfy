/** The driver-ping route: the body check, the default message, and the
    broadcast of the ping to every open socket client. */
module DriverPing {
  import opened Wrappers
  import opened Json
  import opened Http
  import opened Seqs
  import opened WsServer

  const Required := "driverId and rideId required"
  const DefaultMessage := "A rider requested you"

  /** The parsed body; a body that does not parse is taken as `{}`. */
  function Incoming(parsed: Option<Value>): Value {
    parsed.GetOr(JObj([]))
  }

  /** `body.message || "A rider requested you"` */
  function Message(body: Value): (m: Value)
    ensures Truthy(Property(body, "message")) ==> m == Property(body, "message").value
    ensures !Truthy(Property(body, "message")) ==> m == JStr(DefaultMessage)
  {
    if Truthy(Property(body, "message")) then Property(body, "message").value else JStr(DefaultMessage)
  }

  /** A missing or empty message is replaced by the default. */
  lemma EmptyMessageDefaults(body: Value)
    requires Property(body, "message").None? || Property(body, "message") == Some(JStr(""))
    ensures Message(body) == JStr(DefaultMessage)
  {
  }

  /** The check and the socket message
      `{ event: "driver-ping", data: { driverId, rideId, message } }`. A
      `null` body has no properties to read and throws. */
  function Ping(body: Value): (r: Result<Value, Reply>)
    ensures body == JNull ==> r == Err(Unhandled)
    ensures r.Ok? <==> body != JNull && Truthy(Property(body, "driverId")) && Truthy(Property(body, "rideId"))
    ensures body != JNull && r.Err? ==> r == Err(Http.Error(400, Required))
    ensures r.Ok? ==>
      Property(r.value, "event") == Some(JStr("driver-ping")) &&
      Property(r.value, "data").Some? &&
      Property(Property(r.value, "data").value, "driverId") == Property(body, "driverId") &&
      Property(Property(r.value, "data").value, "rideId") == Property(body, "rideId") &&
      Property(Property(r.value, "data").value, "message") == Some(Message(body))
  {
    if body == JNull then Err(Unhandled)
    else if !(Truthy(Property(body, "driverId")) && Truthy(Property(body, "rideId"))) then
      Err(Http.Error(400, Required))
    else
      var data := [Member("driverId", Property(body, "driverId").value), Member("rideId", Property(body, "rideId").value),
                   Member("message", Message(body))];
      LookupUnique(data, 0, "driverId");
      LookupUnique(data, 1, "rideId");
      LookupUnique(data, 2, "message");
      var ms := [Member("event", JStr("driver-ping")), Member("data", JObj(data))];
      LookupUnique(ms, 0, "event");
      LookupUnique(ms, 1, "data");
      Ok(JObj(ms))
  }

  /** `POST /api/drivers/ping`: a valid ping goes out through the socket
      broadcast, to every open client whatever driver it is, and is
      answered `{ ok: true }`; an invalid one is answered with its error
      and sends nothing. */
  method Post(hub: Hub, parsed: Option<Value>) returns (reply: Reply)
    requires hub.Valid()
    modifies hub, if hub.wss == null then {} else Elements(hub.wss.clients)
    ensures hub.Valid()
    ensures Ping(Incoming(parsed)).Err? ==>
      reply == Ping(Incoming(parsed)).error && hub.wss == old(hub.wss) &&
      (hub.wss != null ==>
         hub.wss.clients == old(hub.wss.clients) &&
         forall k :: 0 <= k < |hub.wss.clients| ==> hub.wss.clients[k].sent == old(hub.wss.clients[k].sent))
    ensures Ping(Incoming(parsed)).Ok? ==>
      reply == Http.Ok && hub.wss != null &&
      (old(hub.wss) != null ==>
         hub.wss == old(hub.wss) && hub.wss.clients == old(hub.wss.clients) &&
         forall k :: 0 <= k < |hub.wss.clients| ==>
           hub.wss.clients[k].sent == if k < old(FirstFailing(hub.wss.clients)) && old(hub.wss.clients[k].state) == Open
                                      then old(hub.wss.clients[k].sent) + [Stringify(Ping(Incoming(parsed)).value)]
                                      else old(hub.wss.clients[k].sent))
  {
    var ping := Ping(Incoming(parsed));
    if ping.Err? {
      return ping.error;
    }
    hub.BroadcastWS(ping.value);
    reply := Http.Ok;
  }
}
