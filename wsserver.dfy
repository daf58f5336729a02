/** The lazily created WebSocket server singleton: `ensureWSS` creates it
    once, greets every new connection, `broadcastWS` sends one serialised
    message to the OPEN clients inside a single `try`, and `wssCount`
    reports the number of clients. */
module WsServer {
  import opened Seqs
  import opened Json

  /** A socket's `readyState`: 0, 1, 2 and 3 in the WebSocket API. */
  datatype ReadyState = Connecting | Open | Closing | Closed

  /** A connected client. `sent` is every message handed to the socket so
      far; `failing` marks a socket whose `send` throws. */
  class Socket {
    var state: ReadyState
    var sent: seq<string>
    const failing: bool

    constructor (state: ReadyState, failing: bool)
      ensures this.state == state && sent == [] && this.failing == failing
    {
      this.state := state;
      sent := [];
      this.failing := failing;
    }

    /** `ws.send(data)`: on an open socket the message goes out (or the
        call throws, for a failing socket); on a connecting socket the call
        throws; on a closing or closed socket the message is dropped. */
    method Send(data: string) returns (threw: bool)
      modifies this
      ensures threw == (failing || old(state) == Connecting)
      ensures state == old(state)
      ensures sent == if old(state) == Open && !failing then old(sent) + [data] else old(sent)
    {
      threw := failing || state == Connecting;
      if state == Open && !failing {
        sent := sent + [data];
      }
    }
  }

  /** `{event: "connected", data: {time}}` */
  function Greeting(time: int): Value {
    JObj([Member("event", JStr("connected")), Member("data", JObj([Member("time", JNum(time))]))])
  }

  /** Index of the first OPEN client whose send throws, or the number of
      clients when there is none: the broadcast reaches no client after it. */
  function FirstFailing(cs: seq<Socket>): (n: nat)
    reads cs
    ensures n <= |cs|
    ensures forall k :: 0 <= k < n ==> !(cs[k].state == Open && cs[k].failing)
    ensures n < |cs| ==> cs[n].state == Open && cs[n].failing
  {
    if cs == [] then 0
    else if cs[0].state == Open && cs[0].failing then 0
    else 1 + FirstFailing(cs[1..])
  }

  /** The server: its client set in the order the library keeps it. */
  class Server {
    var clients: seq<Socket>

    constructor ()
      ensures clients == []
    {
      clients := [];
    }

    /** A new connection: the library adds the socket to `clients`, then the
        handler sends it the greeting, swallowing any error. */
    method Connect(ws: Socket, time: int)
      requires Distinct(clients) && ws !in clients
      modifies this, ws
      ensures Distinct(clients)
      ensures clients == old(clients) + [ws]
      ensures ws.state == old(ws.state)
      ensures ws.sent == if old(ws.state) == Open && !ws.failing then old(ws.sent) + [Stringify(Greeting(time))] else old(ws.sent)
    {
      clients := clients + [ws];
      var threw := ws.Send(Stringify(Greeting(time)));
    }
    /** `clients.forEach(c => { if (c.readyState === 1) c.send(data) })`
        inside a `try`: every OPEN client in order gets `data` until the
        first one whose send throws, which ends the loop. */
    method SendOpen(data: string)
      requires Distinct(clients)
      modifies Elements(clients)
      ensures forall k :: 0 <= k < |clients| ==>
        clients[k].state == old(clients[k].state) &&
        clients[k].sent == if k < old(FirstFailing(clients)) && old(clients[k].state) == Open
                           then old(clients[k].sent) + [data]
                           else old(clients[k].sent)
    {
      var cs := clients;
      ghost var stop := FirstFailing(cs);
      var i := 0;
      var stopped := false;
      while i < |cs| && !stopped
        invariant 0 <= i <= |cs|
        invariant stop == old(FirstFailing(clients))
        invariant if stopped then i == stop < |cs| else i <= stop
        invariant forall k :: 0 <= k < |cs| ==> cs[k].state == old(cs[k].state)
        invariant forall k :: 0 <= k < i ==>
          cs[k].sent == if old(cs[k].state) == Open then old(cs[k].sent) + [data] else old(cs[k].sent)
        invariant forall k :: i <= k < |cs| ==> cs[k].sent == old(cs[k].sent)
        decreases |cs| - i, if stopped then 0 else 1
      {
        if cs[i].state == Open {
          var threw := cs[i].Send(data);
          if threw {
            stopped := true;
          } else {
            i := i + 1;
          }
        } else {
          i := i + 1;
        }
      }
    }
  }

  /** The module-level `wss` variable. */
  class Hub {
    var wss: Server?

    ghost predicate Valid()
      reads this, wss
    {
      wss != null ==> Distinct(wss.clients)
    }

    constructor ()
      ensures wss == null && Valid()
    {
      wss := null;
    }

    /** `ensureWSS`: the existing server if there is one, otherwise a new
        one with no clients, which becomes the singleton. */
    method EnsureWSS() returns (s: Server)
      requires Valid()
      modifies this
      ensures Valid() && wss == s
      ensures old(wss) != null ==> s == old(wss) && s.clients == old(wss.clients)
      ensures old(wss) == null ==> fresh(s) && s.clients == []
    {
      if wss != null {
        return wss;
      }
      s := new Server();
      wss := s;
    }

    /** The connection handler installed by `ensureWSS`. */
    method OnConnection(ws: Socket, time: int)
      requires Valid() && wss != null && ws !in wss.clients
      modifies wss, ws
      ensures Valid() && wss == old(wss)
      ensures wss.clients == old(wss.clients) + [ws]
      ensures ws.sent == if old(ws.state) == Open && !ws.failing then old(ws.sent) + [Stringify(Greeting(time))] else old(ws.sent)
    {
      wss.Connect(ws, time);
    }

    /** `wssCount` */
    function Count(): (n: nat)
      requires Valid()
      reads this, wss
      ensures n == if wss == null then 0 else |Elements(wss.clients)|
    {
      if wss == null then 0
      else
        DistinctCard(wss.clients);
        |wss.clients|
    }

    /** `broadcastWS`: makes sure the server exists, serialises `msg` once,
        and sends it to every OPEN client in order. The one `try` wraps the
        whole loop, so the first OPEN client whose send throws ends the
        broadcast: the clients before it got the message, it and those
        after it did not, and the caller never sees the error. */
    method BroadcastWS(msg: Value)
      requires Valid()
      modifies this, if wss == null then {} else Elements(wss.clients)
      ensures Valid() && wss != null
      ensures old(wss) == null ==> fresh(wss) && wss.clients == []
      ensures old(wss) != null ==> wss == old(wss) && wss.clients == old(wss.clients)
      ensures old(wss) != null ==> forall k :: 0 <= k < |wss.clients| ==>
        wss.clients[k].state == old(wss.clients[k].state) &&
        wss.clients[k].sent == if k < old(FirstFailing(wss.clients)) && old(wss.clients[k].state) == Open
                               then old(wss.clients[k].sent) + [Stringify(msg)]
                               else old(wss.clients[k].sent)
    {
      var absent := wss == null;
      var s := EnsureWSS();
      if absent {
        return;
      }
      s.SendOpen(Stringify(msg));
    }
  }
}
