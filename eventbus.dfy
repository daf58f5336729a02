/** The in-process fan-out behind the two server-sent-event channels: a set
    of send callbacks, a framed broadcast that gives every registered
    callback its own error boundary, and the set's size. The ride channel
    and the driver channel are two instances of the one Bus class. */
module EventBus {
  import opened Seqs
  import opened Json
  import opened Sse

  /** A registered send callback together with the stream it feeds.
      `chunks` is what has been enqueued on the stream so far; `closed`
      says the stream's controller has been closed; `raises` marks a
      callback that throws whenever it is called. */
  class Subscriber {
    var chunks: seq<string>
    var closed: bool
    const raises: bool

    constructor (initial: seq<string>, raises: bool)
      ensures chunks == initial && !closed && this.raises == raises
    {
      chunks := initial;
      closed := false;
      this.raises := raises;
    }

    /** Whether a payload handed to this callback reaches the stream. */
    predicate Accepts()
      reads this
    {
      !raises && !closed
    }

    /** Calling the callback: an enqueue on an open stream appends the
        payload; an enqueue on a closed stream fails inside the callback
        and is ignored there; a raising callback throws to its caller. */
    method Send(payload: string) returns (threw: bool)
      modifies this
      ensures threw == raises
      ensures closed == old(closed)
      ensures chunks == if old(Accepts()) then old(chunks) + [payload] else old(chunks)
    {
      threw := raises;
      if !raises && !closed {
        chunks := chunks + [payload];
      }
    }

    /** `controller.close()`, with the error of a second close ignored. */
    method Close()
      modifies this
      ensures closed && chunks == old(chunks)
    {
      closed := true;
    }
  }

  /** One channel: the registered callbacks in insertion order, which is the
      order a JavaScript `Set` iterates in. */
  class Bus {
    var clients: seq<Subscriber>

    ghost predicate Valid()
      reads this
    {
      Distinct(clients)
    }

    constructor ()
      ensures Valid() && clients == []
    {
      clients := [];
    }

    /** `clients.add(send)`: a callback already present changes nothing. */
    method Add(s: Subscriber)
      requires Valid()
      modifies this
      ensures Valid()
      ensures clients == if s in old(clients) then old(clients) else old(clients) + [s]
      ensures Elements(clients) == Elements(old(clients)) + {s}
    {
      if s !in clients {
        clients := clients + [s];
        assert Elements(clients) == Elements(old(clients)) + {s};
      }
    }

    /** `clients.delete(send)`: only that callback goes; removing one that is
        absent changes nothing. */
    method Remove(s: Subscriber)
      requires Valid()
      modifies this
      ensures Valid()
      ensures clients == Without(old(clients), s)
      ensures Elements(clients) == Elements(old(clients)) - {s}
    {
      WithoutDistinct(clients, s);
      clients := Without(clients, s);
    }

    /** `clients.size` */
    function Count(): (n: nat)
      requires Valid()
      reads this
      ensures n == |Elements(clients)|
    {
      DistinctCard(clients);
      |clients|
    }

    /** The broadcast: frames `data` once as `event: <name>`, `data: <json>`
        and a blank line, then hands that payload to every callback
        registered when the broadcast starts, each inside its own `try`.
        Every accepting subscriber gets exactly one copy, one that throws
        stops nobody else, and nothing escapes to the caller. */
    method Broadcast(name: string, data: Value)
      requires Valid()
      modifies clients
      ensures clients == old(clients)
      ensures forall s :: s in clients ==> s.closed == old(s.closed)
      ensures forall s :: s in clients ==>
        s.chunks == if old(s.Accepts()) then old(s.chunks) + [Frame(name, Stringify(data))] else old(s.chunks)
    {
      var payload := Frame(name, Stringify(data));
      var snapshot := clients;
      var i := 0;
      while i < |snapshot|
        invariant 0 <= i <= |snapshot|
        invariant clients == snapshot
        invariant forall k :: 0 <= k < |snapshot| ==> snapshot[k].closed == old(snapshot[k].closed)
        invariant forall k :: 0 <= k < i ==>
          snapshot[k].chunks == if old(snapshot[k].Accepts()) then old(snapshot[k].chunks) + [payload] else old(snapshot[k].chunks)
        invariant forall k :: i <= k < |snapshot| ==> snapshot[k].chunks == old(snapshot[k].chunks)
      {
        var threw := snapshot[i].Send(payload);
        i := i + 1;
      }
    }
  }

  /** The two module-level callback sets: one for ride events and one for
      driver events. A stream route registers a callback of its own on one
      of them, so no callback sits in both. */
  class Channels {
    const rides: Bus
    const drivers: Bus

    ghost predicate Valid()
      reads this, rides, drivers
    {
      rides != drivers && rides.Valid() && drivers.Valid() &&
      Elements(rides.clients) !! Elements(drivers.clients)
    }

    constructor ()
      ensures Valid() && fresh(rides) && fresh(drivers)
      ensures rides.clients == [] && drivers.clients == []
    {
      rides := new Bus();
      drivers := new Bus();
    }

    /** `broadcastEvent`: delivers on the ride channel and leaves every
        subscriber of the driver channel as it was. */
    method BroadcastEvent(name: string, data: Value)
      requires Valid()
      modifies rides.clients
      ensures Valid()
      ensures rides.clients == old(rides.clients) && drivers.clients == old(drivers.clients)
      ensures forall s :: s in rides.clients ==>
        s.chunks == if old(s.Accepts()) then old(s.chunks) + [Frame(name, Stringify(data))] else old(s.chunks)
      ensures forall s :: s in drivers.clients ==> s.chunks == old(s.chunks) && s.closed == old(s.closed)
    {
      assert forall s :: s in drivers.clients ==> s !in rides.clients by {
        forall s | s in drivers.clients ensures s !in rides.clients {
          assert s in Elements(drivers.clients);
        }
      }
      rides.Broadcast(name, data);
    }

    /** `broadcastDrivers`: delivers on the driver channel and leaves every
        subscriber of the ride channel as it was. */
    method BroadcastDrivers(name: string, data: Value)
      requires Valid()
      modifies drivers.clients
      ensures Valid()
      ensures rides.clients == old(rides.clients) && drivers.clients == old(drivers.clients)
      ensures forall s :: s in drivers.clients ==>
        s.chunks == if old(s.Accepts()) then old(s.chunks) + [Frame(name, Stringify(data))] else old(s.chunks)
      ensures forall s :: s in rides.clients ==> s.chunks == old(s.chunks) && s.closed == old(s.closed)
    {
      assert forall s :: s in rides.clients ==> s !in drivers.clients by {
        forall s | s in rides.clients ensures s !in drivers.clients {
          assert s in Elements(rides.clients);
        }
      }
      drivers.Broadcast(name, data);
    }
  }
}
