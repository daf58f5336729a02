/** The two `GET` stream routes (`/api/rides/stream` and
    `/api/drivers/stream`): each opens an event stream that starts with a
    comment, registers its own send callback with one channel, and on abort
    unregisters that callback and closes the stream. */
module StreamRoutes {
  import opened Seqs
  import opened Json
  import opened Sse
  import opened EventBus

  /** The response headers of a stream route. */
  datatype Headers = Headers(contentType: string, cacheControl: string, connection: string)

  const StreamHeaders := Headers("text/event-stream", "no-cache, no-transform", "keep-alive")

  /** `start`: the comment goes out first, then the stream's callback (one
      that swallows enqueue errors) joins the channel. */
  method Open(bus: Bus) returns (sub: Subscriber, h: Headers)
    requires bus.Valid()
    modifies bus
    ensures fresh(sub) && sub.chunks == [Connected] && !sub.closed && !sub.raises
    ensures bus.Valid() && bus.clients == old(bus.clients) + [sub]
    ensures h == StreamHeaders
  {
    sub := new Subscriber([Connected], false);
    bus.Add(sub);
    h := StreamHeaders;
  }

  /** `onAbort`: the callback leaves the channel and the stream is closed;
      the error of closing an already closed stream is swallowed. */
  method Abort(bus: Bus, sub: Subscriber)
    requires bus.Valid()
    modifies bus, sub
    ensures bus.Valid()
    ensures bus.clients == Without(old(bus.clients), sub)
    ensures sub !in bus.clients
    ensures sub.closed && sub.chunks == old(sub.chunks)
  {
    bus.Remove(sub);
    assert sub !in Elements(bus.clients);
    sub.Close();
  }

  /** `GET /api/rides/stream` */
  method GetRides(ch: Channels) returns (sub: Subscriber, h: Headers)
    requires ch.Valid()
    modifies ch.rides
    ensures ch.Valid()
    ensures fresh(sub) && sub.chunks == [Connected] && sub.Accepts()
    ensures ch.rides.clients == old(ch.rides.clients) + [sub]
    ensures h == StreamHeaders
  {
    sub, h := Open(ch.rides);
    assert Elements(ch.rides.clients) == Elements(old(ch.rides.clients)) + {sub};
  }

  /** `GET /api/drivers/stream` */
  method GetDrivers(ch: Channels) returns (sub: Subscriber, h: Headers)
    requires ch.Valid()
    modifies ch.drivers
    ensures ch.Valid()
    ensures fresh(sub) && sub.chunks == [Connected] && sub.Accepts()
    ensures ch.drivers.clients == old(ch.drivers.clients) + [sub]
    ensures h == StreamHeaders
  {
    sub, h := Open(ch.drivers);
    assert Elements(ch.drivers.clients) == Elements(old(ch.drivers.clients)) + {sub};
  }

  /** Abort of a ride stream. */
  method AbortRides(ch: Channels, sub: Subscriber)
    requires ch.Valid()
    modifies ch.rides, sub
    ensures ch.Valid()
    ensures ch.rides.clients == Without(old(ch.rides.clients), sub)
    ensures sub.closed && sub.chunks == old(sub.chunks)
  {
    Abort(ch.rides, sub);
  }

  /** Abort of a driver stream. */
  method AbortDrivers(ch: Channels, sub: Subscriber)
    requires ch.Valid()
    modifies ch.drivers, sub
    ensures ch.Valid()
    ensures ch.drivers.clients == Without(old(ch.drivers.clients), sub)
    ensures sub.closed && sub.chunks == old(sub.chunks)
  {
    Abort(ch.drivers, sub);
  }

  /** Once a ride stream is aborted, a later broadcast on the ride channel
      leaves it exactly as it was. */
  method BroadcastAfterAbort(ch: Channels, sub: Subscriber, name: string, data: Value)
    requires ch.Valid()
    modifies ch.rides, sub, ch.rides.clients
    ensures ch.Valid()
    ensures sub.closed && sub.chunks == old(sub.chunks)
  {
    AbortRides(ch, sub);
    var before := sub.chunks;
    ch.BroadcastEvent(name, data);
    assert sub.chunks == before;
  }

  /** The stream as a client reads it: all chunks back to back. */
  function Concat(chunks: seq<string>): string {
    if chunks == [] then "" else chunks[0] + Concat(chunks[1..])
  }

  /** One frame per event. */
  function Frames(es: seq<Event>): (r: seq<string>)
    ensures |r| == |es|
    ensures forall i :: 0 <= i < |es| ==> r[i] == Frame(es[i].kind, es[i].data)
  {
    if es == [] then [] else [Frame(es[0].kind, es[0].data)] + Frames(es[1..])
  }

  lemma {:induction false} ConcatFrames(es: seq<Event>)
    ensures Concat(Frames(es)) == Encode(es)
  {
    if es != [] {
      assert Frames(es)[1..] == Frames(es[1..]);
      ConcatFrames(es[1..]);
    }
  }

  /** A stream that holds the comment and then one frame per carriable
      event reads back as exactly those events. */
  lemma StreamReadsEvents(es: seq<Event>)
    requires forall i :: 0 <= i < |es| ==> Carriable(es[i])
    ensures Parse(Concat([Connected] + Frames(es))) == es
  {
    assert ([Connected] + Frames(es))[1..] == Frames(es);
    ConcatFrames(es);
    StreamDecodes(es);
  }

  /** What a broadcast appends to an open subscriber is one more event for
      its client: a broadcast named `name` carrying `data` reads back as the
      event `name` whose data is the JSON text of `data`. */
  lemma BroadcastReadsBack(es: seq<Event>, name: string, data: Value)
    requires forall i :: 0 <= i < |es| ==> Carriable(es[i])
    requires name != "" && NoLineBreak(name)
    ensures Parse(Concat([Connected] + Frames(es) + [Frame(name, Stringify(data))]))
         == es + [Event(name, Stringify(data))]
  {
    var e := Event(name, Stringify(data));
    StringifyNoLineBreak(data);
    var es2 := es + [e];
    assert Frames(es2) == Frames(es) + [Frame(name, Stringify(data))];
    assert [Connected] + Frames(es) + [Frame(name, Stringify(data))] == [Connected] + Frames(es2);
    StreamReadsEvents(es2);
  }
}
