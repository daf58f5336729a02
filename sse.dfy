/** The `text/event-stream` format of section 9.2 ("Server-sent events") of
    the WHATWG HTML Living Standard: how the buses frame one event, and, as
    the independent partner of that framing, how a receiving client
    interprets a stream (section 9.2.6, "Interpreting an event stream"). */
module Sse {
  import opened Wrappers
  import opened Text
  import opened Json

  /** The comment chunk every stream starts with. */
  const Connected: string := ": connected\n\n"

  /** `event: ${eventName}\ndata: ${json}\n\n` */
  function Frame(name: string, data: string): string {
    "event: " + name + "\ndata: " + data + "\n\n"
  }

  /** A dispatched event as a client sees it: its type and its data. */
  datatype Event = Event(kind: string, data: string)

  /** The parser's event type buffer and data buffer. */
  datatype Buffers = Buffers(kind: string, data: string)

  const Empty := Buffers("", "")

  /** Splits off the first line; a line ends at CRLF, LF or CR. `ended` is
      false when the input has no line terminator at all. */
  function SplitLine(s: string): (r: (string, string, bool))
    ensures r.2 ==> |r.0| + |r.1| < |s|
    ensures !r.2 ==> r.1 == []
  {
    if s == [] then ("", "", false)
    else if s[0] == '\n' then ("", s[1..], true)
    else if s[0] == '\r' then ("", if |s| > 1 && s[1] == '\n' then s[2..] else s[1..], true)
    else
      var r := SplitLine(s[1..]);
      ([s[0]] + r.0, r.1, r.2)
  }

  /** Field and value of a non-empty, non-comment line: the text before the
      first colon, and the text after it without one leading space. */
  function FieldOf(line: string): (string, string) {
    match IndexOf(line, ":")
    case None => (line, "")
    case Some(c) =>
      var v := line[c + 1..];
      (line[..c], if v != [] && v[0] == ' ' then v[1..] else v)
  }

  function ProcessField(b: Buffers, field: string, value: string): Buffers {
    if field == "event" then b.(kind := value)
    else if field == "data" then b.(data := b.data + value + "\n")
    else b
  }

  /** Dispatching at a blank line: nothing when the data buffer is empty,
      otherwise one event whose data loses its final line feed and whose
      type defaults to "message". */
  function Dispatch(b: Buffers): seq<Event> {
    if b.data == "" then []
    else
      var d := if b.data[|b.data| - 1] == '\n' then b.data[..|b.data| - 1] else b.data;
      [Event(if b.kind == "" then "message" else b.kind, d)]
  }

  /** The events a client dispatches while reading `s` with buffers `b`;
      an unterminated last line or unfinished event is discarded. */
  function Interpret(s: string, b: Buffers): seq<Event>
    decreases |s|
  {
    var (line, rest, ended) := SplitLine(s);
    if !ended then []
    else if line == "" then Dispatch(b) + Interpret(rest, Empty)
    else if line[0] == ':' then Interpret(rest, b)
    else
      var (f, v) := FieldOf(line);
      Interpret(rest, ProcessField(b, f, v))
  }

  function Parse(s: string): seq<Event> {
    Interpret(s, Empty)
  }

  lemma {:induction false} SplitAtLineFeed(a: string, rest: string)
    requires NoLineBreak(a)
    ensures SplitLine(a + "\n" + rest) == (a, rest, true)
  {
    if a == [] {
      assert a + "\n" + rest == "\n" + rest;
    } else {
      assert (a + "\n" + rest)[1..] == a[1..] + "\n" + rest;
      SplitAtLineFeed(a[1..], rest);
      assert [a[0]] + a[1..] == a;
    }
  }

  lemma FirstIndex(s: string, pat: string, c: nat)
    requires c + |pat| <= |s| && s[c..c + |pat|] == pat
    requires forall k :: 0 <= k < c ==> !StartsWith(s[k..], pat)
    ensures IndexOf(s, pat) == Some(c)
  {
    assert s[c..][..|pat|] == s[c..c + |pat|];
    var r := IndexOf(s, pat);
    assert r.Some?;
    var v := r.value;
    assert s[v..][..|pat|] == s[v..v + |pat|];
    assert StartsWith(s[v..], pat);
  }

  lemma FieldAfterPrefix(prefix: string, value: string)
    requires |prefix| > 0 && ':' !in prefix
    ensures FieldOf(prefix + ": " + value) == (prefix, value)
  {
    var line := prefix + ": " + value;
    var c := |prefix|;
    forall k | 0 <= k < c ensures !StartsWith(line[k..], ":") {
      assert line[k] == prefix[k];
      assert line[k..][..1] == [line[k]];
    }
    FirstIndex(line, ":", c);
    assert line[..c] == prefix;
    assert line[c + 1..] == " " + value;
  }

  lemma InterpretFieldLine(line: string, rest: string, b: Buffers)
    requires NoLineBreak(line) && line != "" && line[0] != ':'
    ensures Interpret(line + "\n" + rest, b)
         == Interpret(rest, ProcessField(b, FieldOf(line).0, FieldOf(line).1))
  {
    SplitAtLineFeed(line, rest);
  }

  lemma InterpretBlankLine(rest: string, b: Buffers)
    ensures Interpret("\n" + rest, b) == Dispatch(b) + Interpret(rest, Empty)
  {
    SplitAtLineFeed("", rest);
    assert "" + "\n" + rest == "\n" + rest;
  }

  lemma EventLine(name: string, after: string, b: Buffers)
    requires NoLineBreak(name)
    ensures Interpret("event: " + name + "\n" + after, b) == Interpret(after, b.(kind := name))
  {
    var l := "event: " + name;
    assert NoLineBreak(l) by { NoLineBreakAppend("event: ", name); }
    assert l == "event" + ": " + name;
    FieldAfterPrefix("event", name);
    InterpretFieldLine(l, after, b);
  }

  lemma DataLine(data: string, after: string, b: Buffers)
    requires NoLineBreak(data)
    ensures Interpret("data: " + data + "\n" + after, b)
         == Interpret(after, b.(data := b.data + data + "\n"))
  {
    var l := "data: " + data;
    assert NoLineBreak(l) by { NoLineBreakAppend("data: ", data); }
    assert l == "data" + ": " + data;
    FieldAfterPrefix("data", data);
    InterpretFieldLine(l, after, b);
  }

  /** A frame followed by more text, regrouped line by line. */
  lemma FrameLines(name: string, data: string, rest: string)
    ensures Frame(name, data) + rest == "event: " + name + "\n" + ("data: " + data + "\n" + ("\n" + rest))
  {
  }

  lemma FrameHeader(name: string, data: string, rest: string)
    requires NoLineBreak(name) && NoLineBreak(data)
    ensures Interpret(Frame(name, data) + rest, Empty)
         == Interpret("\n" + rest, Buffers(name, data + "\n"))
  {
    var r1 := "data: " + data + "\n" + ("\n" + rest);
    FrameLines(name, data, rest);
    EventLine(name, r1, Empty);
    DataLine(data, "\n" + rest, Buffers(name, ""));
    assert "" + data + "\n" == data + "\n";
  }

  /** The framing and the client agree: a frame whose name and JSON text
      have no line break dispatches exactly that event, and the client is
      back in its initial state afterwards. */
  lemma FrameDecodes(name: string, data: string, rest: string)
    requires NoLineBreak(name) && NoLineBreak(data)
    ensures Interpret(Frame(name, data) + rest, Empty)
         == [Event(if name == "" then "message" else name, data)] + Interpret(rest, Empty)
  {
    FrameHeader(name, data, rest);
    InterpretBlankLine(rest, Buffers(name, data + "\n"));
    assert (data + "\n")[..|data + "\n"| - 1] == data;
  }

  /** The initial comment dispatches nothing and leaves the client in its
      initial state. */
  lemma ConnectedIsSilent(rest: string)
    ensures Interpret(Connected + rest, Empty) == Interpret(rest, Empty)
  {
    var c := ": connected";
    assert NoLineBreak(c);
    assert Connected + rest == c + "\n" + ("\n" + rest);
    SplitAtLineFeed(c, "\n" + rest);
    SplitAtLineFeed("", rest);
    assert "" + "\n" + rest == "\n" + rest;
  }

  /** An event the framing can carry unchanged: a non-empty type and no
      line break in either part. */
  predicate Carriable(e: Event) {
    e.kind != "" && NoLineBreak(e.kind) && NoLineBreak(e.data)
  }

  /** The frames of a sequence of events, back to back. */
  function Encode(es: seq<Event>): string {
    if es == [] then "" else Frame(es[0].kind, es[0].data) + Encode(es[1..])
  }

  /** The frames of a non-empty sequence: the first event's frame, then
      the rest. */
  lemma EncodeCons(es: seq<Event>, rest: string)
    requires es != []
    ensures Encode(es) + rest == Frame(es[0].kind, es[0].data) + (Encode(es[1..]) + rest)
  {
  }

  /** One more carriable frame in front of text that decodes to
      `tailEvents` followed by what `rest` decodes to. */
  lemma ConsDecodes(e: Event, tailText: string, tailEvents: seq<Event>, rest: string)
    requires Carriable(e)
    requires Interpret(tailText + rest, Empty) == tailEvents + Interpret(rest, Empty)
    ensures Interpret(Frame(e.kind, e.data) + (tailText + rest), Empty) == [e] + tailEvents + Interpret(rest, Empty)
  {
    FrameDecodes(e.kind, e.data, tailText + rest);
  }

  lemma {:induction false} EncodeDecodesPrefix(es: seq<Event>, rest: string)
    requires forall i :: 0 <= i < |es| ==> Carriable(es[i])
    ensures Interpret(Encode(es) + rest, Empty) == es + Interpret(rest, Empty)
  {
    if es == [] {
      assert Encode(es) + rest == rest;
    } else {
      EncodeDecodesPrefix(es[1..], rest);
      ConsDecodes(es[0], Encode(es[1..]), es[1..], rest);
      EncodeCons(es, rest);
      assert es == [es[0]] + es[1..];
    }
  }

  lemma NothingDecodesNothing(body: string, es: seq<Event>)
    requires Interpret(body + "", Empty) == es + Interpret("", Empty)
    ensures Interpret(body, Empty) == es
  {
    assert body + "" == body;
    assert es + [] == es;
  }

  /** What a client reads from a whole stream, the initial comment followed
      by frames, is exactly the events that were framed, in order. */
  lemma StreamDecodes(es: seq<Event>)
    requires forall i :: 0 <= i < |es| ==> Carriable(es[i])
    ensures Parse(Connected + Encode(es)) == es
  {
    var body := Encode(es);
    ConnectedIsSilent(body);
    EncodeDecodesPrefix(es, "");
    NothingDecodesNothing(body, es);
  }
}
