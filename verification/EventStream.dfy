/** The messages the broker prints, and a client that reads them as section 9.2.6 of the
    WHATWG HTML standard says. */
module EventStream {
  import SseSubscriber
  import opened Sequences
  import opened Text

  /** The initial message of a connection has no id. */
  datatype Message = Message(name: string, data: string, id: Option<nat>)

  // ---- the printer ----

  function IdLine(id: Option<nat>): string {
    if id.Some? then "id: " + Decimal(id.value) + "\n" else ""
  }

  function Payload(m: Message): string {
    "event: " + m.name + "\n" + IdLine(m.id) + "data: " + m.data + "\n" + "\n"
  }

  /** What a connection is sent: messages, and every 15 seconds a comment. */
  datatype Item = Event(message: Message) | KeepAlive

  const KEEP_ALIVE := ": keep-alive\n\n"

  function Printed(i: Item): string { if i.Event? then Payload(i.message) else KEEP_ALIVE }

  function Stream(items: seq<Item>): string {
    if items == [] then "" else Printed(items[0]) + Stream(items[1..])
  }

  /** The messages among the items, in order. */
  function Messages(items: seq<Item>): seq<Message> {
    if items == [] then []
    else (if items[0].Event? then [items[0].message] else []) + Messages(items[1..])
  }

  // ---- the reader ----

  /** An event as the client sees it; lastEventId is what a reconnecting client sends. */
  datatype Received = Received(kind: string, data: string, lastEventId: string)

  /** line is the line being read; the three buffers are those of the standard. */
  datatype Reader = Reader(line: string, afterCr: bool, eventType: string, data: string,
                           idBuffer: string, lastEventId: string, events: seq<Received>)

  const NewReader := Reader("", false, "", "", "", "", [])

  predicate LineEnd(c: char) { c == '\n' || c == '\r' }

  function WithoutSpace(s: string): string { if s != "" && s[0] == ' ' then s[1..] else s }

  function Field(r: Reader, name: string, value: string): Reader {
    if name == "event" then r.(eventType := value)
    else if name == "data" then r.(data := r.data + value + "\n")
    else if name == "id" && '\0' !in value then r.(idBuffer := value)
    else r
  }

  /** A blank line: an event without data is dropped. */
  function Dispatch(r: Reader): Reader {
    var s := r.(lastEventId := r.idBuffer, eventType := "", data := "");
    if r.data == "" then s
    else
      var text := if r.data[|r.data| - 1] == '\n' then r.data[..|r.data| - 1] else r.data;
      s.(events := r.events + [Received(if r.eventType == "" then "message" else r.eventType, text, r.idBuffer)])
  }

  function ProcessLine(r: Reader, line: string): Reader {
    if line == "" then Dispatch(r)
    else
      var colon := Find(line, ':');
      if colon == 0 then r
      else if colon < |line| then Field(r, line[..colon], WithoutSpace(line[colon + 1..]))
      else Field(r, line, "")
  }

  /** One character; LF, CR and CR LF end a line. */
  function Feed(r: Reader, c: char): Reader {
    if c == '\n' && r.afterCr then r.(afterCr := false)
    else if LineEnd(c) then ProcessLine(r, r.line).(line := "", afterCr := c == '\r')
    else r.(line := r.line + [c], afterCr := false)
  }

  function Read(r: Reader, s: string): Reader
    decreases |s|
  {
    if s == "" then r else Read(Feed(r, s[0]), s[1..])
  }

  lemma {:induction false} ReadConcat(r: Reader, a: string, b: string)
    ensures Read(r, a + b) == Read(Read(r, a), b)
    decreases |a|
  {
    hide Feed;
    if a == "" {
      assert a + b == b;
    } else {
      TailOfConcat(a, b);
      ReadConcat(Feed(r, a[0]), a[1..], b);
    }
  }

  // ---- one message ----

  predicate OneLine(s: string) { forall i :: 0 <= i < |s| ==> !LineEnd(s[i]) }

  lemma {:induction false} ReadText(r: Reader, s: string)
    requires OneLine(s) && !r.afterCr
    ensures Read(r, s) == r.(line := r.line + s)
    decreases |s|
  {
    if s == "" {
      assert r.line + s == r.line;
    } else {
      ReadText(Feed(r, s[0]), s[1..]);
      assert r.line + [s[0]] + s[1..] == r.line + s;
    }
  }

  /** Between messages. */
  predicate AtRest(r: Reader) {
    r.line == "" && !r.afterCr && r.eventType == "" && r.data == "" && r.lastEventId == r.idBuffer
  }

  lemma {:induction false} ReadLine(r: Reader, s: string)
    requires OneLine(s) && r.line == "" && !r.afterCr
    ensures Read(r, s + "\n") == ProcessLine(r, s).(line := "", afterCr := false)
  {
    ReadConcat(r, s, "\n");
    ReadText(r, s);
    assert r.line + s == s;
    var q := r.(line := s);
    LineForgotten(r, s);
    assert Read(q, "\n") == Feed(q, '\n');
    hide ProcessLine, Read;
  }

  /** Processing a line does not depend on the line buffer. */
  lemma {:induction false} LineForgotten(r: Reader, s: string)
    ensures ProcessLine(r.(line := s), s).(line := "", afterCr := false) == ProcessLine(r, s).(line := "", afterCr := false)
  {
    hide Find, WithoutSpace;
  }

  lemma {:induction false} FieldLine(r: Reader, name: string, value: string)
    requires ':' !in name && name != ""
    ensures ProcessLine(r, name + ": " + value) == Field(r, name, value)
  {
    var line := name + ": " + value;
    FindAt(line, ':', |name|);
    assert line[..|name|] == name;
    assert line[|name| + 1..] == " " + value;
    assert (" " + value)[1..] == value;
    hide Find;
  }

  /** Reading "name: value" and a line feed. */
  lemma {:induction false} ReadField(r: Reader, name: string, value: string)
    requires ':' !in name && name != "" && OneLine(name) && OneLine(value) && r.line == "" && !r.afterCr
    ensures Read(r, name + ": " + value + "\n") == Field(r, name, value)
  {
    FieldLine(r, name, value);
    ReadLine(r, name + ": " + value);
    hide ProcessLine, Read;
  }

  ghost predicate Printable(m: Message) { m.name != "" && OneLine(m.name) && OneLine(m.data) }

  function IdText(m: Message, before: string): string {
    if m.id.Some? then Decimal(m.id.value) else before
  }

  /** What the reader is after a message. */
  function After(r: Reader, m: Message): Reader {
    var id := IdText(m, r.idBuffer);
    r.(idBuffer := id, lastEventId := id, events := r.events + [Received(m.name, m.data, id)])
  }

  lemma {:induction false} DecimalPlain(n: nat)
    ensures OneLine(Decimal(n)) && '\0' !in Decimal(n)
  {
    DecimalDigits(n);
    hide Decimal;
  }

  lemma {:induction false} ReadId(r: Reader, id: Option<nat>)
    requires r.line == "" && !r.afterCr
    ensures Read(r, IdLine(id)) == if id.Some? then r.(idBuffer := Decimal(id.value)) else r
  {
    if id.Some? {
      DecimalPlain(id.value);
      hide Decimal;
      assert OneLine("id") && ':' !in "id" && "id" + ": " == "id: ";
      hide Read;
      ReadField(r, "id", Decimal(id.value));
    }
  }

  lemma {:induction false} ReadEvent(r: Reader, name: string)
    requires r.line == "" && !r.afterCr && OneLine(name)
    ensures Read(r, "event: " + name + "\n") == r.(eventType := name)
  {
    assert OneLine("event") && ':' !in "event" && "event" + ": " == "event: ";
    hide Read;
    ReadField(r, "event", name);
  }

  lemma {:induction false} ReadData(r: Reader, data: string)
    requires r.line == "" && !r.afterCr && OneLine(data) && r.data == ""
    ensures Read(r, "data: " + data + "\n") == r.(data := data + "\n")
  {
    assert OneLine("data") && ':' !in "data" && "data" + ": " == "data: ";
    hide Read;
    ReadField(r, "data", data);
    assert "" + data + "\n" == data + "\n";
  }

  lemma {:induction false} ReadBlank(r: Reader, m: Message)
    requires r.line == "" && !r.afterCr && r.data == m.data + "\n" && r.eventType == m.name && m.name != ""
    ensures Read(r, "\n") == r.(eventType := "", data := "", lastEventId := r.idBuffer,
                                events := r.events + [Received(m.name, m.data, r.idBuffer)])
  {
    assert OneLine("") && "" + "\n" == "\n";
    ReadLine(r, "");
    assert (m.data + "\n")[..|m.data|] == m.data;
    hide Read;
  }

  /** The client reads a printed message back: its name, its data and its id. */
  lemma {:induction false} MessageRoundTrip(r: Reader, m: Message)
    requires AtRest(r) && Printable(m)
    ensures Read(r, Payload(m)) == After(r, m) && AtRest(After(r, m))
  {
    var e, i, d := "event: " + m.name + "\n", IdLine(m.id), "data: " + m.data + "\n";
    assert Payload(m) == e + i + d + "\n";
    ReadEvent(r, m.name);
    var r1 := r.(eventType := m.name);
    ReadId(r1, m.id);
    var r2 := if m.id.Some? then r1.(idBuffer := Decimal(m.id.value)) else r1;
    ReadData(r2, m.data);
    var r3 := r2.(data := m.data + "\n");
    ReadBlank(r3, m);
    hide Read, Payload, Decimal, IdLine;
    ReadConcat(r, e, i);
    ReadConcat(r, e + i, d);
    ReadConcat(r, e + i + d, "\n");
  }

  // ---- a whole connection ----

  /** A comment leaves a client that is between messages as it was. */
  lemma {:induction false} KeepAliveIgnored(r: Reader)
    requires AtRest(r)
    ensures Read(r, KEEP_ALIVE) == Read(r, ": keep-alive\n\n") == r
  {
    assert OneLine(": keep-alive") && OneLine("");
    FindAt(": keep-alive", ':', 0);
    assert KEEP_ALIVE == (": keep-alive" + "\n") + ("" + "\n");
    hide Read, Find;
    ReadLine(r, ": keep-alive");
    ReadLine(r, "");
    ReadConcat(r, ": keep-alive" + "\n", "" + "\n");
  }

  function AfterAll(r: Reader, ms: seq<Message>): Reader
    decreases |ms|
  {
    if ms == [] then r else AfterAll(After(r, ms[0]), ms[1..])
  }

  ghost predicate AllPrintable(items: seq<Item>) {
    forall i :: 0 <= i < |items| && items[i].Event? ==> Printable(items[i].message)
  }

  lemma {:induction false} StreamRoundTrip(r: Reader, items: seq<Item>)
    requires AtRest(r) && AllPrintable(items)
    ensures Read(r, Stream(items)) == AfterAll(r, Messages(items)) && AtRest(AfterAll(r, Messages(items)))
    decreases |items|
  {
    hide Payload, Printable, Read, After, AtRest, KEEP_ALIVE;
    if items == [] {
      ReadNothing(r);
    } else {
      var first, rest := items[0], items[1..];
      ReadConcat(r, Printed(first), Stream(rest));
      if first.Event? {
        MessageRoundTrip(r, first.message);
        StreamRoundTrip(After(r, first.message), rest);
        assert Messages(items)[0] == first.message && Messages(items)[1..] == Messages(rest);
      } else {
        KeepAliveIgnored(r);
        StreamRoundTrip(r, rest);
        assert Messages(items) == Messages(rest);
      }
    }
  }

  lemma {:induction false} ReadNothing(r: Reader)
    ensures Read(r, "") == r
  {
  }

  /** The event the client saw is this message. */
  predicate Shows(e: Received, m: Message) {
    e.kind == m.name && e.data == m.data && (m.id.Some? ==> e.lastEventId == Decimal(m.id.value))
  }

  lemma {:induction false} AfterAllEvents(r: Reader, ms: seq<Message>)
    ensures |AfterAll(r, ms).events| == |r.events| + |ms| && r.events <= AfterAll(r, ms).events
    ensures forall i :: 0 <= i < |ms| ==> Shows(AfterAll(r, ms).events[|r.events| + i], ms[i])
    decreases |ms|
  {
    hide Decimal;
    if ms != [] {
      var q := After(r, ms[0]);
      AfterAllEvents(q, ms[1..]);
      forall i | 0 <= i < |ms|
        ensures Shows(AfterAll(r, ms).events[|r.events| + i], ms[i])
      {
        if i == 0 {
          assert AfterAll(q, ms[1..]).events[|r.events|] == q.events[|r.events|];
        } else {
          assert ms[i] == ms[1..][i - 1];
        }
      }
    }
  }

  lemma {:induction false} EventsOnlyGrow(r: Reader, s: string)
    ensures r.events <= Read(r, s).events
    decreases |s|
  {
    if s != "" {
      FeedGrows(r, s[0]);
      hide Feed;
      EventsOnlyGrow(Feed(r, s[0]), s[1..]);
    }
  }

  lemma {:induction false} FeedGrows(r: Reader, c: char)
    ensures r.events <= Feed(r, c).events
  {
    hide Find, WithoutSpace;
  }

  function Seen(wire: string): seq<Received> { Read(NewReader, wire).events }

  lemma {:induction false} WholeStreamSeen(items: seq<Item>)
    requires AllPrintable(items)
    ensures |Seen(Stream(items))| == |Messages(items)|
    ensures forall i :: 0 <= i < |Messages(items)| ==> Shows(Seen(Stream(items))[i], Messages(items)[i])
  {
    assert AtRest(NewReader) && NewReader.events == [];
    hide Read, Stream, Messages, AllPrintable, Shows, NewReader, AtRest, AfterAll;
    var ms := Messages(items);
    StreamRoundTrip(NewReader, items);
    AfterAllEvents(NewReader, ms);
    forall i | 0 <= i < |ms| ensures Shows(Seen(Stream(items))[i], ms[i]) {
      assert Shows(AfterAll(NewReader, ms).events[|NewReader.events| + i], ms[i]);
    }
  }

  lemma {:induction false} SeenGrows(wire: string, rest: string)
    ensures Seen(wire) <= Seen(wire + rest)
  {
    hide Read;
    ReadConcat(NewReader, wire, rest);
    EventsOnlyGrow(Read(NewReader, wire), rest);
  }

  /** Whatever part of the stream has arrived, the client has seen a prefix of the messages,
      in order, each with its name, its data and its id; a message cut off in the middle is
      not seen at all, and keep-alive comments leave no trace.  Of the whole stream it has
      seen every message. */
  lemma {:induction false} ClientSeesPrefix(items: seq<Item>, wire: string)
    requires AllPrintable(items) && wire <= Stream(items)
    ensures |Seen(wire)| <= |Messages(items)| && (wire == Stream(items) ==> |Seen(wire)| == |Messages(items)|)
    ensures forall i :: 0 <= i < |Seen(wire)| ==> Shows(Seen(wire)[i], Messages(items)[i])
  {
    hide *;
    WholeStreamSeen(items);
    var rest := Stream(items)[|wire|..];
    assert wire + rest == Stream(items);
    SeenGrows(wire, rest);
  }

  ghost predicate PrintableItem(i: Item) { i.Event? ==> Printable(i.message) }

  /** Every send of the service is one printed item. */
  ghost predicate SendsItem(e: SseSubscriber.Event) {
    e.Send? ==> exists i :: PrintableItem(i) && e.data == Printed(i)
  }

  /** Then so is what the subscriber accepts along a run. */
  lemma {:induction false} AcceptedItems(c: SseSubscriber.Connection, steps: seq<SseSubscriber.Event>) returns (items: seq<Item>)
    requires SseSubscriber.Inv(c) && forall i :: 0 <= i < |steps| ==> SendsItem(steps[i])
    ensures AllPrintable(items) && SseSubscriber.AcceptedBytes(c, steps) == Stream(items)
    decreases |steps|
  {
    hide SseSubscriber.Inv, SseSubscriber.Step, SseSubscriber.Enabled, Printed, Printable;
    items := [];
    if steps != [] && SseSubscriber.Enabled(c, steps[0]) {
      SseSubscriber.InvBoundsFlight(c);
      SseSubscriber.StepKeepsInv(c, steps[0]);
      items := AcceptedItems(SseSubscriber.Step(c, steps[0]), steps[1..]);
      if steps[0].Send? && c.fields.open {
        var i :| PrintableItem(i) && steps[0].data == Printed(i);
        items := Prepended(i, items);
      } else {
        assert "" + Stream(items) == Stream(items);
      }
    }
  }

  lemma {:induction false} Prepended(i: Item, rest: seq<Item>) returns (items: seq<Item>)
    requires PrintableItem(i) && AllPrintable(rest)
    ensures items == [i] + rest && AllPrintable(items) && Stream(items) == Printed(i) + Stream(rest)
  {
    items := [i] + rest;
    assert items[1..] == rest;
    hide Printed, Printable;
  }

  /** Through a connection: if every send is a printed message or a keep-alive comment, then
      for every interleaving of sends, writes, closes and errors the client sees a prefix of
      the accepted messages in lock order, and all of them once the writer has stopped
      without an error. */
  lemma {:induction false} ConnectionDelivers(steps: seq<SseSubscriber.Event>, d: SseSubscriber.Connection) returns (items: seq<Item>)
    requires SseSubscriber.Runs(SseSubscriber.Fresh, steps, d)
    requires forall i :: 0 <= i < |steps| ==> SendsItem(steps[i])
    ensures AllPrintable(items) && SseSubscriber.AcceptedBytes(SseSubscriber.Fresh, steps) == Stream(items)
    ensures |Seen(d.wire)| <= |Messages(items)|
    ensures !d.broken && !d.fields.writing ==> |Seen(d.wire)| == |Messages(items)|
    ensures forall i :: 0 <= i < |Seen(d.wire)| ==> Shows(Seen(d.wire)[i], Messages(items)[i])
  {
    hide SendsItem, Stream, AllPrintable, Seen, Messages, Shows, SseSubscriber.AcceptedBytes, SseSubscriber.Runs;
    items := AcceptedItems(SseSubscriber.Fresh, steps);
    SseSubscriber.SingleWriter(steps, d);
    ClientSeesPrefix(items, d.wire);
  }
}
