/** SseSubscriber: many threads append to one buffer, one asynchronous write at a time
    empties it. */
module SseSubscriber {
  import opened Sequences
  import opened Text

  /** The fields guarded by write_mutex_. */
  datatype Fields = Fields(writeBuf: string, open: bool, writing: bool)

  // ---- the critical sections ----

  /** send: the bool says that this thread must call do_write. */
  function SendSection(s: Fields, data: string): (Fields, bool) {
    if data == "" || !s.open then (s, false)
    else (Fields(s.writeBuf + data, true, true), !s.writing)
  }

  /** do_write: the chunk handed to async_write, if any. */
  function DoWriteSection(s: Fields): (Fields, Option<string>) {
    if s.writeBuf == "" then (s.(writing := false), None)
    else (s.(writeBuf := ""), Some(s.writeBuf))
  }

  /** The completion handler; the bool says that it must call do_write again. */
  function CompletionSection(s: Fields, failed: bool): (Fields, bool) {
    if failed then (s.(open := false, writing := false), false)
    else if s.writeBuf != "" then (s, true)
    else (s.(writing := false), false)
  }

  function CloseSection(s: Fields): Fields { s.(open := false) }

  class Subscriber {
    var writeBuf: string
    var open: bool
    var writing: bool

    function View(): Fields
      reads this
    {
      Fields(writeBuf, open, writing)
    }

    constructor ()
      ensures View() == Fields("", true, false)
    {
      writeBuf, open, writing := "", true, false;
    }

    method Send(data: string) returns (startWrite: bool)
      modifies this
      ensures (View(), startWrite) == SendSection(old(View()), data)
      ensures open == old(open) && writeBuf == old(writeBuf) + if open then data else ""
      ensures writing <==> old(writing) || (open && data != "")
      ensures startWrite <==> writing && !old(writing)
    {
      if data == "" { return false; }
      startWrite := false;
      if !open { return; }
      writeBuf := writeBuf + data;
      if !writing {
        writing := true;
        startWrite := true;
      }
    }

    method DoWrite() returns (chunk: Option<string>)
      modifies this
      ensures (View(), chunk) == DoWriteSection(old(View()))
      ensures open == old(open) && writeBuf == "" && writing == (old(writing) && chunk.Some?)
      ensures chunk == if old(writeBuf) == "" then None else Some(old(writeBuf))
    {
      if writeBuf == "" {
        writing := false;
        return None;
      }
      chunk := Some(writeBuf);
      writeBuf := "";
    }

    method OnWritten(failed: bool) returns (hasMore: bool)
      modifies this
      ensures (View(), hasMore) == CompletionSection(old(View()), failed)
      ensures writeBuf == old(writeBuf) && open == (old(open) && !failed)
      ensures hasMore <==> !failed && writeBuf != ""
      ensures writing == (old(writing) && hasMore)
    {
      hasMore := false;
      if failed {
        open := false;
        writing := false;
        return;
      }
      if writeBuf != "" { hasMore := true; } else { writing := false; }
    }

    method Close()
      modifies this
      ensures View() == CloseSection(old(View()))
      ensures !open && writeBuf == old(writeBuf) && writing == old(writing)
    {
      if !open { return; }
      open := false;
    }
  }

  // ---- the protocol: any number of threads, in any order ----

  /** A write in flight: sent bytes of the chunk are on the wire. */
  datatype Flight = Flight(chunk: string, sent: nat)

  /** pending counts the threads between the decision to write and do_write's critical
      section.  accepted is the concatenation of the accepted sends in lock order; wire is
      what the socket took; broken is set by a write error. */
  datatype Connection = Connection(fields: Fields, pending: nat, flight: Option<Flight>,
                                   wire: string, accepted: string, broken: bool)

  datatype Event =
    | Send(data: string)
    | StartWrite
    | Transmit(n: nat)
    | Written
    | WriteError
    | Close

  const Fresh := Connection(Fields("", true, false), 0, None, "", "", false)

  ghost predicate Enabled(c: Connection, e: Event) {
    match e
    case Send(_) => true
    case StartWrite => c.pending > 0
    case Transmit(n) => c.flight.Some? && c.flight.value.sent + n <= |c.flight.value.chunk|
    case Written => c.flight.Some? && c.flight.value.sent == |c.flight.value.chunk|
    case WriteError => c.flight.Some?
    case Close => true
  }

  ghost function Step(c: Connection, e: Event): Connection
    requires Enabled(c, e)
    requires c.flight.Some? ==> c.flight.value.sent <= |c.flight.value.chunk|
  {
    match e
    case Send(data) =>
      var (f, start) := SendSection(c.fields, data);
      c.(fields := f, pending := c.pending + if start then 1 else 0,
         accepted := if c.fields.open then c.accepted + data else c.accepted)
    case StartWrite =>
      var (f, chunk) := DoWriteSection(c.fields);
      c.(fields := f, pending := c.pending - 1,
         flight := if chunk.Some? then Some(Flight(chunk.value, 0)) else c.flight)
    case Transmit(n) =>
      var fl := c.flight.value;
      c.(flight := Some(Flight(fl.chunk, fl.sent + n)), wire := c.wire + fl.chunk[fl.sent..fl.sent + n])
    case Written =>
      var (f, more) := CompletionSection(c.fields, false);
      c.(fields := f, pending := c.pending + if more then 1 else 0, flight := None)
    case WriteError =>
      c.(fields := CompletionSection(c.fields, true).0, flight := None, broken := true)
    case Close =>
      c.(fields := CloseSection(c.fields))
  }

  /** The bytes of the write in flight that are not on the wire yet. */
  ghost function Unsent(c: Connection): string
    requires c.flight.Some? ==> c.flight.value.sent <= |c.flight.value.chunk|
  {
    if c.flight.Some? then c.flight.value.chunk[c.flight.value.sent..] else ""
  }

  /** writing_ holds exactly when one do_write is pending or one write is in flight, never
      two; until an error every accepted byte is on the wire, in flight or buffered. */
  ghost predicate Inv(c: Connection) {
    && (c.flight.Some? ==> c.flight.value.sent <= |c.flight.value.chunk|)
    && c.pending + (if c.flight.Some? then 1 else 0) == (if c.fields.writing then 1 else 0)
    && (c.pending > 0 ==> c.fields.writeBuf != "")
    && (!c.broken ==> c.accepted == c.wire + Unsent(c) + c.fields.writeBuf)
    && (!c.broken && !c.fields.writing ==> c.fields.writeBuf == "")
    && (c.broken ==> !c.fields.open && !c.fields.writing && c.wire <= c.accepted)
  }

  lemma {:induction false} SendKeepsInv(c: Connection, data: string)
    requires Inv(c)
    ensures Inv(Step(c, Send(data)))
  {
    assert c.wire + Unsent(c) + (c.fields.writeBuf + data) == c.wire + Unsent(c) + c.fields.writeBuf + data;
  }

  lemma {:induction false} StartKeepsInv(c: Connection)
    requires Inv(c) && Enabled(c, StartWrite)
    ensures Inv(Step(c, StartWrite))
  {
    assert c.fields.writeBuf[0..] == c.fields.writeBuf;
    assert c.flight.None?;
  }

  lemma {:induction false} CutInTwo(chunk: string, from: nat, to: nat)
    requires from <= to <= |chunk|
    ensures chunk[from..] == chunk[from..to] + chunk[to..]
  {
  }

  lemma {:induction false} TransmitKeepsInv(c: Connection, n: nat)
    requires Inv(c) && Enabled(c, Transmit(n))
    ensures Inv(Step(c, Transmit(n)))
  {
    var fl, d := c.flight.value, Step(c, Transmit(n));
    var now := fl.chunk[fl.sent..fl.sent + n];
    CutInTwo(fl.chunk, fl.sent, fl.sent + n);
    assert Unsent(c) == now + Unsent(d) && d.wire == c.wire + now && d.accepted == c.accepted && d.fields == c.fields;
    Associative(c.wire, now, Unsent(d));
  }

  lemma {:induction false} WrittenKeepsInv(c: Connection)
    requires Inv(c) && Enabled(c, Written)
    ensures Inv(Step(c, Written))
  {
    assert Unsent(c) == "";
    assert c.wire + "" + c.fields.writeBuf == c.wire + c.fields.writeBuf;
  }

  lemma {:induction false} ErrorKeepsInv(c: Connection)
    requires Inv(c) && Enabled(c, WriteError)
    ensures Inv(Step(c, WriteError))
  {
    assert c.broken || c.wire <= c.wire + Unsent(c) + c.fields.writeBuf;
  }

  lemma {:induction false} CloseKeepsInv(c: Connection)
    requires Inv(c)
    ensures Inv(Step(c, Close))
  {
  }

  lemma {:induction false} InvBoundsFlight(c: Connection)
    requires Inv(c)
    ensures c.flight.Some? ==> c.flight.value.sent <= |c.flight.value.chunk|
  {
  }

  lemma {:induction false} StepKeepsInv(c: Connection, e: Event)
    requires Inv(c) && Enabled(c, e)
    ensures Inv(Step(c, e))
  {
    hide *;
    InvBoundsFlight(c);
    match e {
      case Send(data) => SendKeepsInv(c, data);
      case StartWrite => StartKeepsInv(c);
      case Transmit(n) => TransmitKeepsInv(c, n);
      case Written => WrittenKeepsInv(c);
      case WriteError => ErrorKeepsInv(c);
      case Close => CloseKeepsInv(c);
    }
  }

  /** A run: the events in the order of their critical sections. */
  ghost predicate Runs(c: Connection, events: seq<Event>, d: Connection)
    decreases |events|
  {
    if events == [] then c == d
    else Enabled(c, events[0]) && (c.flight.Some? ==> c.flight.value.sent <= |c.flight.value.chunk|)
         && Runs(Step(c, events[0]), events[1..], d)
  }

  lemma {:induction false} RunsKeepInv(c: Connection, events: seq<Event>, d: Connection)
    requires Inv(c) && Runs(c, events, d)
    ensures Inv(d)
    decreases |events|
  {
    if events != [] {
      StepKeepsInv(c, events[0]);
      RunsKeepInv(Step(c, events[0]), events[1..], d);
    }
  }

  /** The data that send accepts in one step. */
  ghost function AcceptedNow(c: Connection, e: Event): string {
    if e.Send? && c.fields.open then e.data else ""
  }

  /** The concatenation of the data that send accepted along a run. */
  ghost function AcceptedBytes(c: Connection, events: seq<Event>): string
    requires Inv(c)
    decreases |events|
  {
    if events == [] || !Enabled(c, events[0]) then ""
    else
      StepKeepsInv(c, events[0]);
      AcceptedNow(c, events[0]) + AcceptedBytes(Step(c, events[0]), events[1..])
  }

  lemma {:induction false} StepAccepts(c: Connection, e: Event)
    requires Inv(c) && Enabled(c, e)
    ensures Step(c, e).accepted == c.accepted + AcceptedNow(c, e)
  {
    assert c.accepted + "" == c.accepted;
  }

  lemma {:induction false} AcceptedIsConcatenation(c: Connection, events: seq<Event>, d: Connection)
    requires Inv(c) && Runs(c, events, d)
    ensures d.accepted == c.accepted + AcceptedBytes(c, events)
    decreases |events|
  {
    hide Inv, Enabled, Step, AcceptedNow, SendSection, DoWriteSection, CompletionSection, CloseSection;
    if events == [] {
      assert c.accepted + "" == c.accepted;
    } else {
      var e := Step(c, events[0]);
      StepKeepsInv(c, events[0]);
      StepAccepts(c, events[0]);
      AcceptedIsConcatenation(e, events[1..], d);
      Associative(c.accepted, AcceptedNow(c, events[0]), AcceptedBytes(e, events[1..]));
    }
  }

  /** After close nothing is accepted any more. */
  lemma {:induction false} NothingAfterClose(c: Connection, events: seq<Event>)
    requires Inv(c) && !c.fields.open
    ensures AcceptedBytes(c, events) == ""
    decreases |events|
  {
    hide Inv, Enabled, SendSection, DoWriteSection, CompletionSection;
    if events != [] && Enabled(c, events[0]) {
      InvBoundsFlight(c);
      StepKeepsInv(c, events[0]);
      StaysClosed(c, events[0]);
      hide Step;
      NothingAfterClose(Step(c, events[0]), events[1..]);
    }
  }

  lemma {:induction false} StaysClosed(c: Connection, e: Event)
    requires Inv(c) && Enabled(c, e) && (c.flight.Some? ==> c.flight.value.sent <= |c.flight.value.chunk|)
    ensures !c.fields.open || e.Close? ==> !Step(c, e).fields.open
  {
  }

  /** Single writer: for every interleaving of sends, closes, completions and errors, the
      bytes on the wire are a prefix of the accepted sends in lock order, at most one write
      is pending or in flight, and when none is and no error occurred nothing is left. */
  lemma {:induction false} SingleWriter(events: seq<Event>, d: Connection)
    requires Runs(Fresh, events, d)
    ensures d.wire <= AcceptedBytes(Fresh, events)
    ensures d.fields.writing <==> d.pending + (if d.flight.Some? then 1 else 0) == 1
    ensures d.pending + (if d.flight.Some? then 1 else 0) <= 1
    ensures !d.broken && !d.fields.writing ==> d.wire == AcceptedBytes(Fresh, events)
  {
    RunsKeepInv(Fresh, events, d);
    AcceptedIsConcatenation(Fresh, events, d);
    assert "" + AcceptedBytes(Fresh, events) == AcceptedBytes(Fresh, events);
    if !d.broken {
      assert d.wire <= d.wire + Unsent(d) + d.fields.writeBuf;
      assert !d.fields.writing ==> d.wire + "" + "" == d.wire;
    }
  }
}
