/** SseBroker and handle_sse: numbered broadcasts, a bounded history, and clients that
    register first and then replay what they missed. */
module SseBroker {
  import opened Sequences

  const HISTORY_MAX: nat := 500

  type SubId = nat

  datatype Entry = Entry(id: nat, eventName: string, data: string)

  /** The fields guarded by mutex_. */
  datatype Fields = Fields(history: seq<Entry>, nextId: nat, subs: set<SubId>)

  // ---- the critical sections ----

  function Bounded(history: seq<Entry>): seq<Entry> {
    if |history| > HISTORY_MAX then history[|history| - HISTORY_MAX..] else history
  }

  /** First section of broadcast: number the event and remember it. */
  function PushSection(b: Fields, eventName: string, data: string): Fields {
    Fields(Bounded(b.history + [Entry(b.nextId, eventName, data)]), b.nextId + 1, b.subs)
  }

  function Missed(history: seq<Entry>, lastEventId: int): seq<Entry> {
    Filter(history, (e: Entry) => e.id > lastEventId)
  }

  class Broker {
    var history: seq<Entry>
    var nextId: nat
    var subs: set<SubId>

    function View(): Fields
      reads this
    {
      Fields(history, nextId, subs)
    }

    constructor ()
      ensures View() == Fields([], 1, {})
    {
      history, nextId, subs := [], 1, {};
    }

    method Add(sub: SubId)
      modifies this
      ensures View() == old(View()).(subs := old(subs) + {sub})
    {
      subs := subs + {sub};
    }

    method Remove(sub: SubId)
      modifies this
      ensures View() == old(View()).(subs := old(subs) - {sub})
    {
      subs := subs - {sub};
    }

    method Push(eventName: string, data: string) returns (e: Entry)
      modifies this
      ensures e == Entry(old(nextId), eventName, data) && nextId == old(nextId) + 1 && subs == old(subs)
      ensures history == if |old(history)| < 500 then old(history) + [e] else (old(history) + [e])[|old(history)| - 499..]
      ensures View() == PushSection(old(View()), eventName, data)
    {
      e := Entry(nextId, eventName, data);
      nextId := nextId + 1;
      history := history + [e];
      ghost var all := history;
      while |history| > HISTORY_MAX
        invariant |history| <= |all| && history == all[|all| - |history|..]
        invariant |all| > HISTORY_MAX ==> |history| >= HISTORY_MAX
        invariant |all| <= HISTORY_MAX ==> history == all
        invariant nextId == old(nextId) + 1 && subs == old(subs)
      {
        history := history[1..];
      }
    }

    /** Second section of broadcast: whom to send to. */
    method Snapshot() returns (targets: set<SubId>)
      ensures targets == subs
    {
      targets := subs;
    }

    method CollectMissed(lastEventId: int) returns (missed: seq<Entry>)
      ensures missed == Missed(history, lastEventId)
    {
      missed := [];
      for i := 0 to |history|
        invariant missed == Missed(history[..i], lastEventId)
      {
        FilterAppend(history, i, (e: Entry) => e.id > lastEventId);
        if history[i].id > lastEventId { missed := missed + [history[i]]; }
      }
      assert history[..|history|] == history;
    }

    method CloseAll() returns (closing: set<SubId>)
      modifies this
      ensures closing == old(subs) && View() == old(View()).(subs := {})
    {
      closing := subs;
      subs := {};
    }
  }

  // ---- the protocol ----

  /** A broadcasting thread after its first section, named by its event. */
  datatype Cast = Pushed | Sending(left: set<SubId>)

  /** A client of handle_sse: after add, after reading the history with the missed events
      still to send, counted as it goes.  addedAt and readLow are history variables: the next
      event number at add, and the oldest event number still kept at the replay read. */
  datatype Client = Client(lastEventId: int, addedAt: nat, replayRead: bool, readLow: nat,
                           missed: seq<nat>, replayed: nat, live: multiset<nat>, gone: bool)

  datatype System = System(broker: Fields, casts: map<nat, Cast>, clients: map<SubId, Client>)

  datatype Event =
    | Broadcast(eventName: string, data: string)
    | TakeSnapshot(id: nat)
    | SendLive(id: nat, sub: SubId)
    | Connect(sub: SubId, lastEventId: int)
    | ReadHistory(sub: SubId)
    | SendMissed(sub: SubId)
    | Disconnect(sub: SubId)
    | CloseEverything

  const Start := System(Fields([], 1, {}), map[], map[])

  function Ids(entries: seq<Entry>): seq<nat> {
    Map(entries, (e: Entry) => e.id)
  }

  function OldestKept(b: Fields): nat {
    if b.history == [] then b.nextId else b.history[0].id
  }

  ghost predicate Enabled(s: System, e: Event) {
    match e
    case Broadcast(_, _) => true
    case TakeSnapshot(id) => id in s.casts && s.casts[id] == Pushed
    case SendLive(id, sub) => id in s.casts && s.casts[id].Sending? && sub in s.casts[id].left
    case Connect(sub, _) => sub !in s.clients
    case ReadHistory(sub) => sub in s.clients && !s.clients[sub].replayRead
    case SendMissed(sub) => sub in s.clients && s.clients[sub].replayed < |s.clients[sub].missed|
    case Disconnect(sub) => sub in s.clients
    case CloseEverything => true
  }

  /** handle_sse replays only for a positive Last-Event-ID. */
  ghost function ReadBy(c: Client, b: Fields): Client {
    c.(replayRead := true, readLow := OldestKept(b),
       missed := if c.lastEventId > 0 then Ids(Missed(b.history, c.lastEventId)) else [])
  }

  ghost function Delivered(clients: map<SubId, Client>, sub: SubId, id: nat): map<SubId, Client> {
    if sub in clients then clients[sub := clients[sub].(live := clients[sub].live + multiset{id})] else clients
  }

  ghost function Step(s: System, e: Event): System
    requires Enabled(s, e)
  {
    match e
    case Broadcast(name, data) =>
      System(PushSection(s.broker, name, data), s.casts[s.broker.nextId := Pushed], s.clients)
    case TakeSnapshot(id) =>
      s.(casts := s.casts[id := Sending(s.broker.subs)])
    case SendLive(id, sub) =>
      s.(casts := s.casts[id := Sending(s.casts[id].left - {sub})], clients := Delivered(s.clients, sub, id))
    case Connect(sub, last) =>
      s.(broker := s.broker.(subs := s.broker.subs + {sub}),
         clients := s.clients[sub := Client(last, s.broker.nextId, false, 0, [], 0, multiset{}, false)])
    case ReadHistory(sub) =>
      s.(clients := s.clients[sub := ReadBy(s.clients[sub], s.broker)])
    case SendMissed(sub) =>
      s.(clients := s.clients[sub := s.clients[sub].(replayed := s.clients[sub].replayed + 1)])
    case Disconnect(sub) =>
      s.(broker := s.broker.(subs := s.broker.subs - {sub}),
         clients := s.clients[sub := s.clients[sub].(gone := true)])
    case CloseEverything =>
      s.(broker := s.broker.(subs := {}),
         clients := map c | c in s.clients :: s.clients[c].(gone := s.clients[c].gone || c in s.broker.subs))
  }

  // ---- what every state keeps ----

  /** The history is the last 500 events, consecutively numbered. */
  ghost predicate HistoryOk(b: Fields) {
    && b.nextId >= 1
    && |b.history| == Min(HISTORY_MAX, b.nextId - 1)
    && forall i :: 0 <= i < |b.history| ==> b.history[i].id == b.nextId - |b.history| + i
  }

  /** The broadcasting thread of this event still has to serve the client. */
  ghost predicate Coming(casts: map<nat, Cast>, sub: SubId, id: nat) {
    id in casts && (casts[id] == Pushed || sub in casts[id].left)
  }

  ghost predicate Ascending(ids: seq<nat>) {
    forall i, j :: 0 <= i < j < |ids| ==> ids[i] < ids[j]
  }

  /** Handed to the subscriber already, or certain to be. */
  ghost predicate Covered(casts: map<nat, Cast>, sub: SubId, c: Client, id: nat) {
    id in c.live || id in c.missed || Coming(casts, sub, id)
  }

  ghost predicate ClientOk(b: Fields, casts: map<nat, Cast>, sub: SubId, c: Client) {
    && 1 <= c.addedAt <= b.nextId
    && c.replayed <= |c.missed|
    && (!c.replayRead || c.lastEventId <= 0 ==> c.missed == [])
    && (!c.gone <==> sub in b.subs)
    && (!c.gone ==> forall id: nat :: c.addedAt <= id < b.nextId ==> Covered(casts, sub, c, id))
    && (!c.gone && c.replayRead && c.lastEventId > 0 ==>
          forall id: nat :: c.lastEventId < id < b.nextId && c.readLow <= id ==> Covered(casts, sub, c, id))
    && Ascending(c.missed)
    && (forall i :: 0 <= i < |c.missed| ==> c.lastEventId < c.missed[i] < b.nextId)
    && (forall id :: id in c.live ==> 1 <= id < b.nextId && c.live[id] == 1 && !Coming(casts, sub, id))
  }

  ghost predicate Inv(s: System) {
    && HistoryOk(s.broker)
    && (forall id :: id in s.casts <==> 1 <= id < s.broker.nextId)
    && (forall sub :: sub in s.broker.subs ==> sub in s.clients)
    && (forall id, sub :: id in s.casts && s.casts[id].Sending? && sub in s.casts[id].left ==> sub in s.clients)
    && (forall sub :: sub in s.clients ==> ClientOk(s.broker, s.casts, sub, s.clients[sub]))
  }

  lemma {:induction false} PushKeepsHistory(b: Fields, name: string, data: string)
    requires HistoryOk(b)
    ensures HistoryOk(PushSection(b, name, data))
  {
  }

  ghost predicate Numbered(entries: seq<Entry>) {
    forall i, j :: 0 <= i < j < |entries| ==> entries[i].id < entries[j].id
  }

  lemma {:induction false} FilterNumbered(entries: seq<Entry>, p: Entry -> bool)
    requires Numbered(entries)
    ensures Numbered(Filter(entries, p))
  {
    if entries != [] {
      FilterNumbered(entries[1..], p);
      forall y | y in Filter(entries[1..], p) ensures entries[0].id < y.id {
        assert y in entries[1..];
      }
    }
  }

  lemma {:induction false} MissedMember(history: seq<Entry>, last: int, id: nat)
    ensures id in Ids(Missed(history, last)) <==> id in Ids(history) && id > last
  {
    var m := Missed(history, last);
    assert forall e :: e in m <==> e in history && e.id > last;
    IdsMember(m, id);
    IdsMember(history, id);
  }

  lemma {:induction false} IdsMember(entries: seq<Entry>, id: nat)
    ensures id in Ids(entries) <==> exists e :: e in entries && e.id == id
  {
    var ids := Ids(entries);
    if id in ids {
      var i :| 0 <= i < |ids| && ids[i] == id;
      assert entries[i] in entries;
    }
    if e :| e in entries && e.id == id {
      var i :| 0 <= i < |entries| && entries[i] == e;
      assert ids[i] == id;
    }
  }

  /** What the replay read collects: all kept events after Last-Event-ID, ascending. */
  lemma {:induction false} ReplayReads(b: Fields, last: int)
    requires HistoryOk(b)
    ensures forall id: nat :: id in Ids(Missed(b.history, last)) <==> last < id && OldestKept(b) <= id < b.nextId
    ensures Ascending(Ids(Missed(b.history, last)))
  {
    forall id: nat ensures id in Ids(Missed(b.history, last)) <==> id in Ids(b.history) && id > last {
      MissedMember(b.history, last, id);
    }
    FilterNumbered(b.history, (e: Entry) => e.id > last);
    forall id: nat ensures id in Ids(b.history) <==> OldestKept(b) <= id < b.nextId {
      if OldestKept(b) <= id < b.nextId && b.history != [] {
        assert Ids(b.history)[id - OldestKept(b)] == id;
      }
    }
  }

  lemma {:induction false} ClientKept(b: Fields, casts: map<nat, Cast>, b': Fields, casts': map<nat, Cast>, sub: SubId, c: Client)
    requires ClientOk(b, casts, sub, c)
    requires b.nextId <= b'.nextId && (sub in b.subs <==> sub in b'.subs)
    requires forall id: nat :: id < b.nextId ==> (Coming(casts, sub, id) <==> Coming(casts', sub, id))
    requires forall id: nat :: b.nextId <= id < b'.nextId ==> Coming(casts', sub, id)
    ensures ClientOk(b', casts', sub, c)
  {
    forall id: nat | id < b'.nextId && (id < b.nextId ==> Covered(casts, sub, c, id)) ensures Covered(casts', sub, c, id) {
      assert id < b.nextId ==> (Coming(casts, sub, id) <==> Coming(casts', sub, id));
    }
    forall id: nat | c.addedAt <= id < b'.nextId ensures Covered(casts', sub, c, id) || c.gone {
      assert id < b.nextId && !c.gone ==> Covered(casts, sub, c, id);
    }
  }

  lemma {:induction false} BroadcastKeepsInv(s: System, name: string, data: string)
    requires Inv(s)
    ensures Inv(Step(s, Broadcast(name, data)))
  {
    var t := Step(s, Broadcast(name, data));
    PushKeepsHistory(s.broker, name, data);
    forall sub | sub in t.clients ensures ClientOk(t.broker, t.casts, sub, t.clients[sub]) {
      ClientKept(s.broker, s.casts, t.broker, t.casts, sub, s.clients[sub]);
    }
  }

  lemma {:induction false} SnapshotKeepsInv(s: System, id: nat)
    requires Inv(s) && Enabled(s, TakeSnapshot(id))
    ensures Inv(Step(s, TakeSnapshot(id)))
  {
    var t := Step(s, TakeSnapshot(id));
    forall sub | sub in t.clients ensures ClientOk(t.broker, t.casts, sub, t.clients[sub]) {
      var c := s.clients[sub];
      if !c.gone {
        ClientKept(s.broker, s.casts, t.broker, t.casts, sub, c);
      } else {
        assert forall k :: Coming(t.casts, sub, k) ==> Coming(s.casts, sub, k);
      }
    }
  }

  lemma {:induction false} SendLiveKeepsInv(s: System, id: nat, sub: SubId)
    requires Inv(s) && Enabled(s, SendLive(id, sub))
    ensures Inv(Step(s, SendLive(id, sub)))
  {
    var t := Step(s, SendLive(id, sub));
    forall d | d in t.clients ensures ClientOk(t.broker, t.casts, d, t.clients[d]) {
      if d != sub {
        ClientKept(s.broker, s.casts, t.broker, t.casts, d, s.clients[d]);
      } else {
        assert Coming(s.casts, sub, id);
        LiveDelivery(s, id, sub);
      }
    }
  }

  lemma {:induction false} LiveDelivery(s: System, id: nat, sub: SubId)
    requires Inv(s) && Enabled(s, SendLive(id, sub))
    ensures var t := Step(s, SendLive(id, sub)); ClientOk(t.broker, t.casts, sub, t.clients[sub])
  {
    var t := Step(s, SendLive(id, sub));
    var c, d := s.clients[sub], t.clients[sub];
    assert Coming(s.casts, sub, id) && !Coming(t.casts, sub, id);
    forall k ensures k != id ==> (Coming(s.casts, sub, k) <==> Coming(t.casts, sub, k)) {}
    assert forall k :: k in d.live <==> k in c.live || k == id;
    assert forall k: nat :: Covered(s.casts, sub, c, k) ==> Covered(t.casts, sub, d, k);
  }

  lemma {:induction false} ConnectKeepsInv(s: System, sub: SubId, last: int)
    requires Inv(s) && Enabled(s, Connect(sub, last))
    ensures Inv(Step(s, Connect(sub, last)))
  {
    var t := Step(s, Connect(sub, last));
    forall d | d in t.clients ensures ClientOk(t.broker, t.casts, d, t.clients[d]) {
      if d != sub { ClientKept(s.broker, s.casts, t.broker, t.casts, d, s.clients[d]); }
    }
  }

  lemma {:induction false} ReadKeepsClient(b: Fields, casts: map<nat, Cast>, sub: SubId, c: Client)
    requires HistoryOk(b) && ClientOk(b, casts, sub, c) && !c.replayRead
    ensures ClientOk(b, casts, sub, ReadBy(c, b))
  {
    var d := ReadBy(c, b);
    ReplayReads(b, c.lastEventId);
    assert forall i :: 0 <= i < |d.missed| ==> d.missed[i] in d.missed;
    assert d == c.(replayRead := true, readLow := d.readLow, missed := d.missed);
    MissedServesClient(b, casts, sub, c, d.missed, d.readLow);
  }

  lemma {:induction false} MissedServesClient(b: Fields, casts: map<nat, Cast>, sub: SubId, c: Client, missed: seq<nat>, low: nat)
    requires ClientOk(b, casts, sub, c) && !c.replayRead
    requires Ascending(missed) && forall i :: 0 <= i < |missed| ==> c.lastEventId < missed[i] < b.nextId
    requires c.lastEventId <= 0 ==> missed == []
    requires c.lastEventId > 0 ==> forall id: nat :: c.lastEventId < id < b.nextId && low <= id ==> id in missed
    ensures ClientOk(b, casts, sub, c.(replayRead := true, readLow := low, missed := missed))
  {
    hide Coming, Ascending;
    var d := c.(replayRead := true, readLow := low, missed := missed);
    forall id: nat | Covered(casts, sub, c, id) ensures Covered(casts, sub, d, id) {
      assert id !in c.missed;
    }
  }

  lemma {:induction false} ReadKeepsInv(s: System, sub: SubId)
    requires Inv(s) && Enabled(s, ReadHistory(sub))
    ensures Inv(Step(s, ReadHistory(sub)))
  {
    ReadKeepsClient(s.broker, s.casts, sub, s.clients[sub]);
    hide ClientOk, HistoryOk, ReadBy;
  }

  lemma {:induction false} ReplayedOne(b: Fields, casts: map<nat, Cast>, sub: SubId, c: Client)
    requires ClientOk(b, casts, sub, c) && c.replayed < |c.missed|
    ensures ClientOk(b, casts, sub, c.(replayed := c.replayed + 1))
  {
    hide Coming, Ascending;
    var d := c.(replayed := c.replayed + 1);
    forall id: nat ensures Covered(casts, sub, c, id) == Covered(casts, sub, d, id) {}
    hide Covered;
  }

  lemma {:induction false} SendMissedKeepsInv(s: System, sub: SubId)
    requires Inv(s) && Enabled(s, SendMissed(sub))
    ensures Inv(Step(s, SendMissed(sub)))
  {
    ReplayedOne(s.broker, s.casts, sub, s.clients[sub]);
    hide ClientOk, HistoryOk;
  }

  lemma {:induction false} DisconnectKeepsInv(s: System, sub: SubId)
    requires Inv(s) && Enabled(s, Disconnect(sub))
    ensures Inv(Step(s, Disconnect(sub)))
  {
    hide Covered, Ascending, Coming;
    var t := Step(s, Disconnect(sub));
    forall d | d in t.clients ensures ClientOk(t.broker, t.casts, d, t.clients[d]) {
      assert ClientOk(s.broker, s.casts, d, s.clients[d]);
    }
  }

  lemma {:induction false} CloseKeepsInv(s: System)
    requires Inv(s)
    ensures Inv(Step(s, CloseEverything))
  {
    hide Covered, Ascending, Coming;
    var t := Step(s, CloseEverything);
    forall d | d in t.clients ensures ClientOk(t.broker, t.casts, d, t.clients[d]) {
      assert ClientOk(s.broker, s.casts, d, s.clients[d]);
    }
  }

  lemma {:induction false} StepKeepsInv(s: System, e: Event)
    requires Inv(s) && Enabled(s, e)
    ensures Inv(Step(s, e))
  {
    hide *;
    match e {
      case Broadcast(name, data) => BroadcastKeepsInv(s, name, data);
      case TakeSnapshot(id) => SnapshotKeepsInv(s, id);
      case SendLive(id, sub) => SendLiveKeepsInv(s, id, sub);
      case Connect(sub, last) => ConnectKeepsInv(s, sub, last);
      case ReadHistory(sub) => ReadKeepsInv(s, sub);
      case SendMissed(sub) => SendMissedKeepsInv(s, sub);
      case Disconnect(sub) => DisconnectKeepsInv(s, sub);
      case CloseEverything => CloseKeepsInv(s);
    }
  }

  // ---- over whole runs ----

  ghost predicate Runs(s: System, events: seq<Event>, t: System)
    decreases |events|
  {
    if events == [] then s == t
    else Enabled(s, events[0]) && Runs(Step(s, events[0]), events[1..], t)
  }

  lemma {:induction false} RunsKeepInv(s: System, events: seq<Event>, t: System)
    requires Inv(s) && Runs(s, events, t)
    ensures Inv(t)
    decreases |events|
  {
    hide Inv, Step, Enabled;
    if events != [] {
      StepKeepsInv(s, events[0]);
      RunsKeepInv(Step(s, events[0]), events[1..], t);
    }
  }

  /** send was called for this event, by a broadcasting thread or by the replay. */
  ghost predicate Handed(c: Client, id: nat)
    requires c.replayed <= |c.missed|
  {
    id in c.live || id in c.missed[..c.replayed]
  }

  /** The thread or the replay loop that is going to hand the event over is on its way. */
  ghost predicate OnItsWay(s: System, sub: SubId, id: nat)
    requires sub in s.clients && s.clients[sub].replayed <= |s.clients[sub].missed|
  {
    Coming(s.casts, sub, id) || id in s.clients[sub].missed[s.clients[sub].replayed..]
  }

  /** No gap on reconnect: under every interleaving of broadcasts, snapshots, sends and
      other clients, a client that registered and then read the history gets every event
      after its Last-Event-ID that was still kept at that read, and every event broadcast
      since it registered, while it stays registered. */
  lemma {:induction false} NoGap(events: seq<Event>, s: System, sub: SubId, id: nat)
    requires Runs(Start, events, s)
    requires sub in s.clients && !s.clients[sub].gone && s.clients[sub].replayRead
    requires id < s.broker.nextId
    requires
      || s.clients[sub].addedAt <= id
      || (0 < s.clients[sub].lastEventId < id && s.clients[sub].readLow <= id)
    ensures s.clients[sub].replayed <= |s.clients[sub].missed|
    ensures Handed(s.clients[sub], id) || OnItsWay(s, sub, id)
  {
    RunsKeepInv(Start, events, s);
    var c := s.clients[sub];
    assert ClientOk(s.broker, s.casts, sub, c);
    assert Covered(s.casts, sub, c, id);
    assert c.missed == c.missed[..c.replayed] + c.missed[c.replayed..];
  }

  /** What the replay read can still see: an event is gone from the history exactly when
      500 or more later events were broadcast before the read. */
  lemma {:induction false} EvictedExactly(events: seq<Event>, s: System, sub: SubId, id: nat)
    requires Runs(Start, events, s) && Enabled(s, ReadHistory(sub))
    requires 1 <= id < s.broker.nextId
    ensures id < Step(s, ReadHistory(sub)).clients[sub].readLow <==> s.broker.nextId - 1 - id >= 500
  {
    RunsKeepInv(Start, events, s);
    hide ClientOk;
  }

  /** Nothing is invented or repeated: an event reaches a client at most once live and at
      most once by the replay, which goes up from Last-Event-ID; a client without one gets no
      replay. */
  lemma {:induction false} AtMostTwice(events: seq<Event>, s: System, sub: SubId)
    requires Runs(Start, events, s) && sub in s.clients
    ensures var c := s.clients[sub];
      && (forall id :: id in c.live ==> c.live[id] == 1 && 1 <= id < s.broker.nextId)
      && Ascending(c.missed)
      && (forall i :: 0 <= i < |c.missed| ==> c.lastEventId < c.missed[i] < s.broker.nextId)
      && (c.lastEventId <= 0 ==> c.missed == [])
  {
    RunsKeepInv(Start, events, s);
    assert ClientOk(s.broker, s.casts, sub, s.clients[sub]);
  }

  /** The broker sends to exactly the clients that have connected and neither left nor been
      closed; a broadcast addresses all of them and no other. */
  lemma {:induction false} TargetsAreConnected(events: seq<Event>, s: System, id: nat)
    requires Runs(Start, events, s) && Enabled(s, TakeSnapshot(id))
    ensures forall sub :: sub in s.broker.subs <==> sub in s.clients && !s.clients[sub].gone
    ensures Step(s, TakeSnapshot(id)).casts[id] == Sending(s.broker.subs)
  {
    RunsKeepInv(Start, events, s);
    forall sub ensures sub in s.broker.subs <==> sub in s.clients && !s.clients[sub].gone {
      if sub in s.clients { assert ClientOk(s.broker, s.casts, sub, s.clients[sub]); }
    }
  }
}
