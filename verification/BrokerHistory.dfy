/** What a replay contains: the history holds the last broadcasts as they were made, and the
    text replayed for an event is the text that was sent live for it. */
module BrokerHistory {
  import opened Sequences
  import opened SseBroker
  import EventStream
  import Text

  /** The broadcasts of a run, in order. */
  function Broadcasts(events: seq<Event>): (sent: seq<Event>)
    ensures forall i :: 0 <= i < |sent| ==> sent[i].Broadcast?
  {
    Filter(events, (e: Event) => e.Broadcast?)
  }

  /** The history holds the last broadcasts, at most 500, each with its own name and data and
      numbered from 1 in the order of broadcasting. */
  ghost predicate HoldsLast(b: Fields, sent: seq<Event>)
    requires forall i :: 0 <= i < |sent| ==> sent[i].Broadcast?
  {
    && b.nextId == |sent| + 1
    && |b.history| == Min(500, |sent|)
    && forall i :: 0 <= i < |b.history| ==> Remembers(b.history[i], sent, |sent| - |b.history| + i)
  }

  /** The entry is broadcast k. */
  predicate Remembers(e: Entry, sent: seq<Event>, k: int)
    requires forall i :: 0 <= i < |sent| ==> sent[i].Broadcast?
  {
    0 <= k < |sent| && e.id == k + 1 && e.eventName == sent[k].eventName && e.data == sent[k].data
  }

  lemma {:induction false} PushHolds(b: Fields, sent: seq<Event>, e: Event)
    requires e.Broadcast? && forall i :: 0 <= i < |sent| ==> sent[i].Broadcast?
    requires HoldsLast(b, sent)
    ensures HoldsLast(PushSection(b, e.eventName, e.data), sent + [e])
  {
    var c := PushSection(b, e.eventName, e.data);
    PushCuts(b, e.eventName, e.data);
    hide PushSection, Remembers;
    forall i | 0 <= i < |c.history| ensures Remembers(c.history[i], sent + [e], |sent| + 1 - |c.history| + i) {
      EntryPushed(b, sent, e, i);
    }
  }

  lemma {:induction false} PushCuts(b: Fields, name: string, data: string)
    ensures var c := PushSection(b, name, data);
      && c.nextId == b.nextId + 1 && |c.history| == Min(500, |b.history| + 1)
      && forall i :: 0 <= i < |c.history| ==>
           var k := |b.history| + 1 - |c.history| + i;
           c.history[i] == if k < |b.history| then b.history[k] else Entry(b.nextId, name, data)
  {
  }

  lemma {:induction false} EntryPushed(b: Fields, sent: seq<Event>, e: Event, i: nat)
    requires e.Broadcast? && forall i :: 0 <= i < |sent| ==> sent[i].Broadcast?
    requires HoldsLast(b, sent) && i < |PushSection(b, e.eventName, e.data).history|
    ensures var history := PushSection(b, e.eventName, e.data).history; Remembers(history[i], sent + [e], |sent| + 1 - |history| + i)
  {
    PushCuts(b, e.eventName, e.data);
    hide PushSection, Remembers;
    var k := |b.history| + 1 - |PushSection(b, e.eventName, e.data).history| + i;
    if k < |b.history| {
      StillRemembers(b.history[k], sent, e, |sent| - |b.history| + k);
    } else {
      NowRemembers(sent, e);
    }
  }

  lemma {:induction false} StillRemembers(x: Entry, sent: seq<Event>, e: Event, k: int)
    requires e.Broadcast? && forall i :: 0 <= i < |sent| ==> sent[i].Broadcast?
    requires Remembers(x, sent, k)
    ensures Remembers(x, sent + [e], k)
  {
  }

  lemma {:induction false} NowRemembers(sent: seq<Event>, e: Event)
    requires e.Broadcast? && forall i :: 0 <= i < |sent| ==> sent[i].Broadcast?
    ensures Remembers(Entry(|sent| + 1, e.eventName, e.data), sent + [e], |sent|)
  {
  }

  lemma {:induction false} StepHolds(s: System, e: Event, sent: seq<Event>)
    requires Enabled(s, e) && forall i :: 0 <= i < |sent| ==> sent[i].Broadcast?
    requires HoldsLast(s.broker, sent)
    ensures HoldsLast(Step(s, e).broker, if e.Broadcast? then sent + [e] else sent)
  {
    if e.Broadcast? { PushHolds(s.broker, sent, e); }
    hide PushSection;
  }

  lemma {:induction false} RunHolds(s: System, events: seq<Event>, t: System, sent: seq<Event>)
    requires Runs(s, events, t) && forall i :: 0 <= i < |sent| ==> sent[i].Broadcast?
    requires HoldsLast(s.broker, sent)
    ensures HoldsLast(t.broker, sent + Broadcasts(events))
    decreases |events|
  {
    hide HoldsLast, Step, Enabled, Broadcasts;
    if events == [] {
      NoBroadcasts();
      assert sent + [] == sent;
    } else {
      var e, rest := events[0], events[1..];
      StepHolds(s, e, sent);
      RunHolds(Step(s, e), rest, t, if e.Broadcast? then sent + [e] else sent);
      FirstBroadcast(events);
      ConcatAssociative(sent, [e], Broadcasts(rest));
    }
  }

  lemma {:induction false} NoBroadcasts()
    ensures Broadcasts([]) == []
  {
  }

  lemma {:induction false} FirstBroadcast(events: seq<Event>)
    requires events != []
    ensures Broadcasts(events) == if events[0].Broadcast? then [events[0]] + Broadcasts(events[1..]) else Broadcasts(events[1..])
  {
    ConcatAssociative([], Broadcasts(events[1..]), []);
  }

  /** Over every run: what the history holds. */
  lemma {:induction false} HistoryIsTheLastBroadcasts(events: seq<Event>, s: System)
    requires Runs(Start, events, s)
    ensures HoldsLast(s.broker, Broadcasts(events))
  {
    RunHolds(Start, events, s, []);
    assert [] + Broadcasts(events) == Broadcasts(events);
  }

  /** The text of an event, as broadcast_with_id prints it for the live clients. */
  function LiveText(sent: seq<Event>, id: nat): string
    requires 1 <= id <= |sent| && sent[id - 1].Broadcast?
  {
    "event: " + sent[id - 1].eventName + "\n" + "id: " + Text.Decimal(id) + "\n" + "data: " + sent[id - 1].data + "\n" + "\n"
  }

  /** The text that the replay sends for a kept entry. */
  function EntryText(e: Entry): string {
    EventStream.Payload(EventStream.Message(e.eventName, e.data, Some(e.id)))
  }

  lemma {:induction false} TextKept(b: Fields, sent: seq<Event>, i: nat)
    requires forall k :: 0 <= k < |sent| ==> sent[k].Broadcast?
    requires HoldsLast(b, sent) && i < |b.history|
    ensures 1 <= b.history[i].id <= |sent| && EntryText(b.history[i]) == LiveText(sent, b.history[i].id)
  {
    var e := b.history[i];
    assert EventStream.IdLine(Some(e.id)) == "id: " + Text.Decimal(e.id) + "\n";
    hide Text.Decimal;
    var head, id, tail := "event: " + e.eventName + "\n", "id: " + Text.Decimal(e.id) + "\n", "data: " + e.data + "\n" + "\n";
    assert EntryText(e) == head + id + tail;
    assert LiveText(sent, e.id) == head + id + tail;
  }

  /** Which ids are still kept after Last-Event-ID. */
  lemma {:induction false} MissedIds(b: Fields, sent: seq<Event>, last: int)
    requires forall k :: 0 <= k < |sent| ==> sent[k].Broadcast?
    requires HistoryOk(b) && HoldsLast(b, sent) && last > 0
    ensures Ascending(Ids(Missed(b.history, last)))
    ensures forall id: nat :: id in Ids(Missed(b.history, last)) <==> last < id <= |sent| && |sent| - id < 500
  {
    hide Ids, Missed, Ascending;
    ReplayReads(b, last);
    assert OldestKept(b) == |sent| - |b.history| + 1;
  }

  lemma {:induction false} MissedTexts(b: Fields, sent: seq<Event>, last: int)
    requires forall k :: 0 <= k < |sent| ==> sent[k].Broadcast?
    requires HoldsLast(b, sent)
    ensures var missed := Missed(b.history, last); forall i :: 0 <= i < |missed| ==>
      1 <= missed[i].id <= |sent| && EntryText(missed[i]) == LiveText(sent, missed[i].id)
  {
    var missed := Missed(b.history, last);
    forall i | 0 <= i < |missed| ensures missed[i] in b.history {}
    hide *;
    forall i | 0 <= i < |missed| ensures 1 <= missed[i].id <= |sent| && EntryText(missed[i]) == LiveText(sent, missed[i].id) {
      var k :| 0 <= k < |b.history| && b.history[k] == missed[i];
      TextKept(b, sent, k);
    }
  }

  lemma {:induction false} ReadCollects(s: System, sub: SubId)
    requires Enabled(s, ReadHistory(sub)) && s.clients[sub].lastEventId > 0
    ensures Step(s, ReadHistory(sub)).clients[sub].missed == Ids(Missed(s.broker.history, s.clients[sub].lastEventId))
  {
    hide Ids, Missed;
  }

  lemma {:induction false} IdsOf(entries: seq<Entry>)
    ensures |Ids(entries)| == |entries| && forall i :: 0 <= i < |entries| ==> Ids(entries)[i] == entries[i].id
  {
  }

  lemma {:induction false} RunHistoryOk(events: seq<Event>, s: System)
    requires Runs(Start, events, s)
    ensures HistoryOk(s.broker)
  {
    RunsKeepInv(Start, events, s);
    hide Runs, ClientOk;
  }

  /** The replay of a reconnecting client: exactly the broadcasts after its Last-Event-ID that
      are among the last 500, in order, each with the very text that was sent live. */
  lemma {:induction false} ReplaysWhatWasSent(events: seq<Event>, s: System, sub: SubId)
    requires Runs(Start, events, s) && Enabled(s, ReadHistory(sub)) && s.clients[sub].lastEventId > 0
    ensures var sent, last := Broadcasts(events), s.clients[sub].lastEventId;
      var missed, ids := Missed(s.broker.history, last), Step(s, ReadHistory(sub)).clients[sub].missed;
      && |ids| == |missed| && Ascending(ids)
      && (forall id: nat :: id in ids <==> last < id <= |sent| && |sent| - id < 500)
      && (forall i :: 0 <= i < |ids| ==> 1 <= ids[i] <= |sent| && EntryText(missed[i]) == LiveText(sent, ids[i]))
  {
    var sent, last := Broadcasts(events), s.clients[sub].lastEventId;
    hide *;
    var missed := Missed(s.broker.history, last);
    HistoryIsTheLastBroadcasts(events, s);
    RunHistoryOk(events, s);
    ReadCollects(s, sub);
    IdsOf(missed);
    MissedIds(s.broker, sent, last);
    MissedTexts(s.broker, sent, last);
  }
}
