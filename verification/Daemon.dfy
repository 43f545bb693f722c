/**
 * What one stream connection lives beside: the durable log and the deploy rows, the hub, and every
 * other process that appends, publishes and finishes between any two of its steps.
 */
module Daemon {
  import opened Tables
  import opened Hub

  // ---- one deploy's part of a log ----------------------------------------------------------

  ghost predicate Ascending(events: seq<StoredEvent>) {
    && (forall i | 0 <= i < |events| :: events[i].id >= 1)
    && (forall i, j | 0 <= i < j < |events| :: events[i].id < events[j].id)
  }

  lemma {:induction false} EventsForConcat(a: seq<StoredEvent>, b: seq<StoredEvent>, id: int)
    ensures EventsFor(a + b, id) == EventsFor(a, id) + EventsFor(b, id)
  {
    if b == [] {
      assert a + b == a;
    } else {
      var n := |b| - 1;
      assert a + b == (a + b[..n]) + [b[n]] && b == b[..n] + [b[n]];
      EventsForConcat(a, b[..n], id);
      EventsForPush(a + b[..n], b[n], id);
      EventsForPush(b[..n], b[n], id);
    }
  }

  /** A deploy's events are in order of id, are its own, and are no newer than the log's last event. */
  lemma {:induction false} EventsForAscends(events: seq<StoredEvent>, id: int)
    requires Ascending(events)
    ensures Ascending(EventsFor(events, id))
    ensures forall i | 0 <= i < |EventsFor(events, id)| :: EventsFor(events, id)[i].event.deployId == id
    ensures EventsFor(events, id) != [] ==>
              events != [] && EventsFor(events, id)[|EventsFor(events, id)| - 1].id <= events[|events| - 1].id
  {
    if events != [] {
      EventsForAscends(events[..|events| - 1], id);
    }
  }

  predicate IsFinished(e: StoredEvent) {
    e.event.kind.Finished?
  }

  predicate HasEnded(timeline: seq<StoredEvent>) {
    timeline != [] && IsFinished(timeline[|timeline| - 1])
  }

  /** Nothing follows a terminal event. */
  ghost predicate EndsOnce(timeline: seq<StoredEvent>) {
    forall i | 0 <= i < |timeline| - 1 :: !IsFinished(timeline[i])
  }

  /**
   * A row is terminal exactly when its terminal event is stored, except one turned away with no events
   * at all.
   */
  ghost predicate RowFits(rows: map<int, Status>, timeline: seq<StoredEvent>, id: int) {
    if id !in rows then timeline == []
    else if rows[id] == InProgress then !HasEnded(timeline)
    else HasEnded(timeline) || timeline == []
  }

  /**
   * One in-order writer: what has been published of a deploy since this daemon started is a prefix of
   * what has been stored since.
   */
  ghost predicate Fits(timeline: seq<StoredEvent>, since: seq<StoredEvent>, published: seq<StoredEvent>,
      rows: map<int, Status>, id: int) {
    published <= since && EndsOnce(timeline) && RowFits(rows, timeline, id)
  }

  ghost predicate Coherent(log: seq<StoredEvent>, base: nat, sent: seq<StoredEvent>, rows: map<int, Status>, id: int)
    requires base <= |log|
  {
    Fits(EventsFor(log, id), EventsFor(log[base..], id), EventsFor(sent, id), rows, id)
  }

  ghost predicate AllCoherent(log: seq<StoredEvent>, base: nat, sent: seq<StoredEvent>, rows: map<int, Status>)
    requires base <= |log|
  {
    forall id :: Coherent(log, base, sent, rows, id)
  }

  class Daemon {
    var log: seq<StoredEvent>
    var nextEvent: int
    var rows: map<int, Status>
    const hub: BroadcastSink
    /** How many events were stored before this daemon's hub existed. */
    const base: nat

    ghost predicate Valid()
      reads this, hub
    {
      && hub.Valid() && base <= |log|
      && Ascending(log) && nextEvent >= 1 && (forall i | 0 <= i < |log| :: log[i].id < nextEvent)
      && AllCoherent(log, base, hub.sent, rows)
    }

    /** A daemon that starts on an existing store. */
    constructor (log: seq<StoredEvent>, rows: map<int, Status>, nextEvent: int, capacity: nat)
      requires capacity > 0 && Ascending(log) && nextEvent >= 1 && (forall i | 0 <= i < |log| :: log[i].id < nextEvent)
      requires forall id :: EndsOnce(EventsFor(log, id)) && RowFits(rows, EventsFor(log, id), id)
      ensures Valid() && this.log == log && this.rows == rows && this.nextEvent == nextEvent
      ensures fresh(hub) && hub.sent == []
    {
      this.log, this.rows, this.nextEvent, this.base := log, rows, nextEvent, |log|;
      hub := new BroadcastSink(capacity);
      new;
      assert log[base..] == [];
      forall id ensures Coherent(log, base, hub.sent, rows, id) {
      }
    }

    /** The past of this daemon: logs and histories only grow, and a finished row stays finished. */
    twostate predicate Grown()
      reads this, hub
    {
      && old(log) <= log && old(hub.sent) <= hub.sent
      && (forall id | id in old(rows) :: id in rows && (old(rows)[id] != InProgress ==> rows[id] != InProgress))
    }

    /** Append an event of a deploy in progress. */
    method Append(event: Event)
      requires Valid() && event.deployId in rows && rows[event.deployId] == InProgress && event.kind.StageEvent?
      modifies this`log, this`nextEvent
      ensures Valid() && Grown()
      ensures log == old(log) + [StoredEvent(old(nextEvent), event)] && nextEvent == old(nextEvent) + 1
    {
      CoherentAt(log, base, hub.sent, rows, event.deployId);
      assert rows[event.deployId := InProgress] == rows;
      StoreStep(log, base, hub.sent, rows, InProgress, StoredEvent(nextEvent, event));
      log := log + [StoredEvent(nextEvent, event)];
      nextEvent := nextEvent + 1;
    }

    /** The terminal transaction: status and terminal event at once. */
    method Finish(id: int, status: Status)
      requires Valid() && id in rows && status != InProgress && !HasEnded(EventsFor(log, id))
      modifies this`log, this`nextEvent, this`rows
      ensures Valid() && Grown()
      ensures log == old(log) + [StoredEvent(old(nextEvent), Event(id, Finished(status)))]
                && nextEvent == old(nextEvent) + 1
      ensures rows == old(rows)[id := status]
    {
      StoreStep(log, base, hub.sent, rows, status, StoredEvent(nextEvent, Event(id, Finished(status))));
      rows := rows[id := status];
      log := log + [StoredEvent(nextEvent, Event(id, Finished(status)))];
      nextEvent := nextEvent + 1;
    }

    /** A new row, or one that `reserve` turns away. */
    method SetRow(id: int, status: Status)
      requires Valid() && EventsFor(log, id) == []
      requires id in rows ==> status != InProgress
      modifies this`rows
      ensures Valid() && Grown()
      ensures rows == old(rows)[id := status]
    {
      RowStep(log, base, hub.sent, rows, id, status);
      rows := rows[id := status];
    }

    /** Publish the oldest stored event of a deploy that has not been published yet. */
    method Publish(id: int)
      requires Valid() && |EventsFor(hub.sent, id)| < |EventsFor(log[base..], id)|
      modifies hub
      ensures Valid() && Grown()
    {
      var event := EventsFor(log[base..], id)[|EventsFor(hub.sent, id)|];
      SinceIsOwn(log, base, id);
      PublishStep(log, base, hub.sent, rows, event, id);
      hub.Emit(event);
    }
  }

  /**
   * Anything the rest of the system may do between two steps of a connection: any number of deploys
   * appending, publishing, finishing and being turned away, in any order.
   */
  method Interfere(d: Daemon)
    requires d.Valid()
    modifies d, d.hub
    ensures d.Valid() && d.Grown()
  {
    var steps: nat := *;
    while steps > 0
      invariant d.Valid() && d.Grown()
    {
      var id: int, status: Status, event: Event := *, *, *;
      if {
        case event.deployId in d.rows && d.rows[event.deployId] == InProgress
            && event.kind.StageEvent? => d.Append(event);
        case id in d.rows && status != InProgress && !HasEnded(EventsFor(d.log, id)) => d.Finish(id, status);
        case EventsFor(d.log, id) == [] && (id in d.rows ==> status != InProgress) => d.SetRow(id, status);
        case |EventsFor(d.hub.sent, id)| < |EventsFor(d.log[d.base..], id)| => d.Publish(id);
        case true => d.hub.Close();
      }
      steps := steps - 1;
    }
  }

  lemma SinceIsOwn(log: seq<StoredEvent>, base: nat, id: int)
    requires Ascending(log) && base <= |log|
    ensures forall i | 0 <= i < |EventsFor(log[base..], id)| :: EventsFor(log[base..], id)[i].event.deployId == id
  {
    EventsForAscends(log[base..], id);
  }

  /** Storing an event of a deploy that has not ended. */
  lemma StoreStep(log: seq<StoredEvent>, base: nat, sent: seq<StoredEvent>, rows: map<int, Status>, status: Status,
      e: StoredEvent)
    requires base <= |log| && AllCoherent(log, base, sent, rows)
    requires e.event.deployId in rows && !HasEnded(EventsFor(log, e.event.deployId))
    requires IsFinished(e) <==> status != InProgress
    ensures AllCoherent(log + [e], base, sent, rows[e.event.deployId := status])
  {
    hide AllCoherent;
    var rows' := rows[e.event.deployId := status];
    forall id ensures Coherent(log + [e], base, sent, rows', id) {
      CoherentAt(log, base, sent, rows, id);
      StoreStepAt(log, base, sent, rows, status, e, id);
    }
    CoherentEverywhere(log + [e], base, sent, rows');
  }

  lemma CoherentAt(log: seq<StoredEvent>, base: nat, sent: seq<StoredEvent>, rows: map<int, Status>, id: int)
    requires base <= |log| && AllCoherent(log, base, sent, rows)
    ensures Coherent(log, base, sent, rows, id)
  {
  }

  lemma CoherentEverywhere(log: seq<StoredEvent>, base: nat, sent: seq<StoredEvent>, rows: map<int, Status>)
    requires base <= |log| && forall id :: Coherent(log, base, sent, rows, id)
    ensures AllCoherent(log, base, sent, rows)
  {
  }

  lemma StoreStepAt(log: seq<StoredEvent>, base: nat, sent: seq<StoredEvent>, rows: map<int, Status>, status: Status,
      e: StoredEvent, id: int)
    requires base <= |log| && Coherent(log, base, sent, rows, id)
    requires e.event.deployId in rows && !HasEnded(EventsFor(log, e.event.deployId))
    requires IsFinished(e) <==> status != InProgress
    ensures Coherent(log + [e], base, sent, rows[e.event.deployId := status], id)
  {
    hide Fits;
    EventsForPush(log, e, id);
    EventsForPush(log[base..], e, id);
    assert (log + [e])[base..] == log[base..] + [e];
    hide EventsFor;
    if id == e.event.deployId {
      FitsPush(EventsFor(log, id), EventsFor(log[base..], id), EventsFor(sent, id), rows, status, e);
    } else {
      FitsElsewhere(EventsFor(log, id), EventsFor(log[base..], id), EventsFor(sent, id), rows, e.event.deployId,
          status, id);
    }
  }

  lemma FitsPush(timeline: seq<StoredEvent>, since: seq<StoredEvent>, published: seq<StoredEvent>,
      rows: map<int, Status>, status: Status, e: StoredEvent)
    requires Fits(timeline, since, published, rows, e.event.deployId)
    requires e.event.deployId in rows && !HasEnded(timeline) && (IsFinished(e) <==> status != InProgress)
    ensures Fits(timeline + [e], since + [e], published, rows[e.event.deployId := status], e.event.deployId)
  {
  }

  lemma FitsElsewhere(timeline: seq<StoredEvent>, since: seq<StoredEvent>, published: seq<StoredEvent>,
      rows: map<int, Status>, d: int, status: Status, id: int)
    requires Fits(timeline, since, published, rows, id) && id != d
    ensures Fits(timeline + [], since + [], published, rows[d := status], id)
  {
    assert timeline + [] == timeline && since + [] == since;
  }

  lemma RowStep(log: seq<StoredEvent>, base: nat, sent: seq<StoredEvent>, rows: map<int, Status>, d: int,
      status: Status)
    requires base <= |log| && AllCoherent(log, base, sent, rows) && EventsFor(log, d) == []
    ensures AllCoherent(log, base, sent, rows[d := status])
  {
    hide AllCoherent;
    hide EventsFor;
    var rows' := rows[d := status];
    forall id ensures Coherent(log, base, sent, rows', id) {
      CoherentAt(log, base, sent, rows, id);
    }
    CoherentEverywhere(log, base, sent, rows');
  }

  lemma PublishStep(log: seq<StoredEvent>, base: nat, sent: seq<StoredEvent>, rows: map<int, Status>, e: StoredEvent,
      d: int)
    requires base <= |log| && AllCoherent(log, base, sent, rows)
    requires |EventsFor(sent, d)| < |EventsFor(log[base..], d)|
              && e == EventsFor(log[base..], d)[|EventsFor(sent, d)|] && e.event.deployId == d
    ensures AllCoherent(log, base, sent + [e], rows)
  {
    hide AllCoherent;
    forall id ensures Coherent(log, base, sent + [e], rows, id) {
      CoherentAt(log, base, sent, rows, id);
      PublishStepAt(log, base, sent, rows, e, d, id);
    }
    CoherentEverywhere(log, base, sent + [e], rows);
  }

  lemma PublishStepAt(log: seq<StoredEvent>, base: nat, sent: seq<StoredEvent>, rows: map<int, Status>, e: StoredEvent,
      d: int, id: int)
    requires base <= |log| && Coherent(log, base, sent, rows, id)
    requires |EventsFor(sent, d)| < |EventsFor(log[base..], d)|
              && e == EventsFor(log[base..], d)[|EventsFor(sent, d)|] && e.event.deployId == d
    ensures Coherent(log, base, sent + [e], rows, id)
  {
    EventsForPush(sent, e, id);
    hide EventsFor;
    if id != d {
      assert EventsFor(sent, id) + [] == EventsFor(sent, id);
    }
  }
}
