/** A viewer: a page render or a bare first connection, then reconnections, each from the last id received. */
module Session {
  import opened Wrappers
  import opened Faults
  import opened Tables
  import opened Hub
  import opened Daemon
  import opened Stream

  /** The id of the last event received is exactly the split between what was received and what was not. */
  lemma ResumeIsSplit(t: seq<StoredEvent>, n: nat)
    requires Ascending(t) && n <= |t|
    ensures Seen(t, LastId(t[..n])) == n
  {
    var resume := LastId(t[..n]);
    SeenSplits(t, resume);
    hide Seen;
    assert n > 0 ==> t[n - 1].id <= resume;
    assert n < |t| ==> t[n].id > resume;
  }

  lemma ReceivedIsHonest(t: seq<StoredEvent>, got: seq<StoredEvent>)
    requires Ascending(t) && got <= t
    ensures Honest(t, LastId(got)) && LastId(got) >= 0
  {
  }

  /** A connection that resumes at the last id received continues the timeline exactly where it stopped. */
  lemma ContinuesReceived(t: seq<StoredEvent>, got: seq<StoredEvent>, resume: int, out: seq<StoredEvent>)
    requires Ascending(t) && got <= t && resume == LastId(got) && Continues(t, Seen(t, resume), out)
    ensures got + out <= t
    ensures out == Above(t, resume) ==> got + out == t
  {
    assert got == t[..|got|];
    ResumeIsSplit(t, |got|);
  }

  lemma LongerLastId(a: seq<StoredEvent>, b: seq<StoredEvent>)
    requires Ascending(b) && a <= b
    ensures LastId(a) <= LastId(b)
    ensures HasEnded(a) && EndsOnce(b) ==> a == b
  {
  }

  /** `Last-Event-ID` when anything came over a stream, the page's hint otherwise. */
  predicate ResumesAt(header: Option<int>, query: Option<int>, got: seq<StoredEvent>) {
    Asked(header, query) == LastId(got)
  }

  /** One connection over a timeline that only grows: it resumes exactly at what was received. */
  lemma Resumed(t0: seq<StoredEvent>, backlog: seq<StoredEvent>, t: seq<StoredEvent>, got: seq<StoredEvent>,
      resume: int, out: seq<StoredEvent>)
    requires Ascending(t) && got <= t0 <= backlog <= t
    requires resume == Min(LastId(got), LastId(backlog)) && Continues(t, Seen(t, resume), out)
    ensures resume == LastId(got) && got <= got + out <= t
    ensures out == Above(t, resume) ==> got + out == t
    ensures LastId(got + out) == if out != [] then LastId(out) else LastId(got)
  {
    BacklogAscends(backlog, t);
    LongerLastId(got, backlog);
    ContinuesReceived(t, got, resume, out);
  }

  lemma EndedIsWhole(t: seq<StoredEvent>, got: seq<StoredEvent>)
    requires got <= t && EndsOnce(t)
    ensures HasEnded(got) ==> got == t && HasEnded(t)
  {
  }

  lemma NothingIsEmpty(backlog: seq<StoredEvent>, t0: seq<StoredEvent>, got: seq<StoredEvent>)
    requires got <= t0 <= backlog
    ensures backlog == [] ==> t0 == [] && got == []
  {
  }

  /** The deploy has ended, and the viewer has all of it. */
  ghost predicate Everything(d: Daemon, id: int, got: seq<StoredEvent>)
    reads d
  {
    HasEnded(got) && got == Timeline(d, id)
  }

  /** The row is terminal. */
  predicate Closed(d: Daemon, id: int)
    reads d
  {
    id in d.rows && d.rows[id] != InProgress
  }

  /** Another stretch of a finished deploy: the rest of it and a close, or as much as the client stays for. */
  predicate MoreOf(t: seq<StoredEvent>, got: seq<StoredEvent>, patience: nat, r: Response, all: seq<StoredEvent>) {
    if got == t then r == NoContent && all == got
    else if |got| + patience < |t| then r == Left && all == t[..|got| + patience]
    else r == Ended && all == t
  }

  /** What an ended stream sends to a viewer that resumes at the last event received. */
  lemma AnswerIsMore(t: seq<StoredEvent>, got: seq<StoredEvent>, patience: nat, r: Response, out: seq<StoredEvent>)
    requires Ascending(t) && got <= t && EndedAnswer(t, LastId(got), patience, r, out)
    ensures MoreOf(t, got, patience, r, got + out)
  {
    assert got == t[..|got|];
    ResumeIsSplit(t, |got|);
    if |got| < |t| {
      assert t[|t| - 1].id > LastId(got) by {
        SeenSplits(t, LastId(got));
      }
    }
  }

  /** One more connection. */
  method Reconnect(d: Daemon, id: int, got: seq<StoredEvent>, header: Option<int>, query: Option<int>, patience: nat,
      calm: bool)
    returns (r: Response, all: seq<StoredEvent>, header': Option<int>)
    requires d.Valid() && got <= Timeline(d, id) && ResumesAt(header, query, got)
    modifies d, d.hub
    ensures d.Valid() && d.Grown() && got <= all <= Timeline(d, id) && ResumesAt(header', query, all)
    ensures old(Timeline(d, id)) <= Timeline(d, id)
    ensures r == Ended ==> Everything(d, id, all)
    ensures r == NoContent ==> Everything(d, id, all) || (all == old(Timeline(d, id)) == [] && Closed(d, id))
    ensures r == Waiting ==> NoneFinished(EventsFor(d.hub.sent, id))
    ensures HasEnded(got) ==> r == NoContent || r == StoreFailed
    ensures (r == StoreFailed ==> !calm) && (r == Lost ==> !calm || d.hub.closed)
    ensures calm && old(HasEnded(Timeline(d, id))) ==>
              Timeline(d, id) == old(Timeline(d, id)) && MoreOf(Timeline(d, id), got, patience, r, all)
  {
    hide EventsFor;
    hide AllCoherent;
    hide Ascending;
    hide Continues;
    hide NoneFinished;
    hide HasEnded;
    hide Seen;
    hide Above;
    hide LastId;
    hide Stuck;
    hide Daemon.Valid;
    ghost var t0 := Timeline(d, id);
    TimelineAscends(d, id);
    TimelineEndsOnce(d, id);
    ReceivedIsHonest(t0, got);
    LongerLastId(got, t0);
    EndedIsWhole(t0, got);
    var out;
    ghost var o;
    r, out, o := EventsSse(d, id, header, query, patience, calm);
    TimelineAscends(d, id);
    if r != StoreFailed && r != NotFound {
      Resumed(t0, o.backlog, Timeline(d, id), got, o.resume, out);
      NothingIsEmpty(o.backlog, t0, got);
    } else {
      assert got + out == got;
    }
    StaysEnded(d, id, t0);
    if calm && HasEnded(t0) {
      AnswerIsMore(t0, got, patience, r, out);
    }
    all := got + out;
    header' := if out != [] then Some(LastId(out)) else header;
  }

  lemma BacklogAscends(a: seq<StoredEvent>, b: seq<StoredEvent>)
    requires Ascending(b) && a <= b
    ensures Ascending(a)
  {
    assert forall i | 0 <= i < |a| :: a[i] == b[i];
  }

  /** The server-rendered page: the row first, then the events; a finished deploy's page opens no stream. */
  method Page(d: Daemon, id: int) returns (live: bool, events: seq<StoredEvent>)
    requires d.Valid()
    modifies d, d.hub
    ensures d.Valid() && d.Grown() && events == Timeline(d, id)
    ensures old(Timeline(d, id)) <= Timeline(d, id)
    ensures !live && id in old(d.rows) ==> Everything(d, id, events) || (events == [] && Closed(d, id))
    ensures live ==> id in d.rows && !old(Closed(d, id))
  {
    hide EventsFor;
    hide AllCoherent;
    hide Ascending;
    ghost var log0 := d.log;
    Interfere(d);
    TimelineGrows(log0, d.log, id);
    if id !in d.rows {
      return false, EventsFor(d.log, id);
    }
    live := d.rows[id] == InProgress;
    Interfere(d);
    TimelineGrows(log0, d.log, id);
    events := EventsFor(d.log, id);
    if !live {
      TerminalIsStored(d, id);
    }
  }

  /** How many items the viewer stays for in all. */
  function Patience(connections: seq<nat>): nat {
    if connections == [] then 0 else Patience(connections[..|connections| - 1]) + connections[|connections| - 1]
  }

  lemma EndedIsClosed(d: Daemon, id: int)
    requires d.Valid() && HasEnded(Timeline(d, id))
    ensures Closed(d, id)
  {
    RowFitsAt(d, id);
    EndedBefore(Timeline(d, id), d.rows, id);
  }

  lemma StaysEnded(d: Daemon, id: int, t0: seq<StoredEvent>)
    requires d.Valid() && t0 <= Timeline(d, id)
    ensures HasEnded(t0) ==> Timeline(d, id) == t0
  {
    if HasEnded(t0) {
      EndedIsFinal(d, id, t0);
    }
  }

  /** Between two connections. */
  method Away(d: Daemon, ghost id: int)
    requires d.Valid()
    modifies d, d.hub
    ensures d.Valid() && d.Grown() && old(Timeline(d, id)) <= Timeline(d, id)
  {
    hide EventsFor;
    ghost var log0 := d.log;
    Interfere(d);
    TimelineGrows(log0, d.log, id);
  }

  /** One connection after the other, from what the viewer already has, until it is told not to come back. */
  method Watch(d: Daemon, id: int, seen: seq<StoredEvent>, query: Option<int>, connections: seq<nat>, calm: bool)
    returns (last: Response, got: seq<StoredEvent>)
    requires d.Valid() && seen <= Timeline(d, id) && ResumesAt(None, query, seen)
    modifies d, d.hub
    ensures d.Valid() && old(Timeline(d, id)) <= Timeline(d, id) && seen <= got <= Timeline(d, id)
    ensures last == Ended ==> Everything(d, id, got)
    ensures last == NoContent ==> Everything(d, id, got) || (got == old(Timeline(d, id)) == [] && Closed(d, id))
    ensures last == Waiting ==> NoneFinished(EventsFor(d.hub.sent, id))
    ensures (last == StoreFailed ==> !calm) && (last == Lost ==> !calm || d.hub.closed)
    ensures calm && old(HasEnded(Timeline(d, id))) ==>
              Timeline(d, id) == old(Timeline(d, id))
                  && (|seen| + Patience(connections) >= |Timeline(d, id)| ==> got == Timeline(d, id))
  {
    hide EventsFor;
    hide AllCoherent;
    hide Ascending;
    hide NoneFinished;
    hide HasEnded;
    hide Daemon.Valid;
    ghost var t0 := Timeline(d, id);
    var header: Option<int> := None;
    got, last := seen, Left;
    for i := 0 to |connections|
      invariant d.Valid() && seen <= got <= Timeline(d, id) && ResumesAt(header, query, got)
      invariant t0 <= Timeline(d, id) && (last == Ended ==> Everything(d, id, got))
      invariant last != NoContent && (last == Waiting ==> NoneFinished(EventsFor(d.hub.sent, id)))
      invariant (last == StoreFailed ==> !calm) && (last == Lost ==> !calm || d.hub.closed)
      invariant calm && HasEnded(t0) ==>
                  Timeline(d, id) == t0 && (got == t0 || |got| >= |seen| + Patience(connections[..i]))
    {
      Away(d, id);
      StaysEnded(d, id, t0);
      assert connections[..i + 1][..i] == connections[..i];
      last, got, header := Reconnect(d, id, got, header, query, connections[i], calm);
      if last == NoContent {
        return;
      }
    }
    assert connections[..|connections|] == connections;
    assert |got| >= |Timeline(d, id)| ==> got == Timeline(d, id);
  }

  /**
   * The whole sitting. What the viewer has is always a prefix of the stored timeline, each event once
   * and in order. The viewer is sent away, with a page that opens no stream or a 204, only when that is
   * all of it, or when nothing was stored of a deploy whose row is terminal, as `reserve` leaves one it
   * turns away; a stream that closes by itself has always sent the rest.
   */
  method Sitting(d: Daemon, id: int, withPage: bool, connections: seq<nat>, calm: bool)
    returns (last: Response, got: seq<StoredEvent>)
    requires d.Valid() && id in d.rows
    modifies d, d.hub
    ensures d.Valid() && got <= Timeline(d, id)
    ensures last == Ended ==> Everything(d, id, got)
    ensures last == NoContent ==> Everything(d, id, got) || (got == old(Timeline(d, id)) == [] && Closed(d, id))
    ensures last == Waiting ==> NoneFinished(EventsFor(d.hub.sent, id))
    ensures (last == StoreFailed ==> !calm) && (last == Lost ==> !calm || d.hub.closed)
    // The page has all there was; of a finished deploy that is everything.
    ensures withPage ==> old(Timeline(d, id)) <= got
    ensures withPage && old(HasEnded(Timeline(d, id))) ==> last == NoContent && Everything(d, id, got)
    // A viewer of a finished deploy has everything once it has stayed for that many events, over however many
    // connections.
    ensures calm && old(HasEnded(Timeline(d, id))) && Patience(connections) >= old(|Timeline(d, id)|) ==>
              Everything(d, id, got)
  {
    hide EventsFor;
    hide AllCoherent;
    hide Ascending;
    hide NoneFinished;
    hide HasEnded;
    hide Patience;
    hide Daemon.Valid;
    ghost var t0 := Timeline(d, id);
    if HasEnded(t0) {
      EndedIsClosed(d, id);
    }
    var query: Option<int> := None;
    got := [];
    if withPage {
      var live;
      live, got := Page(d, id);
      StaysEnded(d, id, t0);
      query := Some(LastId(got));
      if !live {
        return NoContent, got;
      }
    }
    last, got := Watch(d, id, got, query, connections, calm);
    StaysEnded(d, id, t0);
  }

  /**
   * The exception is real, for any resume point: `reserve` has turned a deploy away and its hook has yet
   * to store the end. What a connection then finds gives a 204, and the event stored next is never sent.
   */
  method TurnedAwayTooSoon(asked: nat) returns (d: Daemon, o: Opening)
    ensures d.Valid() && o == Opening(0, true, []) && o.resume >= LastId(o.backlog)
    ensures o.resume == Min(asked, LastId(o.backlog))
    ensures Everything(d, 1, [StoredEvent(1, Event(1, Finished(Status.Failed)))])
  {
    var end := StoredEvent(1, Event(1, Finished(Status.Failed)));
    OnlyEnd(end);
    hide EventsFor;
    hide AllCoherent;
    d := new Daemon([], map[1 := Status.Failed], 1, 16);
    var backlog := EventsFor(d.log, 1);
    o := Opening(Min(asked, LastId(backlog)), d.rows[1] != InProgress, backlog);
    d.Finish(1, Status.Failed);
    assert d.log == [end];
  }
}
