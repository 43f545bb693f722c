/**
 * One connection to a deploy's event stream: subscribe, read the row, read the backlog, then follow
 * the hub, re-reading the log after a lag. It refines the simple thing: the log, filtered by deploy
 * and by id above the resume point.
 */
module Stream {
  import opened Wrappers
  import opened Faults
  import opened Tables
  import opened Hub
  import opened Daemon

  datatype Response =
    | StoreFailed
    | NotFound
    | NoContent
    | Ended
    | Lost
    | Waiting
    | Left

  // ---- the simple thing --------------------------------------------------------------------

  /** How many events of an ascending timeline have an id up to `resume`. */
  function Seen(timeline: seq<StoredEvent>, resume: int): (n: nat)
    ensures n <= |timeline|
  {
    if timeline == [] then 0
    else if timeline[|timeline| - 1].id <= resume then |timeline|
    else Seen(timeline[..|timeline| - 1], resume)
  }

  /** The events above the resume point. */
  function Above(timeline: seq<StoredEvent>, resume: int): seq<StoredEvent> {
    timeline[Seen(timeline, resume)..]
  }

  lemma {:induction false} SeenSplits(timeline: seq<StoredEvent>, resume: int)
    requires Ascending(timeline)
    ensures forall i | 0 <= i < |timeline| :: timeline[i].id <= resume <==> i < Seen(timeline, resume)
  {
    if timeline != [] && timeline[|timeline| - 1].id > resume {
      SeenSplits(timeline[..|timeline| - 1], resume);
    }
  }

  /** The stretch above the resume point is the timeline filtered by id. */
  lemma AboveIsFilter(timeline: seq<StoredEvent>, resume: int, e: StoredEvent)
    requires Ascending(timeline)
    ensures e in Above(timeline, resume) <==> e in timeline && e.id > resume
  {
    SeenSplits(timeline, resume);
    var n := Seen(timeline, resume);
    if e in timeline && e.id > resume {
      var i :| 0 <= i < |timeline| && timeline[i] == e;
      assert Above(timeline, resume)[i - n] == e;
    }
  }

  function LastId(timeline: seq<StoredEvent>): int {
    if timeline == [] then 0 else timeline[|timeline| - 1].id
  }

  /** A resume point that is not ahead of the timeline stays put as the timeline grows. */
  lemma SeenIsStable(a: seq<StoredEvent>, b: seq<StoredEvent>, resume: int)
    requires Ascending(b) && a <= b && resume <= LastId(a)
    ensures Seen(b, resume) == Seen(a, resume)
  {
    SeenSplits(b, resume);
    assert Ascending(a) by {
      assert forall i | 0 <= i < |a| :: a[i] == b[i];
    }
    SeenSplits(a, resume);
  }

  // ---- the join of log and ring ------------------------------------------------------------

  /**
   * How many of a deploy's events this daemon found stored when it started, and how many lie behind
   * the receiver.
   */
  function Behind(log: seq<StoredEvent>, base: nat, sent: seq<StoredEvent>, next: nat, id: int): nat
    requires base <= |log| && next <= |sent|
  {
    |EventsFor(log[..base], id)| + |EventsFor(sent[..next], id)|
  }

  lemma TimelineGrows(a: seq<StoredEvent>, b: seq<StoredEvent>, id: int)
    requires a <= b
    ensures EventsFor(a, id) <= EventsFor(b, id)
  {
    EventsForConcat(a, b[|a|..], id);
    assert b == a + b[|a|..];
  }

  /**
   * The receiver is never ahead of the log, and its next message of the deploy is the event right
   * after those behind it.
   */
  lemma NextInLog(log: seq<StoredEvent>, base: nat, sent: seq<StoredEvent>, rows: map<int, Status>, next: nat, id: int)
    requires base <= |log| && next <= |sent| && Coherent(log, base, sent, rows, id)
    ensures Behind(log, base, sent, next, id) <= |EventsFor(log, id)|
    ensures next < |sent| && sent[next].event.deployId == id ==>
              && Behind(log, base, sent, next, id) < |EventsFor(log, id)|
              && EventsFor(log, id)[Behind(log, base, sent, next, id)] == sent[next]
              && Behind(log, base, sent, next + 1, id) == Behind(log, base, sent, next, id) + 1
    ensures next < |sent| && sent[next].event.deployId != id ==>
              Behind(log, base, sent, next + 1, id) == Behind(log, base, sent, next, id)
  {
    hide EventsFor;
    hide RowFits;
    hide EndsOnce;
    assert log == log[..base] + log[base..];
    EventsForConcat(log[..base], log[base..], id);
    TimelineGrows(sent[..next], sent, id);
    if next < |sent| {
      assert sent[..next + 1] == sent[..next] + [sent[next]];
      EventsForPush(sent[..next], sent[next], id);
      TimelineGrows(sent[..next + 1], sent, id);
      if sent[next].event.deployId == id {
        NextOfPrefix(EventsFor(log[..base], id), EventsFor(log[base..], id), EventsFor(sent, id),
            EventsFor(sent[..next], id), sent[next]);
      }
    }
  }

  lemma NextOfPrefix(before: seq<StoredEvent>, since: seq<StoredEvent>, published: seq<StoredEvent>,
      behind: seq<StoredEvent>, e: StoredEvent)
    requires published <= since && behind + [e] <= published
    ensures |before| + |behind| < |before + since| && (before + since)[|before| + |behind|] == e
  {
    assert (behind + [e])[|behind|] == e;
  }

  /** The first `k` events have been sent or skipped, and `lastSent` says so. */
  ghost predicate Covers(timeline: seq<StoredEvent>, k: nat, lastSent: int) {
    k <= |timeline| && (if k == 0 then lastSent <= 0 else lastSent == timeline[k - 1].id)
  }

  /** The id filter is exactly the split at `k`. */
  lemma FilterIsSplit(timeline: seq<StoredEvent>, k: nat, lastSent: int)
    requires Ascending(timeline) && Covers(timeline, k, lastSent)
    ensures forall i | 0 <= i < |timeline| :: timeline[i].id <= lastSent <==> i < k
  {
  }

  /** What has been sent from position `k` of the timeline on. */
  ghost predicate Continues(timeline: seq<StoredEvent>, k: nat, out: seq<StoredEvent>) {
    k + |out| <= |timeline| && out == timeline[k..k + |out|]
  }

  ghost predicate NoneFinished(events: seq<StoredEvent>) {
    forall i | 0 <= i < |events| :: !IsFinished(events[i])
  }

  // ---- the backlog -------------------------------------------------------------------------

  /** Send the backlog above the resume point; the client leaves exactly when there is more of it than it stays for. */
  method SendBacklog(d: Daemon, id: int, backlog: seq<StoredEvent>, resume: int, patience: nat)
    returns (left: bool, out: seq<StoredEvent>, lastSent: int, ended: bool, budget: nat)
    requires d.Valid() && Ascending(backlog)
    modifies d, d.hub
    ensures d.Valid() && d.Grown()
    ensures left <==> patience < |Above(backlog, resume)|
    ensures out == if left then Above(backlog, resume)[..patience] else Above(backlog, resume)
    ensures budget == patience - |out|
    ensures !left ==> lastSent == (if out == [] then resume else LastId(backlog)) && ended == HasEnded(out)
  {
    SeenSplits(backlog, resume);
    ghost var r0 := Seen(backlog, resume);
    left, out, lastSent, ended, budget := false, [], resume, false, patience;
    for i := 0 to |backlog|
      invariant d.Valid() && d.Grown()
      invariant i <= r0 ==> out == [] && lastSent == resume && !ended
      invariant i > r0 ==> out == backlog[r0..i] && lastSent == backlog[i - 1].id && ended == IsFinished(backlog[i - 1])
      invariant budget == patience - |out|
    {
      var ev := backlog[i];
      if ev.id <= resume {
        continue;
      }
      if budget == 0 {
        return true, out, lastSent, ended, budget;
      }
      budget := budget - 1;
      lastSent := ev.id;
      ended := IsFinished(ev);
      out := out + [ev];
      Interfere(d);
    }
  }

  // ---- after a lag -------------------------------------------------------------------------

  /** Send what a re-read of the log has above the last event sent, stopping at the terminal event. */
  method Resend(d: Daemon, missed: seq<StoredEvent>, sentSoFar: int, patience: nat, ghost k: nat)
    returns (stop: Option<Response>, more: seq<StoredEvent>, lastSent: int, budget: nat)
    requires d.Valid() && Ascending(missed) && Covers(missed, k, sentSoFar)
    modifies d, d.hub
    ensures d.Valid() && d.Grown()
    ensures more <= missed[k..]
    ensures stop.None? ==> more == missed[k..] && Covers(missed, |missed|, lastSent) && NoneFinished(more)
    ensures stop.Some? ==> stop.value == Left || stop.value == Ended
    ensures stop == Some(Ended) ==> HasEnded(more)
    ensures stop == Some(Left) ==> NoneFinished(more)
    ensures budget == patience - |more| && (stop == Some(Left) ==> budget == 0)
  {
    FilterIsSplit(missed, k, sentSoFar);
    stop, more, lastSent, budget := None, [], sentSoFar, patience;
    for i := 0 to |missed|
      invariant d.Valid() && d.Grown() && budget == patience - |more|
      invariant lastSent >= sentSoFar && (forall j | i <= j < |missed| && j >= k :: missed[j].id > lastSent)
      invariant i <= k ==> more == [] && lastSent == sentSoFar
      invariant i > k ==> more == missed[k..i] && lastSent == missed[i - 1].id
      invariant NoneFinished(more)
    {
      var ev := missed[i];
      if ev.id <= lastSent {
        continue;
      }
      if budget == 0 {
        return Some(Left), more, lastSent, budget;
      }
      budget := budget - 1;
      lastSent := ev.id;
      more := more + [ev];
      Interfere(d);
      if IsFinished(ev) {
        return Some(Ended), more, lastSent, budget;
      }
    }
  }

  // ---- following the hub -------------------------------------------------------------------

  /** A deploy's stored events, as of now. */
  ghost function Timeline(d: Daemon, id: int): seq<StoredEvent>
    reads d
  {
    EventsFor(d.log, id)
  }

  /** Everything behind the receiver is among the first `k` events of the deploy. */
  ghost predicate Joined(d: Daemon, next: nat, id: int, k: nat, lastSent: int)
    reads d, d.hub
    requires d.base <= |d.log| && next <= |d.hub.sent|
  {
    Covers(Timeline(d, id), k, lastSent) && Behind(d.log, d.base, d.hub.sent, next, id) <= k
  }

  /** What lies behind the receiver does not change as log and history grow. */
  lemma BehindIsStable(log0: seq<StoredEvent>, log1: seq<StoredEvent>, sent0: seq<StoredEvent>,
      sent1: seq<StoredEvent>, base: nat, next: nat, id: int)
    requires log0 <= log1 && sent0 <= sent1 && base <= |log0| && next <= |sent0|
    ensures Behind(log1, base, sent1, next, id) == Behind(log0, base, sent0, next, id)
    ensures EventsFor(log0, id) <= EventsFor(log1, id)
  {
    TimelineGrows(log0, log1, id);
    assert log0[..base] == log1[..base] && sent0[..next] == sent1[..next];
  }

  /**
   * One message: skipped when it is another deploy's or already covered, otherwise exactly the next
   * event.
   */
  lemma OneMessage(d: Daemon, next: nat, id: int, k: nat, lastSent: int)
    requires d.Valid() && next < |d.hub.sent| && Joined(d, next, id, k, lastSent)
    ensures var ev := d.hub.sent[next];
            if ev.event.deployId != id || ev.id <= lastSent then Joined(d, next + 1, id, k, lastSent)
            else k < |Timeline(d, id)| && Timeline(d, id)[k] == ev && Joined(d, next + 1, id, k + 1, ev.id)
  {
    CoherentAt(d.log, d.base, d.hub.sent, d.rows, id);
    NextInLog(d.log, d.base, d.hub.sent, d.rows, next, id);
    EventsForAscends(d.log, id);
    FilterIsSplit(Timeline(d, id), k, lastSent);
    hide EventsFor;
    hide Ascending;
    hide Coherent;
    hide AllCoherent;
  }

  /** A lag loses nothing: everything behind the receiver's new position is in the log. */
  lemma LagIsCovered(d: Daemon, next: nat, id: int)
    requires d.Valid() && next <= |d.hub.sent|
    ensures Behind(d.log, d.base, d.hub.sent, next, id) <= |Timeline(d, id)|
  {
    CoherentAt(d.log, d.base, d.hub.sent, d.rows, id);
    NextInLog(d.log, d.base, d.hub.sent, d.rows, next, id);
  }

  lemma EndIsLast(d: Daemon, id: int, k: nat)
    requires d.Valid() && 0 < k <= |Timeline(d, id)| && IsFinished(Timeline(d, id)[k - 1])
    ensures k == |Timeline(d, id)|
  {
    CoherentAt(d.log, d.base, d.hub.sent, d.rows, id);
  }

  lemma CoversBound(d: Daemon, next: nat, id: int, k: nat, lastSent: int)
    requires d.Valid() && next <= |d.hub.sent| && Joined(d, next, id, k, lastSent)
    ensures k <= |Timeline(d, id)| && d.base <= |d.log|
  {
  }

  lemma TimelineAscends(d: Daemon, id: int)
    requires d.Valid()
    ensures Ascending(Timeline(d, id))
  {
    EventsForAscends(d.log, id);
  }

  /** Others run; the join stays as it was. */
  method Pause(d: Daemon, ghost next: nat, ghost id: int, ghost k: nat, ghost lastSent: int)
    requires d.Valid() && next <= |d.hub.sent| && Joined(d, next, id, k, lastSent)
    modifies d, d.hub
    ensures d.Valid() && d.Grown() && next <= |d.hub.sent| && Joined(d, next, id, k, lastSent)
    ensures k <= |old(Timeline(d, id))| && old(Timeline(d, id)) <= Timeline(d, id)
  {
    hide EventsFor;
    hide Behind;
    ghost var log0, sent0 := d.log, d.hub.sent;
    Interfere(d);
    BehindIsStable(log0, d.log, sent0, d.hub.sent, d.base, next, id);
  }

  /** The receiver has lagged: re-read the log from the last event sent, as a reconnection would. */
  method Recover(d: Daemon, id: int, sentSoFar: int, patience: nat, calm: bool, ghost next: nat, ghost k: nat)
    returns (stop: Option<Response>, rest: seq<StoredEvent>, lastSent: int, budget: nat)
    requires d.Valid() && next <= |d.hub.sent| && Covers(Timeline(d, id), k, sentSoFar)
    modifies d, d.hub
    ensures d.Valid() && d.Grown() && next <= |d.hub.sent| && budget == patience - |rest|
    ensures (stop == Some(Lost) ==> !calm) && (stop == Some(Left) ==> budget == 0)
    ensures Continues(Timeline(d, id), k, rest) && old(Timeline(d, id)) <= Timeline(d, id)
    ensures stop.None? ==> Joined(d, next, id, k + |rest|, lastSent) && NoneFinished(rest)
    ensures stop.Some? ==> stop.value == Left || stop.value == Lost || stop.value == Ended
    ensures stop.Some? && stop.value != Ended ==> NoneFinished(rest)
    ensures stop == Some(Ended) ==> HasEnded(rest) && k + |rest| == |Timeline(d, id)|
  {
    hide EventsFor;
    hide Behind;
    hide AllCoherent;
    hide Ascending;
    hide Continues;
    hide NoneFinished;
    hide HasEnded;
    ghost var log0 := d.log;
    CoversWithin(Timeline(d, id), k, sentSoFar);
    Interfere(d);
    TimelineGrows(log0, d.log, id);
    NothingSent(Timeline(d, id), k);
    var fault := Strike(calm);
    if !fault.Fine? {
      return Some(Lost), [], sentSoFar, patience;
    }
    var missed := EventsFor(d.log, id);
    ghost var log1, sent1 := d.log, d.hub.sent;
    TimelineAscends(d, id);
    LagIsCovered(d, next, id);
    stop, rest, lastSent, budget := Resend(d, missed, sentSoFar, patience, k);
    BehindIsStable(log1, d.log, sent1, d.hub.sent, d.base, next, id);
    ResentContinues(missed, Timeline(d, id), k, rest);
    if stop == Some(Ended) {
      EndIsLast(d, id, k + |rest|);
    }
  }

  lemma CoversWithin(t: seq<StoredEvent>, k: nat, lastSent: int)
    requires Covers(t, k, lastSent)
    ensures k <= |t|
  {
  }

  lemma ResentContinues(missed: seq<StoredEvent>, t: seq<StoredEvent>, k: nat, rest: seq<StoredEvent>)
    requires k <= |missed| && missed <= t && rest <= missed[k..]
    ensures Continues(t, k, rest) && k + |rest| <= |t|
    ensures HasEnded(rest) ==> k + |rest| > 0 && IsFinished(t[k + |rest| - 1])
    ensures rest == missed[k..] ==> k + |rest| == |missed|
  {
  }

  /** The event just sent continues the timeline, which may have grown since. */
  lemma OneSent(before: seq<StoredEvent>, timeline: seq<StoredEvent>, k: nat, ev: StoredEvent)
    requires k < |before| && before[k] == ev && before <= timeline
    ensures Continues(timeline, k, [ev]) && k < |timeline| && timeline[k] == ev
    ensures HasEnded([ev]) <==> IsFinished(ev)
    ensures NoneFinished([ev]) <==> !IsFinished(ev)
  {
    assert [ev][0] == ev;
  }

  /** A message: skipped when it is another deploy's or was sent before, otherwise sent. */
  method Forward(d: Daemon, id: int, ev: StoredEvent, sentSoFar: int, ghost at: nat, ghost k: nat)
    returns (stop: Option<Response>, more: seq<StoredEvent>, lastSent: int)
    requires d.Valid() && at < |d.hub.sent| && ev == d.hub.sent[at] && Joined(d, at, id, k, sentSoFar)
    modifies d, d.hub
    ensures d.Valid() && d.Grown() && d.base <= |d.log| && at + 1 <= |d.hub.sent|
    ensures Continues(Timeline(d, id), k, more) && old(Timeline(d, id)) <= Timeline(d, id)
    ensures stop == if HasEnded(more) then Some(Ended) else None
    ensures stop.None? ==> Joined(d, at + 1, id, k + |more|, lastSent) && NoneFinished(more)
    ensures stop == Some(Ended) ==> k + |more| == |Timeline(d, id)|
  {
    hide EventsFor;
    hide AllCoherent;
    hide Ascending;
    hide Timeline;
    hide Continues;
    hide HasEnded;
    hide NoneFinished;
    hide Joined;
    stop, more, lastSent := None, [], sentSoFar;
    CoversBound(d, at, id, k, lastSent);
    NothingSent(Timeline(d, id), k);
    OneMessage(d, at, id, k, lastSent);
    if ev.event.deployId != id || ev.id <= lastSent {
      return;
    }
    lastSent := ev.id;
    more := [ev];
    ghost var before := Timeline(d, id);
    Pause(d, at + 1, id, k + 1, lastSent);
    OneSent(before, Timeline(d, id), k, ev);
    if IsFinished(ev) {
      EndIsLast(d, id, k + 1);
      stop := Some(Ended);
    }
  }

  /** One turn of the live loop: what the next item from the hub makes the connection send. */
  method Turn(d: Daemon, rx: Receiver, id: int, sentSoFar: int, patience: nat, calm: bool, ghost k: nat)
    returns (stop: Option<Response>, more: seq<StoredEvent>, lastSent: int, budget: nat)
    requires d.Valid() && rx.next <= |d.hub.sent| && Joined(d, rx.next, id, k, sentSoFar)
    modifies d, d.hub, rx
    ensures d.Valid() && d.Grown() && d.base <= |d.log| && rx.next <= |d.hub.sent|
    ensures old(rx.next) <= rx.next && budget <= patience <= budget + |more|
    ensures stop.None? || stop == Some(Left) ==> old(rx.next) < rx.next
    ensures (stop == Some(Lost) ==> !calm || d.hub.closed) && (stop == Some(Left) ==> budget == 0)
    ensures Continues(Timeline(d, id), k, more) && old(Timeline(d, id)) <= Timeline(d, id)
    ensures stop.None? ==> Joined(d, rx.next, id, k + |more|, lastSent) && NoneFinished(more)
    ensures stop.Some? ==> stop.value == Ended || stop.value == Lost || stop.value == Waiting || stop.value == Left
    ensures stop == Some(Ended) ==> HasEnded(more) && k + |more| == |Timeline(d, id)|
    ensures stop.Some? && stop.value != Ended ==> NoneFinished(more)
    ensures stop == Some(Waiting) ==>
              !d.hub.closed && more == [] && Behind(d.log, d.base, d.hub.sent, |d.hub.sent|, id) <= k
  {
    hide EventsFor;
    hide Covers;
    hide Behind;
    hide AllCoherent;
    hide Ascending;
    hide Timeline;
    hide Continues;
    hide HasEnded;
    hide NoneFinished;
    stop, more, lastSent, budget := None, [], sentSoFar, patience;
    var at := rx.next;
    CoversBound(d, at, id, k, lastSent);
    Pause(d, at, id, k, lastSent);
    NothingSent(Timeline(d, id), k);
    var item := rx.Recv(d.hub);
    match item {
      case Message(ev) =>
        stop, more, lastSent := Forward(d, id, ev, lastSent, at, k);
      case Lagged(_) =>
        stop, more, lastSent, budget := Recover(d, id, lastSent, budget, calm, rx.next, k);
      case Closed => stop := Some(Lost);
      case Empty => stop := Some(Waiting);
    }
  }

  lemma Extended(a: seq<StoredEvent>, b: seq<StoredEvent>, k: nat, out: seq<StoredEvent>, more: seq<StoredEvent>)
    requires a <= b && Continues(a, k, out) && Continues(b, k + |out|, more)
    ensures Continues(b, k, out + more)
    ensures NoneFinished(out) && NoneFinished(more) ==> NoneFinished(out + more)
    ensures HasEnded(more) ==> HasEnded(out + more)
  {
    assert b[k..k + |out|] == a[k..k + |out|];
  }

  lemma NothingSent(timeline: seq<StoredEvent>, k: nat)
    requires k <= |timeline|
    ensures Continues(timeline, k, []) && NoneFinished([]) && !HasEnded([])
  {
  }

  /** Receive, skip, send, recover from lags, until the deploy ends, the hub closes, or the client is gone. */
  method FollowHub(d: Daemon, rx: Receiver, id: int, sentSoFar: int, patience: nat, calm: bool, ghost k0: nat)
    returns (r: Response, out: seq<StoredEvent>)
    requires d.Valid() && rx.next <= |d.hub.sent| && Joined(d, rx.next, id, k0, sentSoFar)
    modifies d, d.hub, rx
    ensures d.Valid() && d.Grown()
    ensures Continues(Timeline(d, id), k0, out)
    ensures r == Ended || r == Lost || r == Waiting || r == Left
    ensures r == Ended ==> HasEnded(out) && k0 + |out| == |Timeline(d, id)|
    ensures r != Ended ==> NoneFinished(out)
    ensures r == Waiting ==> !d.hub.closed && Behind(d.log, d.base, d.hub.sent, |d.hub.sent|, id) <= k0 + |out|
    ensures r == Lost ==> !calm || d.hub.closed
    // The client leaves no sooner than its patience is used up, on messages taken and events sent.
    ensures old(rx.next) <= rx.next <= |d.hub.sent| && (r == Left ==> patience <= rx.next - old(rx.next) + |out|)
  {
    hide Timeline;
    hide Joined;
    hide NoneFinished;
    hide HasEnded;
    hide Continues;
    hide Behind;
    hide EventsFor;
    hide AllCoherent;
    hide Daemon.Valid;
    hide Ascending;
    out := [];
    var lastSent, budget := sentSoFar, patience;
    CoversBound(d, rx.next, id, k0, lastSent);
    NothingSent(Timeline(d, id), k0);
    while budget > 0
      invariant d.Valid() && d.Grown() && d.base <= |d.log| && old(rx.next) <= rx.next <= |d.hub.sent|
      invariant patience <= budget + (rx.next - old(rx.next)) + |out|
      invariant Joined(d, rx.next, id, k0 + |out|, lastSent)
      invariant Continues(Timeline(d, id), k0, out)
      invariant NoneFinished(out)
      decreases budget
    {
      ghost var before := Timeline(d, id);
      var stop, more;
      stop, more, lastSent, budget := Turn(d, rx, id, lastSent, budget - 1, calm, k0 + |out|);
      Extended(before, Timeline(d, id), k0, out, more);
      out := out + more;
      if stop.Some? {
        return stop.value, out;
      }
    }
    return Left, out;
  }

  // ---- one connection ----------------------------------------------------------------------

  /** What a connection found when it opened. */
  datatype Opening = Opening(resume: int, terminal: bool, backlog: seq<StoredEvent>)

  /** The header wins over the query; with neither, everything is wanted. */
  function Asked(header: Option<int>, query: Option<int>): int {
    if header.Some? then header.value else if query.Some? then query.value else 0
  }

  function Min(a: int, b: int): int {
    if a < b then a else b
  }

  /**
   * The deploy ended between the row read and the backlog read, and the client claims to have seen
   * that end.
   */
  predicate Stuck(o: Opening) {
    !o.terminal && HasEnded(o.backlog) && o.resume >= LastId(o.backlog)
  }

  /** Backlog and live part together are one stretch of the timeline. */
  lemma JoinParts(t0: seq<StoredEvent>, t1: seq<StoredEvent>, resume: int, out: seq<StoredEvent>,
      more: seq<StoredEvent>)
    requires Ascending(t1) && t0 <= t1 && resume <= LastId(t0)
    requires out == Above(t0, resume) && Continues(t1, |t0|, more)
    ensures Continues(t1, Seen(t1, resume), out + more)
    ensures Seen(t1, resume) + |out + more| == |t0| + |more|
  {
    SeenIsStable(t0, t1, resume);
  }

  lemma JoinBacklog(t0: seq<StoredEvent>, t1: seq<StoredEvent>, resume: int, out: seq<StoredEvent>)
    requires Ascending(t1) && t0 <= t1 && resume <= LastId(t0) && out <= Above(t0, resume)
    ensures Continues(t1, Seen(t1, resume), out)
  {
    SeenIsStable(t0, t1, resume);
  }

  /** After the backlog the connection covers all of it. */
  lemma BacklogIsCovered(d: Daemon, id: int, t0: seq<StoredEvent>, resume: int, out: seq<StoredEvent>, lastSent: int)
    requires Ascending(t0) && t0 <= Timeline(d, id) && resume <= LastId(t0) && out == Above(t0, resume)
    requires lastSent == if out == [] then resume else LastId(t0)
    ensures Covers(Timeline(d, id), |t0|, lastSent)
  {
    SeenSplits(t0, resume);
  }

  /** A terminal row with events has its terminal event among them. */
  lemma TerminalIsStored(d: Daemon, id: int)
    requires d.Valid() && id in d.rows && d.rows[id] != InProgress
    ensures HasEnded(Timeline(d, id)) || Timeline(d, id) == []
  {
    CoherentAt(d.log, d.base, d.hub.sent, d.rows, id);
  }

  /** A timeline that has ended does not grow. */
  lemma EndedIsFinal(d: Daemon, id: int, t0: seq<StoredEvent>)
    requires d.Valid() && t0 <= Timeline(d, id) && HasEnded(t0)
    ensures Timeline(d, id) == t0
  {
    CoherentAt(d.log, d.base, d.hub.sent, d.rows, id);
    assert IsFinished(Timeline(d, id)[|t0| - 1]);
  }

  /** Waiting with the terminal event published: only a client that claimed it can be in that state. */
  lemma WaitingMeans(d: Daemon, id: int, o: Opening, out: seq<StoredEvent>)
    requires d.Valid() && o.backlog <= Timeline(d, id) && o.resume <= LastId(o.backlog)
    requires Continues(Timeline(d, id), Seen(Timeline(d, id), o.resume), out) && NoneFinished(out)
    requires Behind(d.log, d.base, d.hub.sent, |d.hub.sent|, id) <= Seen(Timeline(d, id), o.resume) + |out|
    requires !o.terminal && !Stuck(o)
    ensures NoneFinished(EventsFor(d.hub.sent, id))
  {
    var t, n := Timeline(d, id), Seen(Timeline(d, id), o.resume);
    TimelineAscends(d, id);
    SeenSplits(t, o.resume);
    CoherentAt(d.log, d.base, d.hub.sent, d.rows, id);
    PublishedInTimeline(d, id);
    var b := |EventsFor(d.log[..d.base], id)|;
    forall i | 0 <= i < |EventsFor(d.hub.sent, id)| ensures !IsFinished(EventsFor(d.hub.sent, id)[i]) {
      assert EventsFor(d.hub.sent, id)[i] == t[b + i];
      assert b + i >= n ==> out[b + i - n] == t[b + i];
    }
  }

  lemma PublishedInTimeline(d: Daemon, id: int)
    requires d.Valid()
    ensures var p, b := EventsFor(d.hub.sent, id), |EventsFor(d.log[..d.base], id)|;
            && Behind(d.log, d.base, d.hub.sent, |d.hub.sent|, id) == b + |p| <= |Timeline(d, id)|
            && forall i | 0 <= i < |p| :: p[i] == Timeline(d, id)[b + i]
  {
    hide EventsFor;
    hide RowFits;
    hide EndsOnce;
    CoherentAt(d.log, d.base, d.hub.sent, d.rows, id);
    hide AllCoherent;
    assert d.log == d.log[..d.base] + d.log[d.base..];
    EventsForConcat(d.log[..d.base], d.log[d.base..], id);
    assert d.hub.sent[..|d.hub.sent|] == d.hub.sent;
  }

  /** The client's resume point is an id this deploy had already stored when it asked. */
  ghost predicate Honest(timeline: seq<StoredEvent>, asked: int) {
    asked <= LastId(timeline)
  }

  /** An honest client is never stuck: the end it has seen was stored, so the row it finds is terminal. */
  lemma HonestIsNotStuck(t0: seq<StoredEvent>, rows0: map<int, Status>, id: int, asked: int, o: Opening)
    requires Ascending(o.backlog) && t0 <= o.backlog && RowFits(rows0, t0, id) && Honest(t0, asked)
    requires id in rows0 && rows0[id] != InProgress ==> o.terminal
    requires o.resume == Min(asked, LastId(o.backlog))
    ensures !Stuck(o)
  {
  }

  /** Subscribe before any read; then the row; then the backlog; then the clamp and the 204. */
  method Open(d: Daemon, id: int, header: Option<int>, query: Option<int>, calm: bool)
    returns (early: Option<Response>, rx: Receiver, o: Opening)
    requires d.Valid()
    modifies d, d.hub
    ensures d.Valid() && d.Grown() && fresh(rx) && rx.next == |old(d.hub.sent)|
    ensures early == Some(StoreFailed) ==> !calm
    ensures early.Some? ==> early.value == NoContent || early.value == StoreFailed || early.value == NotFound
    ensures early == Some(NotFound) ==> id !in old(d.rows)
    ensures early.None? || early.value == NoContent ==>
              && id in d.rows && (o.terminal ==> d.rows[id] != InProgress)
                  && (old(id in d.rows && d.rows[id] != InProgress) ==> o.terminal)
              && o.backlog == Timeline(d, id) && o.resume == Min(Asked(header, query), LastId(o.backlog))
              && (early.Some? <==> o.terminal && o.resume >= LastId(o.backlog))
    ensures old(Timeline(d, id)) <= Timeline(d, id)
    ensures early == Some(StoreFailed) || early == Some(NotFound) ==> o == Opening(0, false, [])
  {
    hide EventsFor;
    hide AllCoherent;
    hide Ascending;
    o := Opening(0, false, []);
    ghost var log0 := d.log;
    rx := new Receiver(d.hub);
    Interfere(d);
    TimelineGrows(log0, d.log, id);
    var fault := Strike(calm);
    if !fault.Fine? {
      return Some(StoreFailed), rx, o;
    }
    if id !in d.rows {
      return Some(NotFound), rx, o;
    }
    var terminal := d.rows[id] != InProgress;
    Interfere(d);
    TimelineGrows(log0, d.log, id);
    fault := Strike(calm);
    if !fault.Fine? {
      return Some(StoreFailed), rx, o;
    }
    var backlog := EventsFor(d.log, id);
    var lastId := LastId(backlog);
    o := Opening(Min(Asked(header, query), lastId), terminal, backlog);
    if terminal && o.resume >= lastId {
      return Some(NoContent), rx, o;
    }
    return None, rx, o;
  }

  lemma OnlyEnd(e: StoredEvent)
    requires e.event.deployId == 1
    ensures EventsFor([e], 1) == [e] && EventsFor([], 1) == []
  {
    EventsForPush([], e, 1);
    assert [] + [e] == [e];
  }

  /** A client resumes at an id nobody has given it, and the deploy ends between the row read and the backlog read. */
  method Overtaken(asked: int) returns (d: Daemon, rx: Receiver, o: Opening)
    requires asked >= 1
    ensures d.Valid() && Stuck(o) && o.backlog == Timeline(d, 1) && o.resume == Min(asked, LastId(o.backlog))
    ensures fresh(d) && fresh(d.hub) && fresh(rx)
    ensures HasEnded(o.backlog) && rx.next <= |d.hub.sent| && Joined(d, rx.next, 1, |o.backlog|, o.resume)
  {
    var end := StoredEvent(1, Event(1, Finished(Status.Done)));
    OnlyEnd(end);
    hide EventsFor;
    hide AllCoherent;
    d := new Daemon([], map[1 := InProgress], 1, 16);
    rx := new Receiver(d.hub);
    var terminal := d.rows[1] != InProgress;
    d.Finish(1, Status.Done);
    assert d.log == [end];
    var backlog := EventsFor(d.log, 1);
    o := Opening(Min(asked, LastId(backlog)), terminal, backlog);
    LagIsCovered(d, rx.next, 1);
  }

  /** The exception is real: such a connection sends nothing and never sees the end. */
  method GuessedResume(asked: int, patience: nat) returns (d: Daemon, o: Opening, r: Response, out: seq<StoredEvent>)
    requires asked >= 1
    ensures d.Valid() && Stuck(o) && o.backlog == Timeline(d, 1) && o.resume == Min(asked, LastId(o.backlog))
    ensures r != Ended && out == []
  {
    hide EventsFor;
    hide Joined;
    hide Stuck;
    hide AllCoherent;
    hide Daemon.Valid;
    var rx;
    d, rx, o := Overtaken(asked);
    ghost var log := d.log;
    r, out := FollowHub(d, rx, 1, o.resume, patience, true, |o.backlog|);
    TimelineGrows(log, d.log, 1);
    EndedIsFinal(d, 1, o.backlog);
  }

  /**
   * Nothing is missing: the deploy has ended and everything above the resume point is out, or the row
   * was found terminal with no event at all, as `reserve` leaves a deploy it turns away.
   */
  ghost predicate Complete(timeline: seq<StoredEvent>, o: Opening, out: seq<StoredEvent>) {
    || (HasEnded(timeline) && out == Above(timeline, o.resume))
    || (o.terminal && o.backlog == [] && out == [])
  }

  /** After the backlog: the deploy has ended, and everything above the resume point is out. */
  lemma ClosedIsComplete(d: Daemon, id: int, t0: seq<StoredEvent>, resume: int, out: seq<StoredEvent>)
    requires d.Valid() && Ascending(t0) && t0 <= Timeline(d, id) && resume <= LastId(t0) && out == Above(t0, resume)
    requires HasEnded(out) || (HasEnded(t0) && resume < LastId(t0))
    ensures out == Above(Timeline(d, id), resume) && HasEnded(out)
  {
    SeenSplits(t0, resume);
    EndedIsFinal(d, id, t0);
  }

  /** Whether by the terminal event or by the row, closing after the backlog misses nothing. */
  lemma CloseAfterBacklog(d: Daemon, id: int, o: Opening, out: seq<StoredEvent>)
    requires d.Valid() && Ascending(o.backlog) && o.backlog <= Timeline(d, id) && o.resume <= LastId(o.backlog)
              && out == Above(o.backlog, o.resume)
    requires HasEnded(out) || o.terminal
    requires o.terminal ==> o.resume < LastId(o.backlog) && (HasEnded(o.backlog) || o.backlog == [])
    ensures Complete(Timeline(d, id), o, out)
  {
    if o.backlog != [] {
      ClosedIsComplete(d, id, o.backlog, o.resume, out);
      EndOfAbove(Timeline(d, id), o.resume);
    }
  }

  lemma EndOfAbove(t: seq<StoredEvent>, resume: int)
    ensures HasEnded(Above(t, resume)) ==> HasEnded(t)
  {
  }

  /** The live part that reaches the end makes the whole reach it. */
  lemma JoinEnds(t: seq<StoredEvent>, resume: int, k: nat, out: seq<StoredEvent>, more: seq<StoredEvent>)
    requires Continues(t, Seen(t, resume), out + more) && Continues(t, k, more)
    requires Seen(t, resume) + |out + more| == k + |more|
    ensures HasEnded(more) && k + |more| == |t| ==> out + more == Above(t, resume) && HasEnded(t)
    ensures HasEnded(more) ==> HasEnded(out + more)
    ensures NoneFinished(more) && !HasEnded(out) && EndsOnce(t) ==> NoneFinished(out + more)
  {
    var n, all := Seen(t, resume), out + more;
    if NoneFinished(more) && !HasEnded(out) && EndsOnce(t) {
      forall i | 0 <= i < |all| ensures !IsFinished(all[i]) {
        assert all[i] == t[n + i];
        assert i >= |out| ==> all[i] == more[i - |out|];
      }
    }
  }

  lemma TimelineEndsOnce(d: Daemon, id: int)
    requires d.Valid()
    ensures EndsOnce(Timeline(d, id))
  {
    CoherentAt(d.log, d.base, d.hub.sent, d.rows, id);
  }

  /**
   * A stream over a terminal row never touches the hub: it sends what it found above the resume point and
   * closes, or as much of that as the client stays for.
   */
  predicate ClosesAtOnce(o: Opening, patience: nat, r: Response, out: seq<StoredEvent>) {
    var all := Above(o.backlog, o.resume);
    if patience < |all| then r == Left && out == all[..patience] else r == Ended && out == all
  }

  /** The backlog, and then the hub unless nothing more can arrive. */
  method Transmit(d: Daemon, rx: Receiver, id: int, o: Opening, patience: nat, calm: bool)
    returns (r: Response, out: seq<StoredEvent>)
    requires d.Valid() && rx.next <= |d.hub.sent| && o.backlog == Timeline(d, id) && o.resume <= LastId(o.backlog)
    requires o.terminal ==> o.resume < LastId(o.backlog) && (HasEnded(o.backlog) || o.backlog == [])
    modifies d, d.hub, rx
    ensures d.Valid() && d.Grown() && o.backlog <= Timeline(d, id)
    ensures Continues(Timeline(d, id), Seen(Timeline(d, id), o.resume), out)
    ensures r == Ended || r == Lost || r == Waiting || r == Left
    ensures r == Ended ==> Complete(Timeline(d, id), o, out)
    ensures r == Ended && !o.terminal ==> HasEnded(out)
    ensures (r == Lost ==> !calm || d.hub.closed) && (r == Waiting ==> !d.hub.closed)
    ensures old(rx.next) <= rx.next <= |d.hub.sent| && (r == Left ==> patience <= rx.next - old(rx.next) + |out|)
    ensures o.terminal ==> ClosesAtOnce(o, patience, r, out)
    ensures r == Waiting ==> !o.terminal && NoneFinished(out)
    ensures r == Waiting ==> Behind(d.log, d.base, d.hub.sent,
              |d.hub.sent|, id) <= Seen(Timeline(d, id), o.resume) + |out|
  {
    hide EventsFor;
    hide AllCoherent;
    hide Ascending;
    hide Behind;
    hide Covers;
    hide Continues;
    hide NoneFinished;
    hide HasEnded;
    hide Seen;
    hide Above;
    ghost var t0, log0, sent0 := Timeline(d, id), d.log, d.hub.sent;
    TimelineAscends(d, id);
    LagIsCovered(d, rx.next, id);
    Interfere(d);
    ghost var log2 := d.log;
    TimelineGrows(log0, log2, id);
    var left, ended, lastSent, budget;
    left, out, lastSent, ended, budget := SendBacklog(d, id, o.backlog, o.resume, patience);
    BehindIsStable(log0, d.log, sent0, d.hub.sent, d.base, rx.next, id);
    TimelineAscends(d, id);
    JoinBacklog(t0, Timeline(d, id), o.resume, out);
    if left {
      return Left, out;
    }
    if ended || o.terminal {
      CloseAfterBacklog(d, id, o, out);
      return Ended, out;
    }
    BacklogIsCovered(d, id, t0, o.resume, out, lastSent);
    ghost var log1 := d.log;
    var more;
    r, more := FollowHub(d, rx, id, lastSent, budget, calm, |t0|);
    TimelineGrows(log1, d.log, id);
    TimelineAscends(d, id);
    JoinParts(t0, Timeline(d, id), o.resume, out, more);
    TimelineEndsOnce(d, id);
    JoinEnds(Timeline(d, id), o.resume, |t0|, out, more);
    out := out + more;
  }

  lemma NothingIsContinues(t: seq<StoredEvent>, resume: int)
    ensures Continues(t, Seen(t, resume), [])
  {
  }

  /** A 204: the row is terminal and the client has everything. */
  lemma NothingAbove(d: Daemon, id: int, resume: int)
    requires d.Valid() && id in d.rows && d.rows[id] != InProgress && resume >= LastId(Timeline(d, id))
    ensures Above(Timeline(d, id), resume) == [] && (HasEnded(Timeline(d, id)) || Timeline(d, id) == [])
  {
    TerminalIsStored(d, id);
  }

  /** A client stuck on an end it claimed receives nothing, however long it waits. */
  lemma StuckGetsNothing(d: Daemon, id: int, o: Opening, out: seq<StoredEvent>)
    requires d.Valid() && o.backlog <= Timeline(d, id) && Stuck(o) && o.resume <= LastId(o.backlog)
    requires Continues(Timeline(d, id), Seen(Timeline(d, id), o.resume), out)
    ensures out == [] && Above(Timeline(d, id), o.resume) == []
  {
    EndedIsFinal(d, id, o.backlog);
  }

  lemma RowFitsAt(d: Daemon, id: int)
    requires d.Valid()
    ensures RowFits(d.rows, Timeline(d, id), id)
  {
    CoherentAt(d.log, d.base, d.hub.sent, d.rows, id);
  }

  /** A deploy that had ended when the client asked: same timeline, terminal row. */
  lemma EndedBefore(t0: seq<StoredEvent>, rows0: map<int, Status>, id: int)
    requires RowFits(rows0, t0, id) && HasEnded(t0)
    ensures id in rows0 && rows0[id] != InProgress
  {
  }

  /** The stream itself, and what it means to be left waiting. */
  method Serve(d: Daemon, rx: Receiver, id: int, o: Opening, patience: nat, calm: bool)
    returns (r: Response, out: seq<StoredEvent>)
    requires d.Valid() && rx.next <= |d.hub.sent| && o.backlog == Timeline(d, id) && o.resume <= LastId(o.backlog)
    requires o.terminal ==> o.resume < LastId(o.backlog) && (HasEnded(o.backlog) || o.backlog == [])
    modifies d, d.hub, rx
    ensures d.Valid() && d.Grown() && o.backlog <= Timeline(d, id)
    ensures Continues(Timeline(d, id), Seen(Timeline(d, id), o.resume), out)
    ensures r == Ended || r == Lost || r == Waiting || r == Left
    ensures r == Ended ==> Complete(Timeline(d, id), o, out)
    ensures r == Waiting && !Stuck(o) ==> NoneFinished(EventsFor(d.hub.sent, id))
    ensures Stuck(o) ==> out == [] && r != Ended
    ensures (r == Lost ==> !calm || d.hub.closed) && (r == Waiting ==> !d.hub.closed)
    ensures old(rx.next) <= rx.next <= |d.hub.sent| && (r == Left ==> patience <= rx.next - old(rx.next) + |out|)
    ensures o.terminal ==> ClosesAtOnce(o, patience, r, out)
  {
    hide EventsFor;
    hide Behind;
    hide AllCoherent;
    hide Ascending;
    hide Continues;
    hide NoneFinished;
    hide Seen;
    hide Above;
    r, out := Transmit(d, rx, id, o, patience, calm);
    if Stuck(o) {
      StuckGetsNothing(d, id, o, out);
    } else if r == Waiting {
      WaitingMeans(d, id, o, out);
    }
  }

  /** The answer for a finished deploy: nothing to send, or the rest of it, or the start of the rest. */
  predicate EndedAnswer(t: seq<StoredEvent>, resume: int, patience: nat, r: Response, out: seq<StoredEvent>) {
    if resume >= LastId(t) then r == NoContent && out == []
    else ClosesAtOnce(Opening(resume, true, t), patience, r, out)
  }

  /**
   * One connection. What it sends is a stretch of the deploy's timeline from the resume point on,
   * without gap or repeat; it closes by itself only when nothing is missing; and once the terminal
   * event has been published it only waits on a client that claimed to have seen it beforehand.
   */
  method EventsSse(d: Daemon, id: int, header: Option<int>, query: Option<int>, patience: nat, calm: bool)
    returns (r: Response, out: seq<StoredEvent>, ghost o: Opening)
    requires d.Valid()
    modifies d, d.hub
    ensures d.Valid() && d.Grown() && old(Timeline(d, id)) <= Timeline(d, id)
    // Refinement: the log filtered by deploy and by id above the resume point, so far.
    ensures Continues(Timeline(d, id), Seen(Timeline(d, id), o.resume), out)
    ensures r == StoreFailed || r == NotFound || o.resume == Min(Asked(header, query), LastId(o.backlog))
    ensures old(Timeline(d, id)) <= o.backlog <= Timeline(d, id) || (out == [] && (r == StoreFailed || r == NotFound))
    ensures r == StoreFailed || r == NotFound ==> out == []
    // Closing by itself means nothing is missing.
    ensures r == NoContent || r == Ended ==> Complete(Timeline(d, id), o, out)
    ensures r == NoContent ==> out == [] && id in d.rows && d.rows[id] != InProgress
    ensures r == Ended ==> !o.terminal || o.resume < LastId(o.backlog)
    // Never waiting forever, and exactly when it would.
    ensures r == Waiting && !Stuck(o) ==> NoneFinished(EventsFor(d.hub.sent, id))
    ensures Stuck(o) ==> out == [] && (r == Waiting || r == Left || r == Lost)
    ensures Honest(old(Timeline(d, id)), Asked(header, query)) ==> !Stuck(o)
    // Nothing but a store that fails, a daemon that goes down or a client that has had enough cuts it short.
    ensures r == StoreFailed ==> !calm
    ensures r == Lost ==> !calm || d.hub.closed
    ensures r == Waiting ==> !d.hub.closed
    ensures r == Left ==> patience <= |out| + (|d.hub.sent| - |old(d.hub.sent)|)
    // A deploy that has ended before: everything above the resume point, as far as the client stays.
    ensures calm && old(HasEnded(Timeline(d, id))) ==>
              EndedAnswer(old(Timeline(d, id)), Min(Asked(header, query), old(LastId(Timeline(d, id)))), patience, r,
                  out)
    // The last reconnection.
    ensures old(HasEnded(Timeline(d, id))) && Asked(header, query) >= old(LastId(Timeline(d, id))) ==>
              r == NoContent || r == StoreFailed
    ensures r == NotFound ==> id !in old(d.rows)
  {
    hide EventsFor;
    hide Behind;
    hide Covers;
    hide AllCoherent;
    hide Ascending;
    hide Continues;
    hide NoneFinished;
    hide Seen;
    hide Above;
    hide HasEnded;
    hide RowFits;
    ghost var t0, rows0 := Timeline(d, id), d.rows;
    RowFitsAt(d, id);
    if HasEnded(t0) {
      EndedBefore(t0, rows0, id);
    }
    var early, rx, opening;
    early, rx, opening := Open(d, id, header, query, calm);
    o := opening;
    TimelineAscends(d, id);
    if HasEnded(t0) {
      EndedIsFinal(d, id, t0);
    }
    if early.None? || early.value == NoContent {
      HonestOrNot(t0, rows0, id, Asked(header, query), opening);
    }
    if early.Some? {
      NothingIsContinues(Timeline(d, id), o.resume);
      NotStuckEarly(opening);
      if early.value == NoContent {
        NothingAbove(d, id, o.resume);
      }
      return early.value, [], o;
    }
    if opening.terminal {
      TerminalIsStored(d, id);
    }
    r, out := Serve(d, rx, id, opening, patience, calm);
  }

  lemma HonestOrNot(t0: seq<StoredEvent>, rows0: map<int, Status>, id: int, asked: int, o: Opening)
    requires Ascending(o.backlog) && t0 <= o.backlog && RowFits(rows0, t0, id)
    requires id in rows0 && rows0[id] != InProgress ==> o.terminal
    requires o.resume == Min(asked, LastId(o.backlog))
    ensures Honest(t0, asked) ==> !Stuck(o)
  {
    if Honest(t0, asked) {
      HonestIsNotStuck(t0, rows0, id, asked, o);
    }
  }

  lemma NotStuckEarly(o: Opening)
    requires o.terminal || o.backlog == []
    ensures !Stuck(o)
  {
  }
}
