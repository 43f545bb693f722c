/**
 * The deploy machine beside the streams: what a stream takes for granted of the log, of the rows and of
 * their writers is what every timely run of the machine does.
 */
module Feed {
  import opened Wrappers
  import opened Tables
  import opened Timelines
  import opened Protocol
  import opened Safety
  import opened Daemon

  /** The rows as a stream sees them. */
  function Statuses(t: Tables): map<int, Status> {
    map id | id in t.deploys :: t.deploys[id].status
  }

  /** A well-formed timeline has its end last, and only then an end at all. */
  lemma {:induction false} ShapeEnds(events: seq<StoredEvent>)
    requires ShapeOf(events) != Malformed
    ensures EndsOnce(events) && (HasEnded(events) <==> ShapeOf(events).Closed?)
    ensures ShapeOf(events) == Between(0) ==> events == []
  {
    if events != [] {
      var front := events[..|events| - 1];
      ShapeEnds(front);
      assert forall i | 0 <= i < |front| :: events[i] == front[i];
    }
  }

  /** The row and the timeline of a deploy, in a state where rows, processes and timelines agree. */
  lemma RowFeeds(s: State, id: int)
    requires RowsAgree(s)
    ensures EndsOnce(EventsFor(s.t.events, id)) && RowFits(Statuses(s.t), EventsFor(s.t.events, id), id)
    ensures id in s.t.deploys ==> (HasEnded(EventsFor(s.t.events, id)) <==> Timeline(s.t, id).Closed?)
    ensures id in s.t.deploys && Timeline(s.t, id) == Between(0) ==> EventsFor(s.t.events, id) == []
  {
    if id in s.t.deploys {
      assert RowAgrees(s, id);
      hide Agrees;
      AgreesMeans(s.t.deploys[id], PcOf(s, id), Timeline(s.t, id), Refused(s, id));
      ShapeEnds(EventsFor(s.t.events, id));
    } else {
      NoEvents(s.t.events, id);
    }
  }

  /** In every state of every timely run a daemon finds the log and the rows as its streams need them. */
  lemma DaemonMayStart(s: State)
    requires Reachable(Timely, s)
    ensures Ascending(s.t.events) && s.t.nextEvent >= 1
    ensures forall i | 0 <= i < |s.t.events| :: s.t.events[i].id < s.t.nextEvent
    ensures forall id :: EndsOnce(EventsFor(s.t.events, id)) && RowFits(Statuses(s.t), EventsFor(s.t.events, id), id)
  {
    hide Reachable;
    ReachableRows(s);
    forall id ensures EndsOnce(EventsFor(s.t.events, id)) && RowFits(Statuses(s.t), EventsFor(s.t.events, id), id) {
      hide RowsAgree;
      RowFeeds(s, id);
    }
  }

  /** The event a step of the daemon's surroundings may store. */
  ghost predicate Stores(log: seq<StoredEvent>, rows: map<int, Status>, later: map<int, Status>, e: StoredEvent) {
    var id := e.event.deployId;
    && id in rows
    && match e.event.kind
       case StageEvent(_, _) => rows[id] == InProgress && later == rows
       case Finished(status) => status != InProgress && !HasEnded(EventsFor(log, id)) && later == rows[id := status]
  }

  /** A new row, or one turned away: no event, and none before. */
  ghost predicate SetsRow(log: seq<StoredEvent>, rows: map<int, Status>, later: map<int, Status>, id: int) {
    && EventsFor(log, id) == [] && id in later && later == rows[id := later[id]]
    && (id in rows ==> later[id] != InProgress)
  }

  /**
   * What may happen to log and rows between two steps of a stream: an event is stored, a row is set,
   * or nothing.
   */
  ghost predicate MayBecome(log: seq<StoredEvent>, rows: map<int, Status>, later: seq<StoredEvent>,
      laterRows: map<int, Status>) {
    || (later == log && laterRows == rows)
    || (|later| == |log| + 1 && later == log + [later[|log|]] && Stores(log, rows, laterRows, later[|log|]))
    || (later == log && exists id :: SetsRow(log, rows, laterRows, id))
  }

  /** What a step of a deploy's own process stores, and what it makes of the row's status. */
  lemma OwnStatus(s: State, id: int, act: Act)
    requires id in s.procs && id in s.t.deploys && RowAgrees(s, id) && DoOwn(s, id, act).Some?
    ensures id in DoOwn(s, id, act).value.t.deploys
    ensures var was, now, shape := s.t.deploys[id].status, DoOwn(s, id, act).value.t.deploys[id].status,
              Timeline(s.t, id);
            match Emits(s, id, act)
            case Some(StageEvent(_, _)) => was == InProgress && now == was
            case Some(Finished(status)) => status != InProgress && !shape.Closed? && now == status
            case None => now == was || (shape == Between(0) && now != InProgress)
  {
    hide Timeline;
    hide SlugTaken;
  }

  /** One row's status and at most one event of its deploy. */
  lemma OneRow(t: Tables, u: Tables, id: int, e: Option<EventKind>)
    requires id in t.deploys && id in u.deploys && u.deploys == t.deploys[id := u.deploys[id]]
    requires u.events == t.events + if e.Some? then [StoredEvent(t.nextEvent, Event(id, e.value))] else []
    requires match e
             case Some(StageEvent(_, _)) => Live(t, id) && Live(u, id)
             case Some(Finished(status)) => status != InProgress && !HasEnded(EventsFor(t.events, id))
                 && u.deploys[id].status == status
             case None =>
               || u.deploys[id].status == t.deploys[id].status
               || (EventsFor(t.events, id) == [] && u.deploys[id].status != InProgress)
    ensures MayBecome(t.events, Statuses(t), u.events, Statuses(u))
  {
    hide EventsFor;
    hide HasEnded;
    var rows, later := Statuses(t), Statuses(u);
    assert later == rows[id := u.deploys[id].status];
    if e.None? {
      assert later == rows || SetsRow(t.events, rows, later, id);
    } else {
      assert u.events[|t.events|].event == Event(id, e.value);
    }
  }

  lemma OwnFeeds(s: State, id: int, act: Act)
    requires RowsAgree(s) && id in s.procs && DoOwn(s, id, act).Some?
    ensures var u := DoOwn(s, id, act).value; MayBecome(s.t.events, Statuses(s.t), u.t.events, Statuses(u.t))
  {
    assert RowAgrees(s, id);
    OwnStatus(s, id, act);
    RowFeeds(s, id);
    OwnLog(s, id, act);
    hide *;
    OneRow(s.t, DoOwn(s, id, act).value.t, id, Emits(s, id, act));
  }

  lemma RecoverFeeds(s: State, id: int, status: Status)
    requires RowsAgree(s) && Timely(s, RecFinish(id, status)) && Do(s, RecFinish(id, status)).Some?
    ensures var u := Do(s, RecFinish(id, status)).value; MayBecome(s.t.events, Statuses(s.t), u.t.events, Statuses(u.t))
  {
    RowFeeds(s, id);
    hide RowsAgree;
    hide Timeline;
    hide EventsFor;
    hide MayBecome;
    OneRow(s.t, Do(s, RecFinish(id, status)).value.t, id, Some(Finished(status)));
  }

  lemma CreateFeeds(s: State, app: string, pc: Pc)
    requires RowsAgree(s)
    ensures var u := Create(s, app, pc); MayBecome(s.t.events, Statuses(s.t), u.t.events, Statuses(u.t))
  {
    RowFeeds(s, s.t.nextDeploy);
    NextIsNew(s);
    CreatedStatuses(s.t, app);
    hide RowsAgree;
    hide EventsFor;
    hide Statuses;
    hide RowFits;
    assert SetsRow(s.t.events, Statuses(s.t), Statuses(Create(s, app, pc).t), s.t.nextDeploy);
  }

  lemma CreatedStatuses(t: Tables, app: string)
    ensures Statuses(CreateDeploy(t, app)) == Statuses(t)[t.nextDeploy := InProgress]
    ensures forall id :: id in Statuses(t) <==> id in t.deploys
  {
  }

  lemma NextIsNew(s: State)
    requires RowsAgree(s)
    ensures s.t.nextDeploy !in s.t.deploys && EventsFor(s.t.events, s.t.nextDeploy) == []
  {
    NoEvents(s.t.events, s.t.nextDeploy);
  }

  /** Every timely step of the machine is one of the steps a stream reckons with. */
  lemma StepFeeds(s: State, step: Step)
    requires RowsAgree(s) && Timely(s, step) && Do(s, step).Some?
    ensures var u := Do(s, step).value; MayBecome(s.t.events, Statuses(s.t), u.t.events, Statuses(u.t))
  {
    hide RowsAgree;
    hide DoOwn;
    match step {
      case Own(id, act) => OwnFeeds(s, id, act);
      case RecFinish(id, status) => RecoverFeeds(s, id, status);
      case Reserve(app) => CreateFeeds(s, app, Locking);
      case Refuse(app) => CreateFeeds(s, app, Refusing);
      case _ => assert Statuses(Do(s, step).value.t) == Statuses(s.t);
    }
  }

  lemma StepNumbers(s: State, step: Step)
    requires RowsAgree(s) && Do(s, step).Some?
    ensures var u := Do(s, step).value.t;
            && u.nextEvent == s.t.nextEvent + (|u.events| - |s.t.events|)
            && (|u.events| > |s.t.events| ==> u.events[|s.t.events|].id == s.t.nextEvent)
  {
    match step {
      case Own(id, act) =>
        OwnLog(s, id, act);
      case _ =>
    }
  }

  /** A daemon's surroundings, as streams know them, can make any such change to log and rows. */
  method Follow(d: Daemon, later: seq<StoredEvent>, rows: map<int, Status>)
    requires d.Valid() && MayBecome(d.log, d.rows, later, rows)
    requires |later| > |d.log| ==> later[|d.log|].id == d.nextEvent
    modifies d
    ensures d.Valid() && d.Grown() && d.log == later && d.rows == rows
    ensures d.nextEvent == old(d.nextEvent) + (|later| - |old(d.log)|)
  {
    hide EventsFor;
    hide Daemon.Valid;
    if |later| > |d.log| {
      var e := later[|d.log|];
      match e.event.kind {
        case StageEvent(_, _) => d.Append(e.event);
        case Finished(status) => d.Finish(e.event.deployId, status);
      }
    } else if d.rows != rows {
      var id :| id in rows && (id !in d.rows || d.rows[id] != rows[id]);
      d.SetRow(id, rows[id]);
    }
  }

  /** So they can follow the machine through any timely step. */
  method FollowStep(d: Daemon, s: State, step: Step)
    requires d.Valid() && d.log == s.t.events && d.rows == Statuses(s.t) && d.nextEvent == s.t.nextEvent
    requires RowsAgree(s) && Timely(s, step) && Do(s, step).Some?
    modifies d
    ensures d.Valid() && d.Grown()
    ensures var u := Do(s, step).value.t; d.log == u.events && d.rows == Statuses(u) && d.nextEvent == u.nextEvent
  {
    StepFeeds(s, step);
    StepNumbers(s, step);
    hide *;
    var u := Do(s, step).value.t;
    Follow(d, u.events, Statuses(u));
  }
}
