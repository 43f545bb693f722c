/**
 * Many processes on one store. Each deploy has one process that steps through reserve, the stages
 * and the terminal write; a reconciler and the orphan pass run beside them; any process can hit a
 * store error or die between any two steps.
 */
module Protocol {
  import opened Wrappers
  import opened Specs
  import opened Slugs
  import opened Tables
  import opened Timelines

  // ---- the machine -------------------------------------------------------------------------

  /** Where the process of one deploy is: the constructor names the step it takes next. */
  datatype Pc =
    | Locking
    | Rejecting
    | Rejected
    | Refusing
    | Queued
    | Advancing(stage: Stage)
    | Starting(stage: Stage)
    | Working(stage: Stage)
    | Succeeding(stage: Stage)
    | Breaking(stage: Stage)
    | Undoing(stage: Stage)
    | Storing
    | Finishing(stage: Stage, status: Status)
    | Releasing

  /** `releases` holds the apps whose lock a reconciler is about to release. */
  datatype State = State(t: Tables, procs: map<int, Pc>, releases: multiset<string>)

  /** What the process of one deploy does next. */
  datatype Act =
    | TryLock
    | Reject
    | HookFinish
    | Go
    | Advance
    | Start
    | Work(ok: bool)
    | Succeed
    | Break
    | Undo(ok: bool)
    | Put(spec: WorkloadSpec)
    | Finish
    | Release
    | Fault
    | Crash

  datatype Step =
    | Reserve(app: string)
    | Refuse(app: string)
    | Own(id: int, act: Act)
    | RecFinish(id: int, status: Status)
    | RecRelease(app: string)
    | RecCrash(app: string)
    | OrphanPass

  function Following(stage: Stage): Stage
    requires stage != Healthcheck
  {
    match stage
    case Detect => Build
    case Build => Secrets
    case Secrets => Stage.Apply
    case Apply => Stage.Route
    case Route => Healthcheck
  }

  function Move(s: State, id: int, pc: Pc): State {
    s.(procs := s.procs[id := pc])
  }

  function Leave(s: State, id: int): State {
    s.(procs := s.procs - {id})
  }

  function StageEventOf(id: int, stage: Stage, status: EventStatus): Event {
    Event(id, StageEvent(stage, status))
  }

  /** Creating a row, with the process that made it. */
  function Create(s: State, app: string, pc: Pc): State {
    State(CreateDeploy(s.t, app), s.procs[s.t.nextDeploy := pc], s.releases)
  }

  /** One step of a deploy's own process. */
  function DoOwn(s: State, id: int, act: Act): Option<State>
    requires id in s.t.deploys && id in s.procs
  {
    var pc, app := s.procs[id], s.t.deploys[id].app;
    match act
    case TryLock =>
      if pc != Locking then None
      else if app in s.t.locks then Some(Move(s, id, Rejecting))
      else Some(Move(s.(t := s.t.(locks := s.t.locks[app := id])), id, Queued))
    case Reject =>
      if pc != Rejecting then None else Some(Move(s.(t := SetStatus(s.t, id, Status.Failed)), id, Rejected))
    case HookFinish =>
      if pc != Queued && pc != Rejected && pc != Refusing then None
      else Some(Leave(s.(t := FinishWithEvent(s.t, id, Status.Failed).value), id))
    case Go =>
      if pc != Queued then None else Some(Move(s, id, Advancing(Detect)))
    case Advance =>
      if !pc.Advancing? then None
      else if Live(s.t, id) then Some(Move(s.(t := AdvanceStage(s.t, id, pc.stage).value), id, Starting(pc.stage)))
      else Some(Move(s, id, Releasing))
    case Start =>
      if !pc.Starting? then None
      else Some(Move(s.(t := Append(s.t, StageEventOf(id, pc.stage, Started))), id, Working(pc.stage)))
    case Work(ok) =>
      if !pc.Working? then None else Some(Move(s, id, if ok then Succeeding(pc.stage) else Breaking(pc.stage)))
    case Succeed =>
      if !pc.Succeeding? then None
      else Some(Move(s.(t := Append(s.t, StageEventOf(id, pc.stage, Succeeded))), id, if pc.stage == Healthcheck
          then Storing else Advancing(Following(pc.stage))))
    case Break =>
      if !pc.Breaking? then None
      else Some(Move(s.(t := Append(s.t, StageEventOf(id, pc.stage, Broken))), id, Undoing(pc.stage)))
    case Undo(ok) =>
      if !pc.Undoing? then None else Some(Move(s, id,
          Finishing(pc.stage, if ok then Status.RolledBack else Status.Failed)))
    case Put(spec) =>
      if pc != Storing then None
      else
        var put := PutSpec(s.t, app, Slug(app), spec);
        Some(if put.Some? then Move(s.(t := put.value), id, Finishing(Healthcheck, Status.Done))
            else Move(s, id, Releasing))
    case Finish =>
      if !pc.Finishing? then None
      else Some(Move(s.(t := FinishWithEvent(s.t, id, pc.status).value), id, Releasing))
    case Release =>
      if pc != Releasing then None else Some(Leave(s.(t := ReleaseLock(s.t, app)), id))
    case Fault =>
      if CanFault(pc) then Some(Move(s, id, Releasing)) else None
    case Crash => Some(Leave(s, id))
  }

  /** A store call that errors ends the stages; the run still releases the lock. */
  predicate CanFault(pc: Pc) {
    pc.Advancing? || pc.Starting? || pc.Succeeding? || pc.Breaking? || pc.Finishing? || pc.Storing?
  }

  /** One step of the system, if it can be taken. */
  function Do(s: State, step: Step): Option<State> {
    match step
    case Reserve(app) => Some(Create(s, app, Locking))
    case Refuse(app) => Some(Create(s, app, Refusing))
    case Own(id, act) => if id in s.procs && id in s.t.deploys then DoOwn(s, id, act) else None
    case RecFinish(id, status) =>
      if id in s.t.deploys && (status == Status.RolledBack || status == Status.Failed) then
        Some(State(FinishWithEvent(s.t, id, status).value, s.procs, s.releases + multiset{s.t.deploys[id].app}))
      else None
    case RecRelease(app) =>
      if app in s.releases then Some(State(ReleaseLock(s.t, app), s.procs, s.releases - multiset{app})) else None
    case RecCrash(app) =>
      if app in s.releases then Some(s.(releases := s.releases - multiset{app})) else None
    case OrphanPass => Some(s.(t := ReleaseOrphanedLocks(s.t)))
  }

  // ---- the invariant: rows, processes and timelines ----------------------------------------

  /** The row is in progress at `stage`, with this timeline. */
  predicate At(row: DeployRow, stage: Stage, shape: Shape, expected: Shape) {
    row.status == InProgress && row.stage == stage && shape == expected
  }

  /**
   * How a row, its process and its timeline go together; `refused` when the store would refuse the
   * app's spec.
   */
  predicate Agrees(row: DeployRow, pc: Option<Pc>, shape: Shape, refused: bool) {
    match pc
    case None => if row.status == InProgress then Stranded(row, shape) else Over(row, shape)
    case Some(p) =>
      match p
      case Locking => Fresh(row, shape)
      case Rejecting => Fresh(row, shape)
      case Refusing => Fresh(row, shape)
      case Queued => Fresh(row, shape)
      case Rejected => TurnedAway(row, shape)
      case Advancing(stage) =>
        if row.status != InProgress then Concluded(row, shape)
        else if stage == Detect then Fresh(row, shape)
        else row.stage.Rank() + 1 == stage.Rank() && shape == Between(stage.Rank())
      case Starting(stage) => At(row, stage, shape, Between(stage.Rank()))
      case Working(stage) => At(row, stage, shape, Open(stage.Rank()))
      case Succeeding(stage) => At(row, stage, shape, Open(stage.Rank()))
      case Breaking(stage) => At(row, stage, shape, Open(stage.Rank()))
      case Undoing(stage) => At(row, stage, shape, Halted(stage.Rank()))
      case Storing => if row.status != InProgress then refused
          && Concluded(row, shape) else At(row, Healthcheck, shape, Between(6))
      case Finishing(stage, status) =>
        if status == Status.Done then At(row, Healthcheck, shape, Between(6))
        else At(row, stage, shape, Halted(stage.Rank())) && status != InProgress
      case Releasing => if row.status == InProgress then Stranded(row, shape) else Concluded(row, shape)
  }

  function PcOf(s: State, id: int): Option<Pc> {
    if id in s.procs then Some(s.procs[id]) else None
  }

  /** Another app holds the slug of this deploy's app, so its spec cannot be stored. */
  predicate Refused(s: State, id: int)
    requires id in s.t.deploys
  {
    SlugTaken(s.t, s.t.deploys[id].app, Slug(s.t.deploys[id].app))
  }

  ghost predicate RowAgrees(s: State, id: int)
    requires id in s.t.deploys
  {
    Agrees(s.t.deploys[id], PcOf(s, id), Timeline(s.t, id), Refused(s, id))
  }

  /** Specs are stored under the slug of their own app. */
  ghost predicate SlugsOwn(t: Tables) {
    forall app | app in t.apps :: t.apps[app].slug == Slug(app)
  }

  ghost predicate RowsAgree(s: State) {
    && Consistent(s.t)
    && s.procs.Keys <= s.t.deploys.Keys
    && SlugsOwn(s.t)
    && (forall i | 0 <= i < |s.t.events| :: s.t.events[i].event.deployId in s.t.deploys)
    && (forall id | id in s.t.deploys :: RowAgrees(s, id))
  }

  // ---- the steps that keep it --------------------------------------------------------------

  /** A process that will still store an event, whatever becomes of its row. */
  predicate Speaking(s: State, id: int) {
    && id in s.procs && id in s.t.deploys && !s.procs[id].Advancing? && s.procs[id] != Releasing
    && !(s.procs[id] == Storing && Refused(s, id))
  }

  /**
   * What the timelines ask of a reconciler: it ends a deploy that has no end yet and whose process has
   * nothing more to say, because it is gone, leaving, between two stages, or about to be refused.
   */
  predicate Timely(s: State, step: Step) {
    step.RecFinish? ==> !Timeline(s.t, step.id).Closed? && !Speaking(s, step.id)
  }

  /** A step of one process changes no other row, process or timeline. */
  lemma OthersUnmoved(s: State, id: int, act: Act, k: int)
    requires id in s.procs && id in s.t.deploys && DoOwn(s, id, act).Some? && k != id
    ensures var u := DoOwn(s, id, act).value;
            && u.t.deploys.Keys == s.t.deploys.Keys
            && (k in s.t.deploys ==> u.t.deploys[k] == s.t.deploys[k])
            && PcOf(u, k) == PcOf(s, k) && Timeline(u.t, k) == Timeline(s.t, k)
            && u.releases == s.releases
  {
    hide Timeline;
    hide DoOwn;
    hide Emits;
    OwnLog(s, id, act);
    OwnProcs(s, id, act);
    EventTimelines(s, id, act, k);
  }

  /** The event each step stores, if any. */
  function Emits(s: State, id: int, act: Act): Option<EventKind>
    requires id in s.procs
  {
    var pc := s.procs[id];
    match act
    case HookFinish => Some(Finished(Status.Failed))
    case Start => if pc.Starting? then Some(StageEvent(pc.stage, Started)) else None
    case Succeed => if pc.Succeeding? then Some(StageEvent(pc.stage, Succeeded)) else None
    case Break => if pc.Breaking? then Some(StageEvent(pc.stage, Broken)) else None
    case Finish => if pc.Finishing? then Some(Finished(pc.status)) else None
    case _ => None
  }

  lemma LogTimelines(t: Tables, u: Tables, id: int, e: Option<EventKind>, k: int)
    requires u.events == t.events + if e.Some? then [StoredEvent(t.nextEvent, Event(id, e.value))] else []
    ensures Timeline(u, k) == if k == id && e.Some? then Extend(Timeline(t, id), e.value) else Timeline(t, k)
  {
    hide Extend;
    if e.Some? {
      TimelinePush(t, Event(id, e.value), k);
    } else {
      assert u.events == t.events;
    }
  }

  lemma EventTimelines(s: State, id: int, act: Act, k: int)
    requires id in s.procs && id in s.t.deploys && DoOwn(s, id, act).Some?
    ensures var u := DoOwn(s, id, act).value;
            Timeline(u.t, k) == if k == id && Emits(s, id, act).Some? then Extend(Timeline(s.t, id),
              Emits(s, id, act).value) else Timeline(s.t, k)
  {
    OwnLog(s, id, act);
    hide *;
    LogTimelines(s.t, DoOwn(s, id, act).value.t, id, Emits(s, id, act), k);
  }

  lemma CrashAgrees(row: DeployRow, pc: Pc, shape: Shape, refused: bool)
    requires Agrees(row, Some(pc), shape, refused)
    ensures Agrees(row, None, shape, refused)
    ensures CanFault(pc) ==> Agrees(row, Some(Releasing), shape, refused)
  {
  }

  lemma FinishAgrees(row: DeployRow, pc: Pc, shape: Shape, status: Status, refused: bool)
    requires Agrees(row, Some(pc), shape, refused) && status != InProgress
    requires pc.Finishing? || pc.Queued? || pc.Rejected? || pc.Refusing?
    requires if pc.Finishing? then status == pc.status else status == Status.Failed
    ensures Agrees(row.(status := status), None, Extend(shape, Finished(status)), refused)
    ensures Agrees(row.(status := status), Some(Releasing), Extend(shape, Finished(status)), refused)
  {
  }

  predicate Ending(act: Act) {
    act.Crash? || act.Fault? || act.Finish? || act.HookFinish?
  }

  lemma EndingAgrees(s: State, id: int, act: Act)
    requires id in s.procs && id in s.t.deploys && DoOwn(s, id, act).Some? && RowAgrees(s, id) && Ending(act)
    ensures id in DoOwn(s, id, act).value.t.deploys && RowAgrees(DoOwn(s, id, act).value, id)
  {
    hide Timeline;
    hide Agrees;
    hide Extend;
    var row, pc, shape, refused := s.t.deploys[id], s.procs[id], Timeline(s.t, id), Refused(s, id);
    EventTimelines(s, id, act, id);
    match act {
      case Finish =>
        FinishIsTerminal(row, pc, shape, refused);
        FinishAgrees(row, pc, shape, pc.status, refused);
      case HookFinish => FinishAgrees(row, pc, shape, Status.Failed, refused);
      case _ => CrashAgrees(row, pc, shape, refused);
    }
  }

  lemma FinishIsTerminal(row: DeployRow, pc: Pc, shape: Shape, refused: bool)
    requires Agrees(row, Some(pc), shape, refused)
    ensures pc.Finishing? ==> pc.status != InProgress
  {
  }

  predicate Telling(act: Act) {
    act.Start? || act.Succeed? || act.Break?
  }

  lemma TellingAgrees(s: State, id: int, act: Act)
    requires id in s.procs && id in s.t.deploys && DoOwn(s, id, act).Some? && RowAgrees(s, id) && Telling(act)
    ensures id in DoOwn(s, id, act).value.t.deploys && RowAgrees(DoOwn(s, id, act).value, id)
  {
    hide Timeline;
    EventTimelines(s, id, act, id);
  }

  lemma SteppingAgrees(s: State, id: int, act: Act)
    requires id in s.procs && id in s.t.deploys && DoOwn(s, id, act).Some? && RowAgrees(s, id) && !Ending(act)
              && !Telling(act)
    ensures id in DoOwn(s, id, act).value.t.deploys && RowAgrees(DoOwn(s, id, act).value, id)
  {
    hide Timeline;
    hide SlugTaken;
    hide Extend;
    EventTimelines(s, id, act, id);
  }

  /** A step of one process moves or ends that process and no other. */
  lemma OwnProcs(s: State, id: int, act: Act)
    requires id in s.procs && id in s.t.deploys && DoOwn(s, id, act).Some?
    ensures var u := DoOwn(s, id, act).value;
            u.releases == s.releases && u.procs == if id in u.procs then s.procs[id := u.procs[id]] else s.procs - {id}
  {
    hide SlugTaken;
  }

  lemma AppendTables(t: Tables, u: Tables, event: Event)
    requires Consistent(t) && event.deployId in t.deploys && u.deploys.Keys == t.deploys.Keys
              && u.nextDeploy == t.nextDeploy
    requires forall id | id in t.deploys :: u.deploys[id].id == t.deploys[id].id
    requires forall i | 0 <= i < |t.events| :: t.events[i].event.deployId in t.deploys
    requires u.events == t.events + [StoredEvent(t.nextEvent, event)] && u.nextEvent == t.nextEvent + 1
    ensures Consistent(u) && forall i | 0 <= i < |u.events| :: u.events[i].event.deployId in u.deploys
  {
  }

  /** What a step of a deploy's own process does to the log and to the row ids. */
  lemma OwnLog(s: State, id: int, act: Act)
    requires id in s.procs && id in s.t.deploys && DoOwn(s, id, act).Some?
    ensures var u, e := DoOwn(s, id, act).value.t, Emits(s, id, act);
            && u.events == s.t.events + (if e.Some? then [StoredEvent(s.t.nextEvent, Event(id, e.value))] else [])
            && u.nextEvent == s.t.nextEvent + (if e.Some? then 1 else 0)
            && u.nextDeploy == s.t.nextDeploy
            && id in u.deploys && u.deploys == s.t.deploys[id := u.deploys[id]]
                && u.deploys[id].id == s.t.deploys[id].id
                && u.deploys[id].app == s.t.deploys[id].app
  {
    hide SlugTaken;
  }

  lemma OwnTables(s: State, id: int, act: Act)
    requires RowsAgree(s) && id in s.procs && DoOwn(s, id, act).Some?
    ensures var u := DoOwn(s, id, act).value;
            Consistent(u.t) && forall i | 0 <= i < |u.t.events| :: u.t.events[i].event.deployId in u.t.deploys
  {
    hide RowAgrees;
    hide DoOwn;
    hide Emits;
    OwnLog(s, id, act);
    if Emits(s, id, act).Some? {
      hide Consistent;
      AppendTables(s.t, DoOwn(s, id, act).value.t, Event(id, Emits(s, id, act).value));
    }
  }

  /** A slug that is taken stays taken. */
  lemma OwnApps(s: State, id: int, act: Act)
    requires SlugsOwn(s.t) && id in s.procs && id in s.t.deploys && DoOwn(s, id, act).Some?
    ensures SlugsOwn(DoOwn(s, id, act).value.t)
    ensures forall name, slug | SlugTaken(s.t, name, slug) :: SlugTaken(DoOwn(s, id, act).value.t, name, slug)
  {
    hide SlugTaken;
    var u, app := DoOwn(s, id, act).value, s.t.deploys[id].app;
    if u.t.apps == s.t.apps {
      forall name, slug | SlugTaken(s.t, name, slug) ensures SlugTaken(u.t, name, slug) {
        SameSlugs(s.t, u.t, name, slug);
      }
    } else {
      StoredSlugs(s.t, u.t, app);
    }
  }

  lemma SameSlugs(t: Tables, u: Tables, name: string, slug: string)
    requires u.apps == t.apps && SlugTaken(t, name, slug)
    ensures SlugTaken(u, name, slug)
  {
  }

  lemma StoredSlugs(t: Tables, u: Tables, app: string)
    requires SlugsOwn(t) && app in u.apps && u.apps == t.apps[app := u.apps[app]] && u.apps[app].slug == Slug(app)
    ensures SlugsOwn(u) && forall name, slug | SlugTaken(t, name, slug) :: SlugTaken(u, name, slug)
  {
    forall name, slug | SlugTaken(t, name, slug) ensures SlugTaken(u, name, slug) {
      var other :| other in t.apps && other != name && t.apps[other].slug == slug;
      assert other in u.apps && u.apps[other].slug == slug;
    }
  }

  lemma OwnRows(s: State, id: int, act: Act)
    requires RowsAgree(s) && id in s.procs && DoOwn(s, id, act).Some?
    ensures RowsAgree(DoOwn(s, id, act).value)
  {
    hide Timeline;
    hide Agrees;
    hide DoOwn;
    hide Consistent;
    var u := DoOwn(s, id, act).value;
    assert RowAgrees(s, id);
    OwnLog(s, id, act);
    OwnProcs(s, id, act);
    OwnTables(s, id, act);
    OwnApps(s, id, act);
    if Ending(act) {
      EndingAgrees(s, id, act);
    } else if Telling(act) {
      TellingAgrees(s, id, act);
    } else {
      SteppingAgrees(s, id, act);
    }
    forall k | k in u.t.deploys ensures RowAgrees(u, k) {
      assert RowAgrees(s, k);
      if k != id {
        OthersUnmoved(s, id, act, k);
        RefusedStays(s.t.deploys[k], PcOf(s, k), Timeline(s.t, k), Refused(s, k), Refused(u, k));
      }
    }
  }

  lemma RefusedStays(row: DeployRow, pc: Option<Pc>, shape: Shape, refused: bool, still: bool)
    requires Agrees(row, pc, shape, refused) && (refused ==> still)
    ensures Agrees(row, pc, shape, still)
  {
  }

  lemma CreateRows(s: State, app: string, pc: Pc)
    requires RowsAgree(s) && (pc == Locking || pc == Refusing)
    ensures RowsAgree(Create(s, app, pc))
  {
    var u, id := Create(s, app, pc), s.t.nextDeploy;
    NewRowAgrees(s, app, pc);
    forall k | k in u.t.deploys && k != id ensures RowAgrees(u, k) {
      assert RowAgrees(s, k);
      hide Agrees;
      hide Timeline;
    }
    hide Agrees;
    hide Timeline;
  }

  lemma NewRowAgrees(s: State, app: string, pc: Pc)
    requires RowsAgree(s) && (pc == Locking || pc == Refusing)
    ensures RowAgrees(Create(s, app, pc), s.t.nextDeploy)
  {
    NoEvents(s.t.events, s.t.nextDeploy);
  }

  /**
   * A terminal event of somebody else's fits a deploy without one whose process has nothing to say,
   * and no other.
   */
  lemma RecoverAgrees(row: DeployRow, pc: Option<Pc>, shape: Shape, status: Status, refused: bool)
    requires Agrees(row, pc, shape, refused) && (status == Status.RolledBack || status == Status.Failed)
    ensures Agrees(row.(status := status), pc, Extend(shape, Finished(status)), refused)
            <==> (&& !shape.Closed?
                  && (|| pc.None? || pc.value.Advancing? || pc.value == Releasing
                      || (pc.value == Storing && refused)))
  {
  }

  lemma RecoverRows(s: State, id: int, status: Status)
    requires RowsAgree(s) && Do(s, RecFinish(id, status)).Some?
    ensures RowsAgree(Do(s, RecFinish(id, status)).value) <==> Timely(s, RecFinish(id, status))
  {
    hide Timeline;
    hide Agrees;
    var u := Do(s, RecFinish(id, status)).value;
    assert RowAgrees(s, id);
    FinishTimeline(s.t, id, status, id);
    RecoverAgrees(s.t.deploys[id], PcOf(s, id), Timeline(s.t, id), status, Refused(s, id));
    assert RowAgrees(u, id) <==> Timely(s, RecFinish(id, status));
    forall k | k in u.t.deploys && k != id ensures RowAgrees(u, k) {
      assert RowAgrees(s, k);
      FinishTimeline(s.t, id, status, k);
    }
  }

  lemma LockRows(s: State, u: State)
    requires RowsAgree(s) && u.t == s.t.(locks := u.t.locks) && u.procs == s.procs
    ensures RowsAgree(u)
  {
    forall k | k in u.t.deploys ensures RowAgrees(u, k) {
      assert RowAgrees(s, k);
    }
  }

  /**
   * The timely steps are exactly those that keep rows, processes and timelines in agreement; locks
   * play no part.
   */
  lemma RowsStep(s: State, step: Step)
    requires RowsAgree(s) && Do(s, step).Some?
    ensures RowsAgree(Do(s, step).value) <==> Timely(s, step)
  {
    hide RowsAgree;
    hide DoOwn;
    match step {
      case Reserve(app) => CreateRows(s, app, Locking);
      case Refuse(app) => CreateRows(s, app, Refusing);
      case Own(id, act) => OwnRows(s, id, act);
      case RecFinish(id, status) => RecoverRows(s, id, status);
      case _ => LockRows(s, Do(s, step).value);
    }
  }
}
