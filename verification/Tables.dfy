/**
 * The durable tables and what each SQL statement does to them. One statement, or one transaction,
 * is one function from tables to tables; every state machine of this project steps through these.
 */
module Tables {
  import opened Wrappers
  import opened Slugs
  import opened Specs

  datatype Stage = Detect | Build | Secrets | Apply | Route | Healthcheck {
    function Rank(): nat {
      match this
      case Detect => 0
      case Build => 1
      case Secrets => 2
      case Apply => 3
      case Route => 4
      case Healthcheck => 5
    }
  }

  datatype Status = InProgress | Done | RolledBack | Failed

  datatype EventStatus = Started | Succeeded | Broken

  datatype EventKind = StageEvent(stage: Stage, status: EventStatus) | Finished(outcome: Status)

  datatype Event = Event(deployId: int, kind: EventKind)

  datatype StoredEvent = StoredEvent(id: int, event: Event)

  datatype DeployRow = DeployRow(id: int, app: string, stage: Stage, status: Status)

  datatype AppRow = AppRow(slug: string, spec: WorkloadSpec)

  datatype AppConfig = AppConfig(name: string, repoPath: string, route: Option<Specs.Route>)

  datatype Tables = Tables(
    deploys: map<int, DeployRow>,
    nextDeploy: int,
    locks: map<string, int>,
    events: seq<StoredEvent>,
    nextEvent: int,
    apps: map<string, AppRow>,
    configs: map<string, AppConfig>
  )

  /** What SQLite itself keeps: ids are assigned in ascending order and rows carry their id. */
  ghost predicate Consistent(t: Tables) {
    && t.nextDeploy >= 1 && t.nextEvent >= 1
    && (forall id | id in t.deploys :: 1 <= id < t.nextDeploy && t.deploys[id].id == id)
    && (forall i | 0 <= i < |t.events| :: 1 <= t.events[i].id < t.nextEvent)
    && (forall i, j | 0 <= i < j < |t.events| :: t.events[i].id < t.events[j].id)
  }

  // ---- deploys -----------------------------------------------------------------------------

  function CreateDeploy(t: Tables, app: string): Tables {
    t.(deploys := t.deploys[t.nextDeploy := DeployRow(t.nextDeploy, app, Detect, InProgress)],
       nextDeploy := t.nextDeploy + 1)
  }

  predicate Live(t: Tables, id: int) {
    id in t.deploys && t.deploys[id].status == InProgress
  }

  function AdvanceStage(t: Tables, id: int, stage: Stage): Option<Tables> {
    if Live(t, id) then Some(t.(deploys := t.deploys[id := t.deploys[id].(stage := stage)])) else None
  }

  function SetStatus(t: Tables, id: int, status: Status): Tables
    requires id in t.deploys
  {
    t.(deploys := t.deploys[id := t.deploys[id].(status := status)])
  }

  function FinishDeploy(t: Tables, id: int, status: Status): Option<Tables> {
    if id in t.deploys then Some(SetStatus(t, id, status)) else None
  }

  function DropLocksOf(locks: map<string, int>, id: int): map<string, int> {
    map app | app in locks && locks[app] != id :: locks[app]
  }

  function Append(t: Tables, event: Event): Tables {
    t.(events := t.events + [StoredEvent(t.nextEvent, event)], nextEvent := t.nextEvent + 1)
  }

  /** Status, lock and terminal event in one transaction. */
  function FinishWithEvent(t: Tables, id: int, status: Status): Option<Tables> {
    if id in t.deploys then
      var u := SetStatus(t, id, status);
      Some(Append(u.(locks := DropLocksOf(u.locks, id)), Event(id, Finished(status))))
    else None
  }

  /** The in-progress rows with an id from `from` on, ascending. */
  function InProgressFrom(t: Tables, from: int): (rows: seq<DeployRow>)
    decreases t.nextDeploy - from
  {
    if from >= t.nextDeploy then []
    else (if Live(t, from) then [t.deploys[from]] else []) + InProgressFrom(t, from + 1)
  }

  /** The rows in progress with an id from `from` on, each once, in ascending order of id. */
  ghost predicate WorkList(t: Tables, from: int, rows: seq<DeployRow>) {
    && (forall row | row in rows :: from <= row.id && Live(t, row.id) && t.deploys[row.id] == row)
    && (forall i, j | 0 <= i < j < |rows| :: rows[i].id < rows[j].id)
    && (forall id | Live(t, id) && id >= from :: t.deploys[id] in rows)
  }

  lemma WorkListSkips(t: Tables, from: int, rest: seq<DeployRow>)
    requires WorkList(t, from + 1, rest) && !Live(t, from)
    ensures WorkList(t, from, rest)
  {
  }

  lemma WorkListTakes(t: Tables, from: int, rest: seq<DeployRow>)
    requires Consistent(t) && WorkList(t, from + 1, rest) && Live(t, from)
    ensures WorkList(t, from, [t.deploys[from]] + rest)
  {
    var rows := [t.deploys[from]] + rest;
    forall i, j | 0 <= i < j < |rows| ensures rows[i].id < rows[j].id {
      assert rows[j] in rest;
    }
  }

  lemma {:induction false} InProgressFromIsExact(t: Tables, from: int)
    requires Consistent(t) && from >= 1
    ensures WorkList(t, from, InProgressFrom(t, from))
    decreases t.nextDeploy - from
  {
    hide WorkList;
    hide Consistent;
    if from >= t.nextDeploy {
      NoneLeft(t, from);
    } else {
      InProgressFromIsExact(t, from + 1);
      if Live(t, from) {
        WorkListTakes(t, from, InProgressFrom(t, from + 1));
      } else {
        WorkListSkips(t, from, InProgressFrom(t, from + 1));
        assert [] + InProgressFrom(t, from + 1) == InProgressFrom(t, from + 1);
      }
    }
  }

  lemma NoneLeft(t: Tables, from: int)
    requires Consistent(t) && from >= t.nextDeploy
    ensures WorkList(t, from, [])
  {
  }

  function InProgressDeploys(t: Tables): seq<DeployRow> {
    InProgressFrom(t, 1)
  }

  // ---- locks -------------------------------------------------------------------------------

  function AcquireLock(t: Tables, app: string, id: int): Option<Tables> {
    if app in t.locks then None else Some(t.(locks := t.locks[app := id]))
  }

  function ReleaseLock(t: Tables, app: string): Tables {
    t.(locks := t.locks - {app})
  }

  /** The row underneath the lock exists and has finished. */
  predicate Orphaned(t: Tables, app: string)
    requires app in t.locks
  {
    t.locks[app] in t.deploys && t.deploys[t.locks[app]].status != InProgress
  }

  function ReleaseOrphanedLocks(t: Tables): Tables {
    t.(locks := map app | app in t.locks && !Orphaned(t, app) :: t.locks[app])
  }

  /** The orphan pass frees exactly the locks of finished deploys: never a live one, never a dangling one. */
  lemma OrphanPassSparesTheLiving(t: Tables, app: string)
    requires app in t.locks
    ensures app in ReleaseOrphanedLocks(t).locks <==> Live(t, t.locks[app]) || t.locks[app] !in t.deploys
    ensures app in ReleaseOrphanedLocks(t).locks ==> ReleaseOrphanedLocks(t).locks[app] == t.locks[app]
  {
  }

  // ---- events ------------------------------------------------------------------------------

  function EventsFor(events: seq<StoredEvent>, id: int): seq<StoredEvent> {
    if events == [] then []
    else
      var last := events[|events| - 1];
      EventsFor(events[..|events| - 1], id) + (if last.event.deployId == id then [last] else [])
  }

  lemma EventsForPush(events: seq<StoredEvent>, e: StoredEvent, id: int)
    ensures EventsFor(events + [e], id) == EventsFor(events, id) + (if e.event.deployId == id then [e] else [])
  {
    assert (events + [e])[..|events|] == events;
  }

  // ---- apps --------------------------------------------------------------------------------

  function CurrentSpec(t: Tables, name: string): Option<WorkloadSpec> {
    if name in t.apps then Some(t.apps[name].spec) else None
  }

  /** The slug column is unique: another app may not hold the slug. */
  predicate SlugTaken(t: Tables, name: string, slug: string) {
    exists other | other in t.apps :: other != name && t.apps[other].slug == slug
  }

  function PutSpec(t: Tables, name: string, slug: string, spec: WorkloadSpec): Option<Tables> {
    if SlugTaken(t, name, slug) then None else Some(t.(apps := t.apps[name := AppRow(slug, spec)]))
  }

  predicate IsAbsolute(path: string) {
    path != "" && path[0] == '/'
  }

  /** A different registered or deployed name already yields this slug. */
  predicate NameCollides(t: Tables, name: string) {
    exists other | other in t.configs.Keys + t.apps.Keys :: other != name && Slug(other) == Slug(name)
  }

  function RegisterApp(t: Tables, config: AppConfig): Option<Tables> {
    if Slug(config.name) == "" || !IsAbsolute(config.repoPath) || NameCollides(t, config.name) then None
    else Some(t.(configs := t.configs[config.name := config]))
  }
}
