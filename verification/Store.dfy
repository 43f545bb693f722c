/**
 * The store as the program uses it: an object whose methods each run one statement or transaction.
 * A statement can fail without effect; a process can die just before or just after it commits.
 */
module Store {
  import opened Wrappers
  import opened Specs
  import opened Faults
  import T = Tables

  class Store {
    var deploys: map<int, T.DeployRow>
    var nextDeploy: int
    var locks: map<string, int>
    var events: seq<T.StoredEvent>
    var nextEvent: int
    var apps: map<string, T.AppRow>
    var configs: map<string, T.AppConfig>
    const calm: bool

    constructor (calm: bool)
      ensures this.calm == calm
      ensures State() == T.Tables(map[], 1, map[], [], 1, map[], map[])
    {
      this.calm := calm;
      deploys, nextDeploy, locks, events, nextEvent, apps, configs := map[], 1, map[], [], 1, map[], map[];
    }

    function State(): T.Tables
      reads this
    {
      T.Tables(deploys, nextDeploy, locks, events, nextEvent, apps, configs)
    }

    /** Create an in-progress row at the first stage. */
    method CreateDeploy(app: string) returns (r: Io<int>)
      modifies this
      ensures r.Ok? ==> r.value == old(nextDeploy) && State() == T.CreateDeploy(old(State()), app)
      ensures r.Err? ==> State() == old(State())
      ensures r.Crash? ==> State() == old(State()) || State() == T.CreateDeploy(old(State()), app)
      ensures calm ==> r.Ok?
    {
      var fault := Strike(calm);
      if fault.Err() { return Err; }
      if fault.CrashBefore? || fault.CrashMidway? { return Crash; }
      deploys := deploys[nextDeploy := T.DeployRow(nextDeploy, app, T.Detect, T.InProgress)];
      nextDeploy := nextDeploy + 1;
      if fault.CrashAfter? { return Crash; }
      return Ok(nextDeploy - 1);
    }

    /** Move a row to `stage`, only while it is in progress. */
    method AdvanceStage(id: int, stage: T.Stage) returns (r: Io<()>)
      modifies this
      ensures r.Ok? ==> T.AdvanceStage(old(State()), id, stage) == Some(State())
      ensures r.Err? ==> State() == old(State())
      ensures r.Crash? ==> State() == old(State()) || T.AdvanceStage(old(State()), id, stage) == Some(State())
      ensures calm && T.Live(old(State()), id) ==> r.Ok?
    {
      var fault := Strike(calm);
      if fault.Err() { return Err; }
      if fault.CrashBefore? || fault.CrashMidway? { return Crash; }
      if id !in deploys || deploys[id].status != T.InProgress { return Err; }
      deploys := deploys[id := deploys[id].(stage := stage)];
      return if fault.CrashAfter? then Crash else Ok(());
    }

    /** Set a terminal status, with no guard on the row being in progress. */
    method FinishDeploy(id: int, status: T.Status) returns (r: Io<()>)
      modifies this
      ensures r.Ok? ==> T.FinishDeploy(old(State()), id, status) == Some(State())
      ensures r.Err? ==> State() == old(State())
      ensures r.Crash? ==> State() == old(State()) || T.FinishDeploy(old(State()), id, status) == Some(State())
      ensures calm && id in old(deploys) ==> r.Ok?
    {
      var fault := Strike(calm);
      if fault.Err() { return Err; }
      if fault.CrashBefore? || fault.CrashMidway? { return Crash; }
      if id !in deploys { return Err; }
      deploys := deploys[id := deploys[id].(status := status)];
      return if fault.CrashAfter? then Crash else Ok(());
    }

    /** Status, lock release and terminal event, all or nothing. */
    method FinishDeployWithEvent(id: int, status: T.Status) returns (r: Io<T.StoredEvent>)
      modifies this
      ensures r.Ok? ==> T.FinishWithEvent(old(State()), id, status) == Some(State())
      ensures r.Ok? ==> r.value == T.StoredEvent(old(nextEvent), T.Event(id, T.Finished(status)))
      ensures r.Err? ==> State() == old(State())
      ensures r.Crash? ==> State() == old(State()) || T.FinishWithEvent(old(State()), id, status) == Some(State())
      ensures calm && id in old(deploys) ==> r.Ok?
    {
      var fault := Strike(calm);
      if fault.Err() { return Err; }
      if fault.CrashBefore? || fault.CrashMidway? { return Crash; }
      if id !in deploys { return Err; }
      deploys := deploys[id := deploys[id].(status := status)];
      locks := map app | app in locks && locks[app] != id :: locks[app];
      var stored := T.StoredEvent(nextEvent, T.Event(id, T.Finished(status)));
      events := events + [stored];
      nextEvent := nextEvent + 1;
      return if fault.CrashAfter? then Crash else Ok(stored);
    }

    /** The rows in progress, by id. */
    method InProgressDeploys() returns (r: Io<seq<T.DeployRow>>)
      ensures r.Ok? ==> r.value == T.InProgressDeploys(State())
      ensures calm ==> r.Ok?
    {
      var fault := Strike(calm);
      if fault.Err() { return Err; }
      if !fault.Fine? { return Crash; }
      var rows := [];
      var id := nextDeploy;
      while id > 1
        invariant rows == T.InProgressFrom(State(), id)
        invariant id >= 1 || id == nextDeploy
        decreases id
      {
        id := id - 1;
        if id in deploys && deploys[id].status == T.InProgress {
          rows := [deploys[id]] + rows;
        }
      }
      assert id < 1 ==> T.InProgressFrom(State(), id) == [] == T.InProgressFrom(State(), 1);
      return Ok(rows);
    }

    /** Insert the lock row; a held lock is reported, not an error. */
    method AcquireLock(app: string, id: int) returns (r: Io<bool>)
      modifies this
      ensures r.Ok? && r.value ==> T.AcquireLock(old(State()), app, id) == Some(State())
      ensures r.Ok? && !r.value ==> State() == old(State()) && T.AcquireLock(old(State()), app, id) == None
      ensures r.Err? ==> State() == old(State())
      ensures r.Crash? ==> State() == old(State()) || T.AcquireLock(old(State()), app, id) == Some(State())
      ensures calm ==> r.Ok?
    {
      var fault := Strike(calm);
      if fault.Err() { return Err; }
      if fault.CrashBefore? || fault.CrashMidway? { return Crash; }
      if app in locks {
        return if fault.CrashAfter? then Crash else Ok(false);
      }
      locks := locks[app := id];
      return if fault.CrashAfter? then Crash else Ok(true);
    }

    /** Delete the app's lock, whoever holds it. */
    method ReleaseLock(app: string) returns (r: Io<()>)
      modifies this
      ensures r.Ok? ==> State() == T.ReleaseLock(old(State()), app)
      ensures r.Err? ==> State() == old(State())
      ensures r.Crash? ==> State() == old(State()) || State() == T.ReleaseLock(old(State()), app)
      ensures calm ==> r.Ok?
    {
      var fault := Strike(calm);
      if fault.Err() { return Err; }
      if fault.CrashBefore? || fault.CrashMidway? { return Crash; }
      locks := locks - {app};
      return if fault.CrashAfter? then Crash else Ok(());
    }

    /** Delete every lock whose deploy has finished; returns the apps freed. */
    method ReleaseOrphanedLocks() returns (r: Io<set<string>>)
      modifies this
      ensures r.Ok? ==> State() == T.ReleaseOrphanedLocks(old(State())) && r.value == old(locks).Keys - locks.Keys
      ensures r.Err? ==> State() == old(State())
      ensures r.Crash? ==> State() == old(State()) || State() == T.ReleaseOrphanedLocks(old(State()))
      ensures calm ==> r.Ok?
    {
      var fault := Strike(calm);
      if fault.Err() { return Err; }
      if fault.CrashBefore? || fault.CrashMidway? { return Crash; }
      var held := locks;
      locks := map app | app in held && !(held[app] in deploys && deploys[held[app]].status != T.InProgress) ::
          held[app];
      return if fault.CrashAfter? then Crash else Ok(held.Keys - locks.Keys);
    }

    /** Insert one event; the id comes from the insert. */
    method AppendEvent(event: T.Event) returns (r: Io<T.StoredEvent>)
      modifies this
      ensures r.Ok? ==> State() == T.Append(old(State()), event) && r.value == T.StoredEvent(old(nextEvent), event)
      ensures r.Err? ==> State() == old(State())
      ensures r.Crash? ==> State() == old(State()) || State() == T.Append(old(State()), event)
      ensures calm ==> r.Ok?
    {
      var fault := Strike(calm);
      if fault.Err() { return Err; }
      if fault.CrashBefore? || fault.CrashMidway? { return Crash; }
      var stored := T.StoredEvent(nextEvent, event);
      events := events + [stored];
      nextEvent := nextEvent + 1;
      return if fault.CrashAfter? then Crash else Ok(stored);
    }

    /** The spec of the last deploy that reached its end. */
    method CurrentSpec(name: string) returns (r: Io<Option<WorkloadSpec>>)
      ensures r.Ok? ==> r.value == T.CurrentSpec(State(), name)
      ensures calm ==> r.Ok?
    {
      var fault := Strike(calm);
      if fault.Err() { return Err; }
      if !fault.Fine? { return Crash; }
      return Ok(if name in apps then Some(apps[name].spec) else None);
    }

    /** Upsert the spec; a slug held by another app violates the unique column. */
    method PutSpec(name: string, slug: string, spec: WorkloadSpec) returns (r: Io<()>)
      modifies this
      ensures r.Ok? ==> T.PutSpec(old(State()), name, slug, spec) == Some(State())
      ensures r.Err? ==> State() == old(State())
      ensures r.Crash? ==> State() == old(State()) || T.PutSpec(old(State()), name, slug, spec) == Some(State())
      ensures calm && !T.SlugTaken(old(State()), name, slug) ==> r.Ok?
    {
      var fault := Strike(calm);
      if fault.Err() { return Err; }
      if fault.CrashBefore? || fault.CrashMidway? { return Crash; }
      if exists other | other in apps :: other != name && apps[other].slug == slug { return Err; }
      apps := apps[name := T.AppRow(slug, spec)];
      return if fault.CrashAfter? then Crash else Ok(());
    }

    /** Register an app, or replace its registration. */
    method RegisterApp(config: T.AppConfig) returns (r: Io<()>)
      modifies this
      ensures r.Ok? ==> T.RegisterApp(old(State()), config) == Some(State())
      ensures r.Err? ==> State() == old(State())
      ensures r.Crash? ==> State() == old(State()) || T.RegisterApp(old(State()), config) == Some(State())
      ensures calm && T.RegisterApp(old(State()), config).Some? ==> r.Ok?
    {
      var fault := Strike(calm);
      if fault.Err() { return Err; }
      if fault.CrashBefore? || fault.CrashMidway? { return Crash; }
      if T.RegisterApp(State(), config).None? { return Err; }
      configs := configs[config.name := config];
      return if fault.CrashAfter? then Crash else Ok(());
    }
  }
}
