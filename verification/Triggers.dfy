/** What starts a deploy: the operator's button and the forge's push hook. */
module Triggers {
  import opened Wrappers
  import opened Slugs
  import opened Specs
  import opened Tables
  import opened Faults
  import opened Host
  import opened Apply
  import opened Convergence
  import opened Store
  import opened Deploy
  import opened Runs
  import opened Timelines

  /** The app's working copy, which a hook moves to the pushed commit. */
  class Checkout {
    var branch: string
    var head: string
    /** The commits this clone has. */
    var known: set<string>
    /** The commits the origin has. */
    const pushed: set<string>
    const calm: bool

    /** One git command: what it printed, or an error. */
    method CurrentBranch() returns (r: Io<string>)
      ensures r.Ok? ==> r.value == branch
      ensures calm ==> r.Ok?
    {
      var fault := Strike(calm);
      return if fault.Fine? then Ok(branch) else if fault.Err() then Err else Crash;
    }

    method Fetch() returns (r: Io<()>)
      modifies `known
      ensures old(known) <= known && (r.Ok? ==> known == old(known) + pushed)
      ensures calm ==> r.Ok?
    {
      var fault := Strike(calm);
      if !fault.Before() && !fault.Midway() {
        known := known + pushed;
      }
      return if fault.Fine? then Ok(()) else if fault.Err() then Err else Crash;
    }

    /** Only a commit the clone has can be checked out. */
    method ResetHard(sha: string) returns (r: Io<()>)
      modifies `head
      ensures head == old(head) || (head == sha && sha in known)
      ensures r.Ok? ==> head == sha && sha in known
      ensures calm ==> if sha in known then r.Ok? else r.Err?
    {
      var fault := Strike(calm);
      if sha !in known { return if fault.Fine? || fault.Err() then Err else Crash; }
      if !fault.Before() && !fault.Midway() {
        head := sha;
      }
      return if fault.Fine? then Ok(()) else if fault.Err() then Err else Crash;
    }
  }

  datatype Push = Push(branch: string, sha: string)

  datatype Delivery = Accepted(id: int) | Ignored | Refused

  predicate IsBusy(t: Tables, app: string) {
    exists id | id in t.deploys :: t.deploys[id].status == InProgress && t.deploys[id].app == app
  }

  /** Whether a deploy of the app is in flight. */
  method CheckBusy(ctx: Ctx, app: string) returns (r: Io<bool>)
    requires Consistent(ctx.store.State())
    ensures r.Ok? ==> (r.value <==> IsBusy(ctx.store.State(), app))
    ensures ctx.store.calm ==> r.Ok?
  {
    ghost var t := ctx.store.State();
    InProgressFromIsExact(t, 1);
    var rows :- ctx.store.InProgressDeploys();
    for i := 0 to |rows|
      invariant forall k | 0 <= k < i :: rows[k].app != app
    {
      if rows[i].app == app {
        assert rows[i] in rows && Live(t, rows[i].id);
        return Ok(true);
      }
    }
    forall id | id in t.deploys && t.deploys[id].status == InProgress ensures t.deploys[id].app != app {
      assert Live(t, id) && t.deploys[id] in rows;
    }
    return Ok(false);
  }

  /** An attempt that never reached a stage, in progress or already turned away by `reserve`. */
  predicate Attempt(t: Tables, id: int) {
    id in t.deploys && t.deploys[id].stage == Detect
        && (t.deploys[id].status == InProgress || t.deploys[id].status == Status.Failed)
  }

  lemma AttemptTables(t: Tables, apps: set<string>, id: int)
    requires WellStored(t, apps) && Attempt(t, id)
    ensures var u := FinishWithEvent(t, id, Status.Failed).value; WellStored(u, apps) && KeepsAccounts(t, u)
  {
  }

  lemma AttemptStep(w: World, apps: set<string>, left: set<string>, id: int, sent: seq<StoredEvent>)
    requires Sound(w, apps, left) && Attempt(w.tables, id)
    ensures var u := w.(tables := FinishWithEvent(w.tables, id, Status.Failed).value, sent := sent);
            Sound(u, apps, left) && KeepsLive(w, u, apps)
  {
    hide Converges;
    hide KeepsAccounts;
    hide WellStored;
    hide LiveConverges;
    AttemptTables(w.tables, apps, id);
    StoreOnly(w, w.(tables := FinishWithEvent(w.tables, id, Status.Failed).value, sent := sent), apps, left);
  }

  /** Finish a hook's own attempt as failed, with its event, freeing only a lock this attempt holds. */
  method FinishAttempt(ctx: Ctx, id: int, ghost apps: set<string>, ghost left: set<string>) returns (r: Io<()>)
    requires Sound(Now(ctx), apps, left) && Attempt(ctx.store.State(), id)
    modifies ctx.store, ctx.sink
    ensures Sound(Now(ctx), apps, left) && KeepsLive(old(Now(ctx)), Now(ctx), apps)
    ensures r.Ok? ==> Some(ctx.store.State()) == FinishWithEvent(old(ctx.store.State()), id, Status.Failed)
    ensures r.Ok? ==> ctx.sink.sent == old(ctx.sink.sent) + [StoredEvent(old(ctx.store.nextEvent),
              Event(id, Finished(Status.Failed)))]
    ensures ctx.store.calm ==> r.Ok?
  {
    hide Sound;
    hide KeepsLive;
    ghost var w := Now(ctx);
    AttemptStep(w, apps, left, id, w.sent);
    AttemptStep(w, apps, left, id, w.sent + [StoredEvent(w.tables.nextEvent, Event(id, Finished(Status.Failed)))]);
    AllStayLive(w, apps);
    var finished := ctx.store.FinishDeployWithEvent(id, Status.Failed);
    assert Now(ctx) == w || Now(ctx) == w.(tables := FinishWithEvent(w.tables, id, Status.Failed).value, sent :=
        w.sent);
    var stored :- finished;
    ctx.sink.Emit(stored);
    return Ok(());
  }

  lemma AllStayLive(w: World, apps: set<string>)
    ensures KeepsLive(w, w, apps)
  {
  }

  /** The attempt a delivery recorded: a new failed row with one event, and no lock of anyone else touched. */
  ghost predicate Recorded(t: Tables, u: Tables, app: string) {
    && Attempt(u, t.nextDeploy) && u.deploys[t.nextDeploy].app == app && u.deploys[t.nextDeploy].status == Status.Failed
    && u.events == t.events + [StoredEvent(t.nextEvent, Event(t.nextDeploy, Finished(Status.Failed)))]
    && u.locks == DropLocksOf(t.locks, t.nextDeploy)
    && (forall id | id in t.deploys && id != t.nextDeploy :: id in u.deploys && u.deploys[id] == t.deploys[id])
  }

  /** A refusal is a row of its own. */
  method RecordRefusal(ctx: Ctx, app: string, ghost apps: set<string>, ghost left: set<string>) returns (r: Io<()>)
    requires Sound(Now(ctx), apps, left) && app in apps
    modifies ctx.store, ctx.sink
    ensures Sound(Now(ctx), apps, left) && KeepsLive(old(Now(ctx)), Now(ctx), apps)
    ensures r.Ok? ==> Recorded(old(ctx.store.State()), ctx.store.State(), app)
    ensures ctx.store.calm ==> r.Ok?
  {
    hide Sound;
    hide KeepsLive;
    ghost var w := Now(ctx);
    ReserveStep(w, apps, left, app);
    var created := ctx.store.CreateDeploy(app);
    assert Now(ctx) == w || Now(ctx) == w.(tables := CreateDeploy(w.tables, app));
    var id :- created;
    ghost var v := Now(ctx);
    r := FinishAttempt(ctx, id, apps, left);
    KeepsLiveChain(w, v, Now(ctx), apps);
  }

  lemma KeepsLiveChain(w: World, v: World, u: World, apps: set<string>)
    requires KeepsLive(w, v, apps) && KeepsLive(v, u, apps)
    ensures KeepsLive(w, u, apps)
  {
    hide LiveConverges;
  }

  /**
   * Read the branch, fetch, reset: the git half of a delivery, done by whoever holds the app's lock.
   * False means the push is for another branch.
   */
  method UpdateCheckout(co: Checkout, push: Push, ghost t: Tables, ghost app: string, ghost id: int)
      returns (r: Io<bool>)
    requires app in t.locks && t.locks[app] == id && Live(t, id)
    modifies co`head, co`known
    ensures co.branch != push.branch ==> co.head == old(co.head) && r != Ok(true)
    ensures co.head == old(co.head) || co.head == push.sha
    ensures r == Ok(true) ==> co.branch == push.branch && co.head == push.sha
    ensures r == Ok(false) ==> co.branch != push.branch && co.head == old(co.head)
    ensures co.calm ==>
              if co.branch == push.branch && push.sha !in old(co.known) + co.pushed then r.Err?
              else r == Ok(co.branch == push.branch)
  {
    var branch :- co.CurrentBranch();
    if branch != push.branch {
      return Ok(false);
    }
    var _ :- co.Fetch();
    var _ :- co.ResetHard(push.sha);
    return Ok(true);
  }

  /**
   * One authenticated push. The checkout is only touched under the app's lock; every push to a
   * registered app that gets past parsing leaves either a reserved deploy or a finished attempt; and
   * when nothing fails, which of the two is decided by the app, the branch and the spec alone.
   */
  method DispatchPush(ctx: Ctx, co: Checkout, app: string, parsed: Option<Push>, spec: Option<WorkloadSpec>,
      ghost apps: set<string>, ghost left: set<string>)
    returns (r: Io<Delivery>)
    requires Sound(Now(ctx), apps, left) && app in apps
    modifies ctx.store, ctx.sink, co`head, co`known
    ensures Sound(Now(ctx), apps, left) && KeepsLive(old(Now(ctx)), Now(ctx), apps)
    ensures co.head != old(co.head) || (r.Ok? && r.value.Accepted?) ==>
              && app in old(ctx.store.configs) && !IsBusy(old(ctx.store.State()), app) && app !in old(ctx.store.locks)
              && parsed.Some? && co.branch == parsed.value.branch && co.head == parsed.value.sha
    ensures app !in old(ctx.store.configs) || parsed.None? ==> Now(ctx) == old(Now(ctx))
    ensures r.Ok? && r.value.Accepted? ==>
              && r.value.id == old(ctx.store.nextDeploy) && Live(ctx.store.State(), r.value.id)
                  && Reserved(ctx.store.State(), r.value.id, app)
              && app in ctx.store.locks && ctx.store.locks[app] == r.value.id
              && ctx.store.events == old(ctx.store.events)
    ensures r.Ok? && r.value.Accepted? ==> spec.Some?
    ensures r.Ok? && !r.value.Accepted? && app in old(ctx.store.configs) && parsed.Some? ==>
              Recorded(old(ctx.store.State()), ctx.store.State(), app)
    ensures ctx.store.calm && co.calm ==> r.Ok? && (r.value.Accepted? <==>
              && app in old(ctx.store.configs) && !IsBusy(old(ctx.store.State()), app) && app !in old(ctx.store.locks)
              && parsed.Some? && co.branch == parsed.value.branch && spec.Some?
              && parsed.value.sha in old(co.known) + co.pushed)
    // Whoever pushed hears of a refusal when the app is unknown, or when only its spec is at fault.
    ensures ctx.store.calm && co.calm && !r.value.Accepted? ==> (r.value.Refused? <==>
              || app !in old(ctx.store.configs)
              || (&& parsed.Some? && !IsBusy(old(ctx.store.State()), app) && app !in old(ctx.store.locks)
                  && co.branch == parsed.value.branch))
  {
    hide IsBusy;
    hide Sound;
    hide KeepsLive;
    hide Recorded;
    ghost var w := Now(ctx);
    AllStayLive(w, apps);
    SoundTables(w, apps, left);
    if app !in ctx.store.configs {
      return Ok(Refused);
    }
    if parsed.None? {
      return Ok(Ignored);
    }
    var busy :- CheckBusy(ctx, app);
    if busy {
      var _ :- RecordRefusal(ctx, app, apps, left);
      return Ok(Ignored);
    }
    var reservation :- Reserve(ctx, app, apps, left);
    ghost var v := Now(ctx);
    if reservation.Busy? {
      var ended := FinishAttempt(ctx, reservation.id, apps, left);
      KeepsLiveChain(w, v, Now(ctx), apps);
      var _ :- ended;
      BusyIsRecorded(w.tables, ctx.store.State(), app);
      return Ok(Ignored);
    }
    var updated := UpdateCheckout(co, parsed.value, ctx.store.State(), app, reservation.id);
    if updated.Crash? {
      return Crash;
    }
    if updated != Ok(true) || spec.None? {
      var ended := FinishAttempt(ctx, reservation.id, apps, left);
      KeepsLiveChain(w, v, Now(ctx), apps);
      var _ :- ended;
      GrantedIsRecorded(w.tables, ctx.store.State(), app);
      return Ok(if updated == Ok(false) then Ignored else Refused);
    }
    return Ok(Accepted(reservation.id));
  }

  lemma SoundTables(w: World, apps: set<string>, left: set<string>)
    requires Sound(w, apps, left)
    ensures Consistent(w.tables)
  {
  }

  lemma BusyIsRecorded(t: Tables, u: Tables, app: string)
    requires Consistent(t)
    requires Some(u) == FinishWithEvent(FinishDeploy(CreateDeploy(t, app), t.nextDeploy, Status.Failed).value,
              t.nextDeploy, Status.Failed)
    ensures Recorded(t, u, app)
  {
  }

  lemma GrantedIsRecorded(t: Tables, u: Tables, app: string)
    requires Consistent(t) && app !in t.locks
    requires Some(u) == FinishWithEvent(AcquireLock(CreateDeploy(t, app), app, t.nextDeploy).value, t.nextDeploy,
              Status.Failed)
    ensures Recorded(t, u, app)
  {
  }

  // ---- between two steps of a run ----------------------------------------------------------

  /**
   * What another process may do to the store between two steps of the run of `id`, while the deploy
   * slot keeps other runs out: nothing that touches this row, this timeline, a stored spec or an account.
   */
  ghost predicate Foreign(t: Tables, u: Tables, id: int) {
    && KeepsAccounts(t, u) && EventsFor(u.events, id) == EventsFor(t.events, id)
    && (id in t.deploys <==> id in u.deploys) && (id in t.deploys ==> u.deploys[id] == t.deploys[id])
  }

  /** The facts the run is measured against from then on. */
  function Onward(w: World, run: Run): Run {
    run.(before := w.tables, sent := w.sent)
  }

  lemma CoreGoesOn(w: World, u: World, run: Run)
    requires u.host == w.host && Foreign(w.tables, u.tables, run.id) && WellStored(u.tables, run.apps)
    requires Core(w, run) && !DoneBy(w.tables, run)
    ensures Core(u, Onward(u, run)) && !DoneBy(u.tables, Onward(u, run))
    ensures InStep(u.tables.events, u.tables.events, u.sent, u.sent)
  {
    hide EventsFor;
    hide KeepsDirt;
    hide KeepsUnderway;
    hide Converges;
    hide WellStored;
    StoreStepConverges(w.host.files, w.tables, u.tables, run.apps, run.left);
    assert u.tables.events[|u.tables.events|..] == [];
  }

  lemma LiveGoesOn(w: World, u: World, run: Run)
    requires u.host == w.host && Foreign(w.tables, u.tables, run.id) && LiveOk(w, run)
    ensures LiveOk(u, Onward(u, run))
  {
    hide EventsFor;
    if run.live {
      LiveStoreStep(w.host, w.tables, u.tables, run.name);
    }
  }

  /**
   * The run goes on from there as one that found the store so: every step after it still has what it
   * asks for.
   */
  lemma RunGoesOn(w: World, u: World, run: Run, stage: Stage)
    requires u.host == w.host && Foreign(w.tables, u.tables, run.id) && WellStored(u.tables, run.apps)
    ensures Proceeding(w, run, stage) ==> Proceeding(u, Onward(u, run), stage)
    ensures Ready(w, run, stage) ==> Ready(u, Onward(u, run), stage)
    ensures Due(w.tables, run.id, stage) ==> Due(u.tables, run.id, stage)
    ensures forall shape | Within(w.tables, run.id, stage, shape) :: Within(u.tables, run.id, stage, shape)
  {
    hide EventsFor;
    hide LiveOk;
    hide Recoverable;
    hide WellStored;
    if Proceeding(w, run, stage) {
      CoreGoesOn(w, u, run);
    }
    if Ready(w, run, stage) {
      CoreGoesOn(w, u, run);
      LiveGoesOn(w, u, run);
    }
    hide Core;
  }

  /** A reservation, in any state it can be left in. */
  lemma ReservationIsForeign(t: Tables, apps: set<string>, name: string, status: Status, locks: map<string, int>,
      id: int)
    requires WellStored(t, apps) && name in apps && id in t.deploys
    ensures var u := SetStatus(CreateDeploy(t, name), t.nextDeploy, status).(locks := locks);
            WellStored(u, apps) && Foreign(t, u, id)
  {
    hide EventsFor;
    NewRow(t, apps, name, status, locks);
  }

  /** A hook finishing an attempt of its own. */
  lemma AttemptIsForeign(t: Tables, apps: set<string>, attempt: int, id: int)
    requires WellStored(t, apps) && Attempt(t, attempt) && id != attempt
    ensures var u := FinishWithEvent(t, attempt, Status.Failed).value; WellStored(u, apps) && Foreign(t, u, id)
  {
    AttemptTables(t, apps, attempt);
    EventsForPush(t.events, StoredEvent(t.nextEvent, Event(attempt, Finished(Status.Failed))), id);
    assert EventsFor(t.events, id) + [] == EventsFor(t.events, id);
  }

  lemma RegistrationIsForeign(t: Tables, apps: set<string>, config: AppConfig, id: int)
    requires WellStored(t, apps) && RegisterApp(t, config).Some?
    ensures var u := RegisterApp(t, config).value; WellStored(u, apps) && Foreign(t, u, id)
  {
    hide NameCollides;
  }
}
