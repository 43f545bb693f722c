/**
 * The deploy state machine: reserve, six stages with a durable row written before each, backward
 * compensation, and recovery after a crash. Every exit of every method, error and crash included,
 * keeps the account of Convergence.
 */
module Deploy {
  import opened Wrappers
  import opened Slugs
  import opened Specs
  import opened Paths
  import opened Tables
  import opened Timelines
  import opened Render
  import opened Faults
  import opened Host
  import opened Managed
  import opened Apply
  import opened Gateway
  import opened Convergence
  import opened Undo
  import opened Store

  /** Whoever is watching. */
  class Sink {
    var sent: seq<StoredEvent>

    constructor ()
      ensures sent == []
    {
      sent := [];
    }

    method Emit(event: StoredEvent)
      modifies this
      ensures sent == old(sent) + [event]
    {
      sent := sent + [event];
    }
  }

  datatype Ctx = Ctx(host: Host, store: Store, sink: Sink)

  datatype DeployOutcome = Done | RolledBack(failedAt: Stage) | Failed(failedAt: Stage)

  function StatusOf(outcome: DeployOutcome): Status {
    match outcome
    case Done => Status.Done
    case RolledBack(_) => Status.RolledBack
    case Failed(_) => Status.Failed
  }

  // ---- what a run starts from --------------------------------------------------------------

  /** The facts a run's guarantees are stated against, fixed when it starts. */
  datatype Run = Run(
    apps: set<string>,
    left: set<string>,
    name: string,
    id: int,
    previous: Option<WorkloadSpec>,
    before: Tables,
    sent: seq<StoredEvent>,
    live: bool
  )

  /** Everything appended since has been published, in order, except perhaps the last event. */
  ghost predicate Published(before: seq<StoredEvent>, after: seq<StoredEvent>, sent0: seq<StoredEvent>,
      sent1: seq<StoredEvent>) {
    && before <= after
    && (|| sent1 == sent0 + after[|before|..]
        || (|before| < |after| && sent1 == sent0 + after[|before|..|after| - 1]))
  }

  ghost predicate InStep(before: seq<StoredEvent>, after: seq<StoredEvent>, sent0: seq<StoredEvent>,
      sent1: seq<StoredEvent>) {
    before <= after && sent1 == sent0 + after[|before|..]
  }

  /** One run changes its own row, its own app's spec and lock, and appends events of its own deploy. */
  ghost predicate OnlyThisDeploy(t: Tables, u: Tables, id: int, name: string) {
    && u.deploys.Keys == t.deploys.Keys && u.nextDeploy == t.nextDeploy
    && (forall k | k in t.deploys && k != id :: u.deploys[k] == t.deploys[k])
    && (forall n | n != name :: Lookup(u.apps, n) == Lookup(t.apps, n))
    && u.configs == t.configs
    && t.events <= u.events
    && (forall i | |t.events| <= i < |u.events| :: u.events[i].event.deployId == id)
    && (Live(u, id) ==> Live(t, id))
  }

  /** Everything durable or observable, as one value. */
  datatype World = World(host: HostState, tables: Tables, sent: seq<StoredEvent>)

  function Now(ctx: Ctx): World
    reads ctx.host, ctx.store, ctx.sink
  {
    World(Snapshot(ctx.host), ctx.store.State(), ctx.sink.sent)
  }

  /** The run has brought its row to a good end. */
  predicate DoneBy(t: Tables, run: Run) {
    Live(run.before, run.id) && run.id in t.deploys && t.deploys[run.id].status == Status.Done
  }

  /**
   * The apps that may have a fragment their spec no longer has: those at the start, and this one once
   * it is done.
   */
  function Leftovers(t: Tables, run: Run): set<string> {
    if DoneBy(t, run) then run.left + {run.name} else run.left
  }

  /** What every exit of every step keeps. */
  ghost predicate Core(w: World, run: Run) {
    && Universe(run.apps) && run.name in run.apps
    && WellStored(w.tables, run.apps)
    && Converges(w.host.files, w.tables, run.apps, Leftovers(w.tables, run))
    && OnlyThisDeploy(run.before, w.tables, run.id, run.name)
    && Published(run.before.events, w.tables.events, run.sent, w.sent)
    && (run.id in w.tables.deploys ==> w.tables.deploys[run.id].app == run.name)
  }

  /** The live account, for a run that started from an app in place. */
  ghost predicate LiveOk(w: World, run: Run) {
    run.live ==> LiveConverges(w.host, w.tables, run.name)
  }

  /** A failed stage, at Apply or later, was stored after `before`: an undo of the host has begun, or was about to. */
  ghost predicate FailureTold(before: seq<StoredEvent>, events: seq<StoredEvent>, id: int) {
    exists i | |before| <= i < |events| ::
      && events[i].event.deployId == id && events[i].event.kind.StageEvent? && events[i].event.kind.status == Broken
      && events[i].event.kind.stage.Rank() >= Stage.Apply.Rank()
  }

  /** A stage failed, and the row still says that the app may be out of place. */
  ghost predicate Exposed(t: Tables, run: Run) {
    && run.id in t.deploys && DirtyRow(t.deploys[run.id], run.name, Stage.Apply)
    && FailureTold(run.before.events, t.events, run.id)
  }

  /** A row this run has rolled back has its app on the previous spec as far as it had got, whatever older rows say. */
  ghost predicate Mended(w: World, run: Run) {
    Live(run.before, run.id) && run.id in w.tables.deploys && w.tables.deploys[run.id].status == Status.RolledBack ==>
      BackOnDisk(w, run, w.tables.deploys[run.id].stage)
  }

  /** The files are the previous spec's, as far as `stage` changes them. */
  ghost predicate BackOnDisk(w: World, run: Run, stage: Stage) {
    && CurrentSpec(w.tables, run.name) == run.previous
    && (stage.Rank() >= Stage.Apply.Rank() ==> FilesAgree(w.host.files, Slug(run.name), PlanFor(run.previous)))
    && (stage.Rank() >= Stage.Route.Rank() ==> RouteAgrees(w.host.files, Slug(run.name), RouteFor(run.previous)))
  }

  /**
   * Not done, and the live account is kept, or a stage is stored as failed and the row is not rolled
   * back; if it is rolled back, the files are back.
   */
  ghost predicate Aftermath(w: World, run: Run) {
    !DoneBy(w.tables, run) && (Exposed(w.tables, run) || LiveOk(w, run)) && Mended(w, run)
  }

  /** Nothing is out of order, and a row that was in progress still is. */
  ghost predicate Settled(w: World, run: Run) {
    Core(w, run) && LiveOk(w, run) && (Live(run.before, run.id) ==> Live(w.tables, run.id))
  }

  /** An undo from `stage` would work. */
  ghost predicate Undoable(w: World, run: Run, stage: Stage) {
    && CurrentSpec(w.tables, run.name) == run.previous
    && (run.live ==> Recoverable(w.host, Slug(run.name), run.previous, stage))
  }

  /** The row is in progress at `stage`. */
  ghost predicate InHand(w: World, run: Run, stage: Stage) {
    && Core(w, run)
    && InStep(run.before.events, w.tables.events, run.sent, w.sent)
    && Live(w.tables, run.id) && w.tables.deploys[run.id].stage == stage
  }

  /** The row is in progress at `stage`, recorded before the host is touched, and can be undone. */
  ghost predicate Proceeding(w: World, run: Run, stage: Stage) {
    InHand(w, run, stage) && Undoable(w, run, stage)
  }

  /** Between two stages, or before the first, when the row may not even be in progress any more. */
  ghost predicate Ready(w: World, run: Run, next: Stage) {
    && Settled(w, run) && Undoable(w, run, next)
    && InStep(run.before.events, w.tables.events, run.sent, w.sent)
    && (Live(w.tables, run.id) ==> w.tables.deploys[run.id].stage.Rank() <= next.Rank())
  }

  lemma RowAccounts(s: HostState, t: Tables, name: string, id: int, stage: Stage)
    requires Live(t, id) && t.deploys[id].app == name && t.deploys[id].stage.Rank() >= stage.Rank()
    ensures stage.Rank() >= Stage.Apply.Rank() ==> Dirty(t, name, Stage.Apply)
    ensures stage.Rank() >= Stage.Route.Rank() ==> Dirty(t, name, Stage.Route)
    ensures Recoverable(s, Slug(name), CurrentSpec(t, name), stage) ==> LiveConverges(s, t, name)
  {
    if stage.Rank() >= Stage.Apply.Rank() {
      assert DirtyRow(t.deploys[id], name, Stage.Apply) && UnderwayRow(t.deploys[id], name, Stage.Apply);
    }
    if stage.Rank() >= Stage.Route.Rank() {
      assert DirtyRow(t.deploys[id], name, Stage.Route) && UnderwayRow(t.deploys[id], name, Stage.Route);
    }
  }

  lemma ProceedingIsSettled(w: World, run: Run, stage: Stage)
    requires Proceeding(w, run, stage)
    ensures Settled(w, run) && Live(run.before, run.id)
    ensures stage.Rank() >= Stage.Apply.Rank() ==> Dirty(w.tables, run.name, Stage.Apply)
    ensures stage.Rank() >= Stage.Route.Rank() ==> Dirty(w.tables, run.name, Stage.Route)
  {
    RowAccounts(w.host, w.tables, run.name, run.id, stage);
  }

  lemma SettledIsFine(w: World, run: Run)
    requires Settled(w, run)
    ensures Core(w, run) && Aftermath(w, run)
  {
  }

  /** The next stage may begin where the last one succeeded. */
  lemma NextStage(w: World, run: Run, stage: Stage, next: Stage)
    requires Proceeding(w, run, stage) && stage.Rank() <= next.Rank()
    ensures Ready(w, run, next) && Live(w.tables, run.id)
  {
    ProceedingIsSettled(w, run, stage);
  }

  // ---- store steps of a run ----------------------------------------------------------------

  lemma PublishStep(before: seq<StoredEvent>, after: seq<StoredEvent>, e: StoredEvent, sent0: seq<StoredEvent>,
      sent1: seq<StoredEvent>)
    requires InStep(before, after, sent0, sent1)
    ensures Published(before, after, sent0, sent1)
    ensures Published(before, after + [e], sent0, sent1)
    ensures InStep(before, after + [e], sent0, sent1 + [e])
    ensures Published(before, after + [e], sent0, sent1 + [e])
  {
    assert (after + [e])[|before|..|after|] == after[|before|..];
    assert (after + [e])[|before|..] == after[|before|..] + [e];
  }

  /** Tables whose rows and specs are unchanged apart from rows that still account for what they did. */
  lemma TablesStep(w: World, u: Tables, run: Run)
    requires Settled(w, run) && u.apps == w.tables.apps && KeepsDirt(w.tables, u) && KeepsUnderway(w.tables, u)
    requires WellStored(u, run.apps) && !DoneBy(u, run)
    ensures Converges(w.host.files, u, run.apps, Leftovers(u, run))
    ensures run.live ==> LiveConverges(w.host, u, run.name)
  {
    StoreStepConverges(w.host.files, w.tables, u, run.apps, run.left);
    if run.live {
      LiveStoreStep(w.host, w.tables, u, run.name);
    }
  }

  lemma AppendTables(t: Tables, apps: set<string>, before: Tables, name: string, id: int, event: Event)
    requires WellStored(t, apps) && OnlyThisDeploy(before, t, id, name) && event.deployId == id
    ensures var u := Append(t, event);
            WellStored(u, apps) && OnlyThisDeploy(before, u, id, name) && KeepsDirt(t, u) && KeepsUnderway(t, u)
  {
  }

  /** Storing an event, and then publishing it. */
  lemma EmitStep(w: World, run: Run, stage: Stage, status: EventStatus)
    requires Proceeding(w, run, stage)
    ensures var event := Event(run.id, StageEvent(stage, status));
            var stored := w.(tables := Append(w.tables, event));
            && Settled(w, run)
            && Settled(stored, run)
            && Proceeding(stored.(sent := w.sent + [StoredEvent(w.tables.nextEvent, event)]), run, stage)
  {
    hide Converges;
    hide LiveConverges;
    hide Recoverable;
    hide AppLive;
    hide WellStored;
    hide OnlyThisDeploy;
    hide KeepsDirt;
    hide KeepsUnderway;
    var event := Event(run.id, StageEvent(stage, status));
    var u := Append(w.tables, event);
    ProceedingIsSettled(w, run, stage);
    AppendTables(w.tables, run.apps, run.before, run.name, run.id, event);
    TablesStep(w, u, run);
    PublishStep(run.before.events, w.tables.events, StoredEvent(w.tables.nextEvent, event), run.sent, w.sent);
  }

  lemma AdvanceTables(t: Tables, apps: set<string>, before: Tables, name: string, id: int, stage: Stage)
    requires WellStored(t, apps) && OnlyThisDeploy(before, t, id, name)
    requires Live(t, id) && t.deploys[id].stage.Rank() <= stage.Rank()
    ensures var u := AdvanceStage(t, id, stage).value;
            WellStored(u, apps) && OnlyThisDeploy(before, u, id, name) && KeepsDirt(t, u) && KeepsUnderway(t, u)
  {
  }

  /** Recording a stage on a row that is in progress. */
  lemma AdvanceStep(w: World, run: Run, stage: Stage)
    requires Ready(w, run, stage) && Live(w.tables, run.id)
    ensures Proceeding(w.(tables := AdvanceStage(w.tables, run.id, stage).value), run, stage)
    ensures Settled(w.(tables := AdvanceStage(w.tables, run.id, stage).value), run)
  {
    hide Converges;
    hide LiveConverges;
    hide Recoverable;
    hide AppLive;
    hide WellStored;
    hide OnlyThisDeploy;
    hide KeepsDirt;
    hide KeepsUnderway;
    var u := AdvanceStage(w.tables, run.id, stage).value;
    AdvanceTables(w.tables, run.apps, run.before, run.name, run.id, stage);
    TablesStep(w, u, run);
    assert CurrentSpec(u, run.name) == CurrentSpec(w.tables, run.name);
  }

  // ---- events ------------------------------------------------------------------------------

  /** Persist one event, then publish it. */
  method Emit(ctx: Ctx, id: int, stage: Stage, status: EventStatus, ghost run: Run) returns (r: Io<()>)
    requires Proceeding(Now(ctx), run, stage) && id == run.id
    modifies ctx.store, ctx.sink
    ensures ctx.store.apps == old(ctx.store.apps)
    ensures Settled(Now(ctx), run)
    ensures r.Ok? ==> Proceeding(Now(ctx), run, stage)
    ensures ctx.store.calm ==> r.Ok?
    ensures ctx.store.deploys == old(ctx.store.deploys)
    ensures r.Ok? && status == Broken && stage.Rank() >= Stage.Apply.Rank() ==>
              FailureTold(run.before.events, ctx.store.events, id)
    ensures r.Ok? ==> Timeline(ctx.store.State(), id) == Extend(old(Timeline(ctx.store.State(), id)),
              StageEvent(stage, status))
    ensures Timeline(ctx.store.State(), id) in {old(Timeline(ctx.store.State(), id)),
              Extend(old(Timeline(ctx.store.State(), id)), StageEvent(stage, status))}
  {
    hide Core;
    hide LiveOk;
    hide Undoable;
    hide Timeline;
    ghost var w := Now(ctx);
    var event := Event(id, StageEvent(stage, status));
    EmitStep(w, run, stage, status);
    TimelinePush(w.tables, event, id);
    var appended := ctx.store.AppendEvent(event);
    assert Now(ctx) == w || Now(ctx) == w.(tables := Append(w.tables, event));
    var stored :- appended;
    assert ctx.store.events[|w.tables.events|] == stored;
    ctx.sink.Emit(stored);
    ProceedingIsSettled(Now(ctx), run, stage);
    return Ok(());
  }

  lemma AdvanceKeepsTale(t: Tables, id: int, stage: Stage)
    requires Live(t, id)
    ensures Timeline(AdvanceStage(t, id, stage).value, id) == Timeline(t, id)
  {
  }

  /** Advance the durable stage, then emit a Started event; an error means the stage must not run. */
  method Begin(ctx: Ctx, id: int, stage: Stage, ghost run: Run) returns (r: Io<()>)
    requires Ready(Now(ctx), run, stage) && id == run.id
    modifies ctx.store, ctx.sink
    ensures ctx.store.apps == old(ctx.store.apps)
    ensures Settled(Now(ctx), run)
    ensures r.Ok? ==> Proceeding(Now(ctx), run, stage)
    // A row someone else has finished: nothing is written and nothing is said.
    ensures !Live(old(ctx.store.State()), id) ==> !r.Ok? && Now(ctx) == old(Now(ctx))
    ensures ctx.store.calm && Live(old(ctx.store.State()), id) ==> r.Ok?
    ensures old(Due(ctx.store.State(), id, stage)) ==> Told(ctx.store.State(), id)
    ensures old(Due(ctx.store.State(), id, stage)) && r.Ok? ==> Within(ctx.store.State(), id, stage, Open(stage.Rank()))
  {
    hide Core;
    hide LiveOk;
    hide Undoable;
    ghost var w := Now(ctx);
    if Live(w.tables, id) {
      AdvanceStep(w, run, stage);
    }
    var advanced := ctx.store.AdvanceStage(id, stage);
    assert Now(ctx) == w || (Live(w.tables, id) && Now(ctx) == w.(tables := AdvanceStage(w.tables, id, stage).value));
    hide Timeline;
    WithinIsTold(w.tables, id, stage);
    WithinIsTold(ctx.store.State(), id, stage);
    if Live(w.tables, id) {
      AdvanceKeepsTale(w.tables, id, stage);
    }
    var _ :- advanced;
    r := Emit(ctx, id, stage, Started, run);
    WithinIsTold(ctx.store.State(), id, stage);
  }

  /** Emit a Succeeded event for a stage. */
  method Succeed(ctx: Ctx, id: int, stage: Stage, ghost run: Run) returns (r: Io<()>)
    requires Proceeding(Now(ctx), run, stage) && id == run.id
    modifies ctx.store, ctx.sink
    ensures ctx.store.apps == old(ctx.store.apps)
    ensures Settled(Now(ctx), run)
    ensures r.Ok? ==> Proceeding(Now(ctx), run, stage)
    ensures ctx.store.calm ==> r.Ok?
    ensures old(Within(ctx.store.State(), id, stage, Open(stage.Rank()))) ==> Told(ctx.store.State(), id)
    ensures old(Within(ctx.store.State(), id, stage, Open(stage.Rank()))) && r.Ok? ==>
              Within(ctx.store.State(), id, stage, Between(stage.Rank() + 1))
  {
    hide Timeline;
    hide Core;
    hide LiveOk;
    hide Undoable;
    r := Emit(ctx, id, stage, Succeeded, run);
    WithinIsTold(ctx.store.State(), id, stage);
  }

  // ---- finishing ---------------------------------------------------------------------------

  /** What the files must be for a row at `stage` to be finished with `status`. */
  ghost predicate MayFinish(w: World, run: Run, stage: Stage, status: Status) {
    && status != InProgress
    && (status != Status.Failed && stage.Rank() >= Stage.Apply.Rank() ==>
          FilesAgree(w.host.files, Slug(run.name), PlanFor(CurrentSpec(w.tables, run.name))))
    && (status != Status.Failed && stage.Rank() >= Stage.Route.Rank() ==>
          || RouteAgrees(w.host.files, Slug(run.name), RouteFor(CurrentSpec(w.tables, run.name)))
          || (status == Status.Done && Cleared(w.tables, run.name)))
  }

  /** The app is live as far as the row had got. */
  ghost predicate LiveUpTo(w: World, run: Run, stage: Stage) {
    && (stage.Rank() >= Stage.Apply.Rank() ==>
        UnitsLive(w.host, Slug(run.name), PlanFor(CurrentSpec(w.tables, run.name))))
    && (stage.Rank() >= Stage.Route.Rank() ==>
        RouteLive(w.host, Slug(run.name), RouteFor(CurrentSpec(w.tables, run.name))))
  }

  lemma FinishTables(t: Tables, apps: set<string>, before: Tables, name: string, id: int, status: Status)
    requires WellStored(t, apps) && OnlyThisDeploy(before, t, id, name) && id in t.deploys && status != InProgress
    ensures var u := FinishWithEvent(t, id, status).value;
            WellStored(u, apps) && OnlyThisDeploy(before, u, id, name)
  {
  }

  lemma FinishLeftovers(t: Tables, run: Run, status: Status)
    requires Live(t, run.id) && OnlyThisDeploy(run.before, t, run.id, run.name)
    ensures Leftovers(t, run) == run.left
    ensures Leftovers(FinishWithEvent(t, run.id, status).value, run) == if status == Status.Done
              then run.left + {run.name} else run.left
  {
  }

  lemma FinishConverged(w: World, run: Run, stage: Stage, status: Status)
    requires InHand(w, run, stage) && MayFinish(w, run, stage, status)
    ensures var u := FinishWithEvent(w.tables, run.id, status).value; Converges(w.host.files, u, run.apps,
              Leftovers(u, run))
  {
    hide Leftovers;
    hide OnlyThisDeploy;
    hide Converges;
    hide WellStored;
    hide FilesAgree;
    hide Published;
    FinishLeftovers(w.tables, run, status);
    var u := FinishWithEvent(w.tables, run.id, status).value;
    if status == Status.Failed {
      FailingKeepsDirt(w.tables, run.id);
      StoreStepConverges(w.host.files, w.tables, u, run.apps, run.left);
    } else {
      FinishConverges(w.host.files, w.tables, run.apps, run.left, run.id, status);
    }
  }

  lemma FailingKeepsDirt(t: Tables, id: int)
    requires Live(t, id)
    ensures KeepsDirt(t, FinishWithEvent(t, id, Status.Failed).value)
  {
  }

  /** The terminal transaction, and then its publication. */
  lemma FinishStep(w: World, run: Run, stage: Stage, status: Status)
    requires InHand(w, run, stage) && MayFinish(w, run, stage, status)
    ensures var stored := w.(tables := FinishWithEvent(w.tables, run.id, status).value);
            var published := stored.(sent := w.sent +
                [StoredEvent(w.tables.nextEvent, Event(run.id, Finished(status)))]);
            && Core(stored, run) && Core(published, run)
            && (LiveOk(w, run) && (run.live ==> LiveUpTo(w, run, stage)) ==>
                LiveOk(stored, run) && LiveOk(published, run))
  {
    FinishTables(w.tables, run.apps, run.before, run.name, run.id, status);
    FinishConverged(w, run, stage, status);
    PublishStep(run.before.events, w.tables.events, StoredEvent(w.tables.nextEvent, Event(run.id, Finished(status))),
        run.sent, w.sent);
    if run.live && LiveOk(w, run) && LiveUpTo(w, run, stage) {
      LiveFinish(w.host, w.tables, run.name, run.id, status);
    }
  }

  /** Either nothing was stored, or the terminal status and its event were, together. */
  ghost predicate FinishTold(t: Tables, u: Tables, id: int, status: Status)
    requires id in t.deploys && id in u.deploys
  {
    || (u.deploys[id] == t.deploys[id] && Timeline(u, id) == Timeline(t, id))
    || (u.deploys[id] == t.deploys[id].(status := status)
        && Timeline(u, id) == Extend(Timeline(t, id), Finished(status)))
  }

  /** Persist the terminal status, its event and the lock release as one write, then publish it. */
  method Finish(ctx: Ctx, id: int, status: Status, ghost stage: Stage, ghost run: Run) returns (r: Io<()>)
    requires InHand(Now(ctx), run, stage) && id == run.id && MayFinish(Now(ctx), run, stage, status)
              && status != InProgress
    modifies ctx.store, ctx.sink
    ensures Core(Now(ctx), run)
    ensures LiveOk(old(Now(ctx)), run) ==>
              (run.live ==> LiveUpTo(old(Now(ctx)), run, stage)) || Live(ctx.store.State(), id) ==>
              LiveOk(Now(ctx), run)
    ensures ctx.store.apps == old(ctx.store.apps)
    ensures id in ctx.store.deploys
              && ctx.store.deploys[id] in {old(ctx.store.deploys[id]), old(ctx.store.deploys[id]).(status := status)}
    ensures r.Ok? ==> ctx.store.deploys[id].status == status
    ensures old(ctx.store.events) <= ctx.store.events
    ensures ctx.store.calm ==> r.Ok?
    ensures (r.Ok? ==> ctx.store.deploys[id] != old(ctx.store.deploys[id]))
              && FinishTold(old(ctx.store.State()), ctx.store.State(), id, status)
  {
    hide Core;
    hide LiveOk;
    hide MayFinish;
    hide LiveUpTo;
    hide Timeline;
    ghost var w := Now(ctx);
    FinishStep(w, run, stage, status);
    FinishTimeline(w.tables, id, status, id);
    var finished := ctx.store.FinishDeployWithEvent(id, status);
    assert Now(ctx) == w || Now(ctx) == w.(tables := FinishWithEvent(w.tables, id, status).value);
    var stored :- finished;
    ctx.sink.Emit(stored);
    return Ok(());
  }

  // ---- undoing a failed stage --------------------------------------------------------------

  lemma UndoStep(w: World, run: Run, stage: Stage, u: HostState)
    requires InHand(w, run, stage)
    requires Guarded(w.host.files, u.files, UndoReach(Slug(run.name), stage))
    requires stage.Rank() < Stage.Apply.Rank() ==> u == w.host
    ensures InHand(w.(host := u), run, stage)
  {
    RowAccounts(w.host, w.tables, run.name, run.id, stage);
    if stage.Rank() >= Stage.Route.Rank() {
      RouteStepConverges(w.host.files, u.files, w.tables, run.apps, run.left, run.name, Apps({Slug(run.name)}));
    } else if stage.Rank() >= Stage.Apply.Rank() {
      UnitStepConverges(w.host.files, u.files, w.tables, run.apps, run.left, run.name);
    }
  }

  lemma UndoneIsLive(w: World, run: Run, stage: Stage)
    requires InHand(w, run, stage) && CurrentSpec(w.tables, run.name) == run.previous
    requires run.live ==> AppLive(w.host, Slug(run.name), run.previous)
    ensures LiveOk(w, run)
    ensures run.live ==> LiveUpTo(w, run, stage)
  {
    RowAccounts(w.host, w.tables, run.name, run.id, stage);
  }

  /**
   * The files of the app are where the previous spec says, as far as the stage had got; live too if
   * they were.
   */
  ghost predicate BackInPlace(w: World, run: Run, stage: Stage) {
    && BackOnDisk(w, run, stage)
    && (run.live ==> AppLive(w.host, Slug(run.name), run.previous))
  }

  lemma PreviousIsOfThisApp(w: World, run: Run, stage: Stage)
    requires Proceeding(w, run, stage)
    ensures run.previous.Some? ==> run.previous.value.name == run.name && ValidSpec(run.previous.value)
  {
    StoredSpecName(w.tables, run.apps, run.name);
  }

  /** Compensation, seen from a run: only the host changes, and the row stays in hand. */
  method UndoStage(ctx: Ctx, stage: Stage, name: string, previous: Option<WorkloadSpec>, ghost run: Run)
      returns (r: Io<()>)
    requires ctx.host.Valid() && Proceeding(Now(ctx), run, stage)
    requires name == run.name && previous == run.previous
    modifies ctx.host
    ensures ctx.host.Valid() && InHand(Now(ctx), run, stage)
    ensures Spared(old(Snapshot(ctx.host)), Snapshot(ctx.host), Slug(name))
    ensures stage.Rank() < Stage.Apply.Rank() ==> r.Ok? && Snapshot(ctx.host) == old(Snapshot(ctx.host))
    ensures r.Ok? ==> BackInPlace(Now(ctx), run, stage)
    ensures Retractable(old(ctx.host.files), ctx.host, Slug(name), previous, stage) ==> r.Ok?
    ensures ctx.host.calm ==> !r.Crash?
  {
    hide Retractable;
    hide Core;
    hide LiveOk;
    hide Recoverable;
    hide Guarded;
    hide OthersLeft;
    ghost var before := Now(ctx);
    PreviousIsOfThisApp(before, run, stage);
    r := Compensate(ctx.host, Slug(name), previous, stage);
    UndoStep(before, run, stage, Snapshot(ctx.host));
    SparedWithin(before.host, Snapshot(ctx.host), Slug(name), UndoReach(Slug(name), stage));
  }

  lemma BackInPlaceMayFinish(w: World, run: Run, stage: Stage)
    requires InHand(w, run, stage) && BackInPlace(w, run, stage)
    ensures MayFinish(w, run, stage, Status.RolledBack)
    ensures LiveOk(w, run)
    ensures run.live ==> LiveUpTo(w, run, stage)
  {
    UndoneIsLive(w, run, stage);
  }

  /** How a failed stage ends, in the outcome returned and in the row. */
  ghost predicate Ended(w: World, run: Run, stage: Stage, outcome: DeployOutcome) {
    && run.id in w.tables.deploys
    && (|| (outcome == DeployOutcome.RolledBack(stage) && BackInPlace(w, run, stage)
            && w.tables.deploys[run.id].status == Status.RolledBack)
        || (outcome == DeployOutcome.Failed(stage) && w.tables.deploys[run.id].status == Status.Failed))
  }

  lemma BackInPlaceStays(w: World, u: World, run: Run, stage: Stage)
    requires BackInPlace(w, run, stage) && u.host == w.host && u.tables.apps == w.tables.apps
    ensures BackInPlace(u, run, stage)
    ensures run.id in u.tables.deploys && u.tables.deploys[run.id].stage == stage ==> Mended(u, run)
  {
  }

  lemma FailedMayFinish(w: World, run: Run, stage: Stage)
    ensures MayFinish(w, run, stage, Status.Failed)
  {
  }

  /**
   * A stage failed: say so, undo it, and finish the row. The live account is lost only with the undo,
   * and then the failed stage and the row, not rolled back, are there to be read.
   */
  method Fail(ctx: Ctx, id: int, stage: Stage, name: string, previous: Option<WorkloadSpec>, ghost run: Run)
    returns (r: Io<DeployOutcome>)
    requires ctx.host.Valid() && Proceeding(Now(ctx), run, stage)
    requires id == run.id && name == run.name && previous == run.previous
    modifies ctx.host, ctx.store, ctx.sink
    ensures ctx.store.apps == old(ctx.store.apps)
    ensures ctx.host.Valid()
    ensures Core(Now(ctx), run) && Aftermath(Now(ctx), run)
    ensures Spared(old(Snapshot(ctx.host)), Snapshot(ctx.host), Slug(name))
    ensures stage.Rank() < Stage.Apply.Rank() ==>
              Snapshot(ctx.host) == old(Snapshot(ctx.host)) && LiveOk(Now(ctx), run) && (r.Ok? ==> r.value.RolledBack?)
    ensures r.Ok? ==> Ended(Now(ctx), run, stage, r.value)
    ensures ctx.store.calm ==> !r.Err? && (ctx.host.calm ==> r.Ok?)
    ensures ctx.store.calm && Retractable(old(ctx.host.files), ctx.host, Slug(name), previous, stage) ==>
              r == Ok(DeployOutcome.RolledBack(stage))
    ensures old(Within(ctx.store.State(), id, stage, Open(stage.Rank()))) ==> Told(ctx.store.State(), id)
    ensures old(Within(ctx.store.State(), id, stage, Open(stage.Rank()))) && r.Ok? ==>
              Timeline(ctx.store.State(), id) == Closed(Halted(stage.Rank()), StatusOf(r.value))
  {
    hide Retractable;
    hide Core;
    hide LiveOk;
    hide Undoable;
    hide Spared;
    hide BackInPlace;
    hide Timeline;
    SparedSame(Snapshot(ctx.host), Slug(name));
    var said := Emit(ctx, id, stage, Broken, run);
    WithinIsTold(ctx.store.State(), id, stage);
    var _ :- said;
    var undone := UndoStage(ctx, stage, name, previous, run);
    r := Conclude(ctx, id, stage, undone, run);
  }

  lemma OwnRow(w: World, run: Run, stage: Stage)
    requires InHand(w, run, stage)
    ensures w.tables.deploys[run.id].app == run.name
  {
  }

  /** The terminal write after an undo: rolled back when it worked, failed when it did not. */
  method Conclude(ctx: Ctx, id: int, stage: Stage, undone: Io<()>, ghost run: Run)
    returns (r: Io<DeployOutcome>)
    requires InHand(Now(ctx), run, stage) && id == run.id
    requires undone.Ok? ==> BackInPlace(Now(ctx), run, stage)
    requires stage.Rank() < Stage.Apply.Rank() ==> undone.Ok?
    requires stage.Rank() >= Stage.Apply.Rank() ==> FailureTold(run.before.events, ctx.store.events, id)
    modifies ctx.store, ctx.sink
    ensures ctx.store.apps == old(ctx.store.apps)
    ensures Core(Now(ctx), run) && Aftermath(Now(ctx), run)
    ensures undone.Ok? ==> LiveOk(Now(ctx), run)
    ensures r.Ok? ==> (r.value.RolledBack? <==> undone.Ok?)
    ensures r.Ok? ==> Ended(Now(ctx), run, stage, r.value)
    ensures ctx.store.calm ==> !r.Err? && (undone.Ok? ==> r == Ok(DeployOutcome.RolledBack(stage)))
    ensures ctx.store.calm && !undone.Crash? ==> r.Ok?
    ensures old(Within(ctx.store.State(), id, stage, Halted(stage.Rank()))) ==> Told(ctx.store.State(), id)
    ensures old(Within(ctx.store.State(), id, stage, Halted(stage.Rank()))) && r.Ok? ==>
              Timeline(ctx.store.State(), id) == Closed(Halted(stage.Rank()), StatusOf(r.value))
  {
    hide Timeline;
    hide Core;
    hide LiveOk;
    hide BackInPlace;
    hide MayFinish;
    hide LiveUpTo;
    WithinIsTold(ctx.store.State(), id, stage);
    ghost var w := Now(ctx);
    OwnRow(w, run, stage);
    FailedMayFinish(w, run, stage);
    match undone {
      case Ok(_) =>
        BackInPlaceMayFinish(Now(ctx), run, stage);
        var finished := Finish(ctx, id, Status.RolledBack, stage, run);
        BackInPlaceStays(w, Now(ctx), run, stage);
        var _ :- finished;
        r := Ok(DeployOutcome.RolledBack(stage));
      case Err =>
        var _ :- Finish(ctx, id, Status.Failed, stage, run);
        r := Ok(DeployOutcome.Failed(stage));
      case Crash =>
        r := Crash;
    }
  }

  lemma StoredSpecName(t: Tables, apps: set<string>, name: string)
    requires WellStored(t, apps)
    ensures CurrentSpec(t, name).Some? ==>
              CurrentSpec(t, name).value.name == name && ValidSpec(CurrentSpec(t, name).value)
  {
  }
}
