/** Reconcile: every deploy still in progress is undone and finished, then stray locks are freed. */
module Recovery {
  import opened Wrappers
  import opened Slugs
  import opened Specs
  import opened Paths
  import opened Tables
  import opened Host
  import opened Managed
  import opened Apply
  import opened Gateway
  import opened Convergence
  import opened Undo
  import opened Store
  import opened Deploy
  import opened Runs

  // ---- one row -----------------------------------------------------------------------------

  /** A row of the work-list, still as it was read. */
  ghost predicate Pending(t: Tables, row: DeployRow) {
    row.id in t.deploys && t.deploys[row.id] == row && row.status == InProgress
  }

  lemma UndoIsSound(w: World, u: HostState, apps: set<string>, left: set<string>, row: DeployRow)
    requires Sound(w, apps, left) && Pending(w.tables, row)
    requires Guarded(w.host.files, u.files, UndoReach(Slug(row.app), row.stage))
    requires row.stage.Rank() < Stage.Apply.Rank() ==> u == w.host
    ensures Sound(w.(host := u), apps, left)
  {
    hide Guarded;
    RowAccounts(w.host, w.tables, row.app, row.id, row.stage);
    if row.stage.Rank() >= Stage.Route.Rank() {
      RouteStepConverges(w.host.files, u.files, w.tables, apps, left, row.app, Apps({Slug(row.app)}));
    } else if row.stage.Rank() >= Stage.Apply.Rank() {
      UnitStepConverges(w.host.files, u.files, w.tables, apps, left, row.app);
    }
  }

  /** The row's app after an undo that worked: in place as far as the row had got, if it was recoverable. */
  ghost predicate InPlaceUpTo(s: HostState, t: Tables, app: string, stage: Stage) {
    && (stage.Rank() >= Stage.Apply.Rank() ==> UnitsLive(s, Slug(app), PlanFor(CurrentSpec(t, app))))
    && (stage.Rank() >= Stage.Route.Rank() ==> RouteLive(s, Slug(app), RouteFor(CurrentSpec(t, app))))
  }

  lemma UndoKeepsOthersLive(w: World, u: HostState, apps: set<string>, left: set<string>, row: DeployRow)
    requires Sound(w, apps, left) && Pending(w.tables, row)
    requires OthersLeft(Slug(row.app), w.host, u) && Guarded(w.host.files, u.files, UndoReach(Slug(row.app), row.stage))
    ensures forall app | app in apps && app != row.app && LiveConverges(w.host, w.tables, app) ::
              LiveConverges(u, w.tables, app)
  {
    hide LiveConverges;
    hide Converges;
    hide OthersLeft;
    hide Guarded;
    forall app | app in apps && app != row.app
        && LiveConverges(w.host, w.tables, app) ensures LiveConverges(u, w.tables, app) {
      OthersLeftFrame(Slug(row.app), w.host, u, UndoReach(Slug(row.app), row.stage), Slug(app));
      LiveFrameKeeps(w.host, u, w.tables, apps, app);
    }
  }

  /** The live side of the row's own app after an undo that worked. */
  lemma UndoKeepsOwnLive(s: HostState, u: HostState, t: Tables, row: DeployRow)
    requires LiveConverges(s, t, row.app) && Pending(t, row)
    requires Guarded(s.files, u.files, UndoReach(Slug(row.app), row.stage))
    requires row.stage.Rank() < Stage.Apply.Rank() ==> u == s
    requires row.stage.Rank() < Stage.Route.Rank() ==> u.proxied == s.proxied
    requires InPlaceUpTo(u, t, row.app, row.stage)
    ensures LiveConverges(u, t, row.app)
  {
    hide FilesAgree;
    hide TimersBacked;
    hide Guarded;
    var slug := Slug(row.app);
    RowAccounts(s, t, row.app, row.id, row.stage);
    if row.stage == Stage.Apply {
      GuardedLeaves(s.files, u.files, Units(slug), Fragment(slug));
    }
  }

  /** What the files must be for the row to be finished with `status`. */
  ghost predicate MaySettle(w: World, row: DeployRow, status: Status) {
    && (status == Status.RolledBack || status == Status.Failed)
    && (status == Status.RolledBack && row.stage.Rank() >= Stage.Apply.Rank() ==>
          FilesAgree(w.host.files, Slug(row.app), PlanFor(CurrentSpec(w.tables, row.app))))
    && (status == Status.RolledBack && row.stage.Rank() >= Stage.Route.Rank() ==>
          RouteAgrees(w.host.files, Slug(row.app), RouteFor(CurrentSpec(w.tables, row.app))))
  }

  lemma SettledTables(t: Tables, apps: set<string>, row: DeployRow, status: Status)
    requires WellStored(t, apps) && Pending(t, row)
    ensures var u := FinishWithEvent(t, row.id, status).value;
            && WellStored(u, apps) && WellStored(ReleaseLock(u, row.app), apps)
            && KeepsAccounts(u, ReleaseLock(u, row.app))
            && (status == Status.Failed ==> KeepsDirt(t, u))
  {
  }

  /** The live account after a row is finished: its own app has to be in place as far as the row had got. */
  ghost predicate KeepsLiveButFor(w: World, u: World, apps: set<string>, row: DeployRow) {
    forall app | app in apps && LiveConverges(w.host, w.tables, app)
        && (app == row.app ==> InPlaceUpTo(w.host, w.tables, app, row.stage)) ::
      LiveConverges(u.host, u.tables, app)
  }

  /** The terminal transaction of a recovered row, and the release of its lock. */
  lemma SettleStep(w: World, apps: set<string>, left: set<string>, row: DeployRow, status: Status)
    requires Sound(w, apps, left) && Pending(w.tables, row) && MaySettle(w, row, status)
    ensures var u := FinishWithEvent(w.tables, row.id, status).value;
            && Sound(w.(tables := u), apps, left) && KeepsLiveButFor(w, w.(tables := u), apps, row)
            && Sound(w.(tables := ReleaseLock(u, row.app)), apps, left)
                && KeepsLiveButFor(w, w.(tables := ReleaseLock(u, row.app)), apps, row)
  {
    hide LiveConverges;
    hide Converges;
    hide WellStored;
    hide FilesAgree;
    hide RouteAgrees;
    hide KeepsAccounts;
    hide UnitsLive;
    hide RouteLive;
    var u := FinishWithEvent(w.tables, row.id, status).value;
    SettledTables(w.tables, apps, row, status);
    if status == Status.Failed {
      StoreStepConverges(w.host.files, w.tables, u, apps, left);
    } else {
      FinishConverges(w.host.files, w.tables, apps, left, row.id, status);
    }
    forall app | app in apps && LiveConverges(w.host, w.tables, app) && (app == row.app ==>
        InPlaceUpTo(w.host, w.tables, app, row.stage))
      ensures LiveConverges(w.host, u, app)
    {
      LiveFinish(w.host, w.tables, app, row.id, status);
    }
    StoreOnly(w.(tables := u), w.(tables := ReleaseLock(u, row.app)), apps, left);
  }

  /** Finish the row with its event, publish it, and release the app's lock. */
  method Settle(ctx: Ctx, row: DeployRow, status: Status, ghost apps: set<string>, ghost left: set<string>)
      returns (r: Io<()>)
    requires Sound(Now(ctx), apps, left) && Pending(ctx.store.State(), row) && MaySettle(Now(ctx), row, status)
    modifies ctx.store, ctx.sink
    ensures Sound(Now(ctx), apps, left) && KeepsLiveButFor(old(Now(ctx)), Now(ctx), apps, row)
    ensures ctx.store.apps == old(ctx.store.apps)
    ensures ctx.store.deploys in {old(ctx.store.deploys), old(ctx.store.deploys)[row.id := row.(status := status)]}
    ensures r.Ok? ==> ctx.store.State() == ReleaseLock(FinishWithEvent(old(ctx.store.State()), row.id, status).value,
              row.app)
    ensures r.Ok? ==> ctx.sink.sent == old(ctx.sink.sent) + [StoredEvent(old(ctx.store.nextEvent),
              Event(row.id, Finished(status)))]
    ensures ctx.store.calm ==> r.Ok?
  {
    hide Sound;
    hide KeepsLiveButFor;
    hide MaySettle;
    ghost var w := Now(ctx);
    ghost var u := FinishWithEvent(w.tables, row.id, status).value;
    SettleStep(w, apps, left, row, status);
    NothingChanged(w, apps, row);
    var finished := ctx.store.FinishDeployWithEvent(row.id, status);
    assert Now(ctx) == w || Now(ctx) == w.(tables := u);
    var stored :- finished;
    ctx.sink.Emit(stored);
    SentIsNoAccount(w.(tables := u), apps, left, row, w, ctx.sink.sent);
    SentIsNoAccount(w.(tables := ReleaseLock(u, row.app)), apps, left, row, w, ctx.sink.sent);
    var released := ctx.store.ReleaseLock(row.app);
    assert Now(ctx) == w.(tables := u, sent := ctx.sink.sent)
        || Now(ctx) == w.(tables := ReleaseLock(u, row.app), sent := ctx.sink.sent);
    return released;
  }

  lemma NothingChanged(w: World, apps: set<string>, row: DeployRow)
    ensures KeepsLiveButFor(w, w, apps, row)
  {
  }

  lemma SentIsNoAccount(u: World, apps: set<string>, left: set<string>, row: DeployRow, w: World,
      sent: seq<StoredEvent>)
    ensures Sound(u, apps, left) ==> Sound(u.(sent := sent), apps, left)
    ensures KeepsLiveButFor(w, u, apps, row) ==> KeepsLiveButFor(w, u.(sent := sent), apps, row)
  {
  }

  /** The live accounts an undo keeps: every other app's, and the row's own app's when it got through. */
  ghost predicate KeepsLiveUnless(w: World, u: World, apps: set<string>, cut: set<string>) {
    forall app | app in apps && app !in cut && LiveConverges(w.host, w.tables, app) ::
        LiveConverges(u.host, u.tables, app)
  }

  lemma PreviousFits(w: World, apps: set<string>, left: set<string>, row: DeployRow)
    requires Sound(w, apps, left)
    ensures CurrentSpec(w.tables, row.app).Some? ==> Slug(CurrentSpec(w.tables, row.app).value.name) == Slug(row.app)
  {
  }

  lemma ReachIsWithinApp(a: map<File, string>, b: map<File, string>, row: DeployRow)
    requires Guarded(a, b, UndoReach(Slug(row.app), row.stage))
    ensures Guarded(a, b, Apps({Slug(row.app)}))
  {
    GuardedWiden(a, b, UndoReach(Slug(row.app), row.stage), Apps({Slug(row.app)}));
  }

  /** Compensation of one recovered row. */
  method UndoRow(ctx: Ctx, row: DeployRow, previous: Option<WorkloadSpec>, ghost apps: set<string>,
      ghost left: set<string>) returns (r: Io<()>)
    requires ctx.host.Valid() && Sound(Now(ctx), apps, left) && Pending(ctx.store.State(), row)
    requires previous == CurrentSpec(ctx.store.State(), row.app)
    modifies ctx.host
    ensures ctx.host.Valid() && Sound(Now(ctx), apps, left)
    ensures Guarded(old(ctx.host.files), ctx.host.files, Apps({Slug(row.app)}))
    ensures row.stage.Rank() < Stage.Apply.Rank() ==> r.Ok? && Snapshot(ctx.host) == old(Snapshot(ctx.host))
    ensures KeepsLiveUnless(old(Now(ctx)), Now(ctx), apps, {row.app})
    ensures r.Ok? ==> MaySettle(Now(ctx), row, Status.RolledBack)
    ensures Retractable(old(ctx.host.files), ctx.host, Slug(row.app), previous, row.stage) ==> r.Ok?
    ensures ctx.host.calm ==> !r.Crash?
    ensures r.Ok? && LiveConverges(old(Snapshot(ctx.host)), ctx.store.State(), row.app) ==>
              LiveConverges(Snapshot(ctx.host), ctx.store.State(), row.app)
                  && InPlaceUpTo(Snapshot(ctx.host), ctx.store.State(), row.app, row.stage)
  {
    hide Retractable;
    hide Sound;
    hide Guarded;
    hide OthersLeft;
    hide FilesAgree;
    hide RouteAgrees;
    hide TimersBacked;
    hide UnitsLive;
    hide RouteLive;
    hide UnitsRecoverable;
    hide RouteRecoverable;
    hide Recoverable;
    ghost var w := Now(ctx);
    PreviousFits(w, apps, left, row);
    r := Compensate(ctx.host, Slug(row.app), previous, row.stage);
    UndoIsSound(w, Snapshot(ctx.host), apps, left, row);
    assert Now(ctx) == w.(host := Snapshot(ctx.host));
    UndoKeepsOthersLive(w, Snapshot(ctx.host), apps, left, row);
    ReachIsWithinApp(w.host.files, ctx.host.files, row);
    if r.Ok? && LiveConverges(w.host, w.tables, row.app) {
      UndoKeepsOwnLive(w.host, Snapshot(ctx.host), w.tables, row);
    }
  }

  /** The undo of this row may have been cut: it is at Apply or later, and not rolled back. */
  predicate RowCut(t: Tables, row: DeployRow) {
    row.stage.Rank() >= Stage.Apply.Rank() && row.id in t.deploys && t.deploys[row.id].status != Status.RolledBack
  }

  /** The apps that may still have a fragment left behind, once this row has ended so. */
  function Remaining(left: set<string>, row: DeployRow, outcome: DeployOutcome): set<string> {
    if outcome.RolledBack? && row.stage.Rank() >= Stage.Route.Rank() then left - {row.app} else left
  }

  lemma UndoneIsRestored(w: World, apps: set<string>, left: set<string>, row: DeployRow)
    requires Sound(w, apps, left) && MaySettle(w, row, Status.RolledBack)
    ensures Sound(w, apps, Remaining(left, row, DeployOutcome.RolledBack(row.stage)))
  {
    hide Converges;
    if row.stage.Rank() >= Stage.Route.Rank() {
      RouteRestored(w.host.files, w.tables, apps, left, row.app);
    }
  }

  lemma FewerLeft(w: World, apps: set<string>, fewer: set<string>, left: set<string>)
    requires Sound(w, apps, fewer) && fewer <= left
    ensures Sound(w, apps, left)
  {
    forall app | app in apps ensures UnitsConverge(w.host.files, w.tables, app)
        && RouteConverges(w.host.files, w.tables, app, left) {
      assert UnitsConverge(w.host.files, w.tables, app) && RouteConverges(w.host.files, w.tables, app, fewer);
    }
  }

  /** Undo one row, finish it, and release its app's lock. */
  method ReconcileRow(ctx: Ctx, row: DeployRow, ghost apps: set<string>, ghost left: set<string>)
    returns (r: Io<DeployOutcome>)
    requires ctx.host.Valid() && Sound(Now(ctx), apps, left) && Pending(ctx.store.State(), row)
    modifies ctx.host, ctx.store, ctx.sink
    ensures ctx.host.Valid() && Sound(Now(ctx), apps, left) && ctx.store.apps == old(ctx.store.apps)
    ensures r.Ok? ==> Sound(Now(ctx), apps, Remaining(left, row, r.value))
    ensures r.Ok? && r.value.RolledBack? && row.stage.Rank() >= Stage.Apply.Rank() ==>
              FilesAgree(ctx.host.files, Slug(row.app), PlanFor(CurrentSpec(ctx.store.State(), row.app)))
    ensures r.Ok? && r.value.RolledBack? && row.stage.Rank() >= Stage.Route.Rank() ==>
              RouteAgrees(ctx.host.files, Slug(row.app), RouteFor(CurrentSpec(ctx.store.State(), row.app)))
    ensures Guarded(old(ctx.host.files), ctx.host.files, Apps({Slug(row.app)}))
    ensures row.stage.Rank() < Stage.Apply.Rank() ==> Snapshot(ctx.host) == old(Snapshot(ctx.host))
    ensures KeepsLiveUnless(old(Now(ctx)), Now(ctx), apps, if RowCut(ctx.store.State(), row) then {row.app} else {})
    ensures ctx.store.deploys in {old(ctx.store.deploys),
              old(ctx.store.deploys)[row.id := row.(status := Status.RolledBack)],
              old(ctx.store.deploys)[row.id := row.(status := Status.Failed)]}
    ensures r.Ok? ==> OutcomesFit([row], [r.value])
    ensures r.Ok? ==> ctx.store.State() == ReleaseLock(FinishWithEvent(old(ctx.store.State()), row.id,
              StatusOf(r.value)).value, row.app)
    ensures r.Ok? ==> ctx.sink.sent == old(ctx.sink.sent) + [StoredEvent(old(ctx.store.nextEvent),
              Event(row.id, Finished(StatusOf(r.value))))]
    ensures ctx.store.calm ==> !r.Err? && (ctx.host.calm ==> r.Ok?)
    ensures ctx.store.calm && Retractable(old(ctx.host.files), ctx.host, Slug(row.app),
                old(CurrentSpec(ctx.store.State(), row.app)), row.stage) ==>
              r == Ok(DeployOutcome.RolledBack(row.stage))
  {
    hide Retractable;
    hide Sound;
    hide Guarded;
    hide MaySettle;
    hide FilesAgree;
    hide RouteAgrees;
    hide LiveConverges;
    hide InPlaceUpTo;
    hide PlanFor;
    hide RouteFor;
    GuardedSame(ctx.host.files, Apps({Slug(row.app)}));
    var previous :- ctx.store.CurrentSpec(row.app);
    var undone := UndoRow(ctx, row, previous, apps, left);
    match undone {
      case Ok(_) =>
        ghost var rest := Remaining(left, row, DeployOutcome.RolledBack(row.stage));
        UndoneIsRestored(Now(ctx), apps, left, row);
        UndoneAgrees(Now(ctx), row);
        var settled := Settle(ctx, row, Status.RolledBack, apps, rest);
        FewerLeft(Now(ctx), apps, rest, left);
        var _ :- settled;
        return Ok(DeployOutcome.RolledBack(row.stage));
      case Err =>
        FailedMaySettle(Now(ctx), row);
        var _ :- Settle(ctx, row, Status.Failed, apps, left);
        return Ok(DeployOutcome.Failed(row.stage));
      case Crash =>
        return Crash;
    }
  }

  lemma UndoneAgrees(w: World, row: DeployRow)
    requires MaySettle(w, row, Status.RolledBack)
    ensures row.stage.Rank() >= Stage.Apply.Rank() ==>
              FilesAgree(w.host.files, Slug(row.app), PlanFor(CurrentSpec(w.tables, row.app)))
    ensures row.stage.Rank() >= Stage.Route.Rank() ==>
              RouteAgrees(w.host.files, Slug(row.app), RouteFor(CurrentSpec(w.tables, row.app)))
  {
  }

  lemma FailedMaySettle(w: World, row: DeployRow)
    ensures MaySettle(w, row, Status.Failed)
  {
  }

  // ---- the whole work-list -----------------------------------------------------------------

  function TerminalEvents(next: int, rows: seq<DeployRow>, outcomes: seq<DeployOutcome>): (events: seq<StoredEvent>)
    requires |outcomes| <= |rows|
    ensures |events| == |outcomes|
    ensures forall j | 0 <= j < |events| ::
              events[j] == StoredEvent(next + j, Event(rows[j].id, Finished(StatusOf(outcomes[j]))))
  {
    seq(|outcomes|, j requires 0 <= j < |outcomes| => StoredEvent(next + j,
        Event(rows[j].id, Finished(StatusOf(outcomes[j])))))
  }

  /** The app or the deploy of this lock is among the rows already recovered. */
  predicate LockReleased(app: string, id: int, done: seq<DeployRow>) {
    exists row | row in done :: row.app == app || row.id == id
  }

  lemma TerminalPush(next: int, rows: seq<DeployRow>, outcomes: seq<DeployOutcome>, o: DeployOutcome)
    requires |outcomes| < |rows|
    ensures TerminalEvents(next, rows, outcomes + [o])
            == TerminalEvents(next, rows, outcomes) +
                [StoredEvent(next + |outcomes|, Event(rows[|outcomes|].id, Finished(StatusOf(o))))]
  {
  }

  /** Each recovered row is finished with its outcome; every other row is as it was. */
  ghost predicate DeploysRecovered(t: map<int, DeployRow>, u: map<int, DeployRow>, rows: seq<DeployRow>,
      outcomes: seq<DeployOutcome>)
    requires |outcomes| <= |rows|
  {
    && u.Keys == t.Keys
    && (forall j | 0 <= j < |outcomes| :: rows[j].id in u && u[rows[j].id] == rows[j].(status := StatusOf(outcomes[j])))
    && (forall id | id in t && (forall j | 0 <= j < |outcomes| :: rows[j].id != id) :: u[id] == t[id])
  }

  /** Besides, each recovered row has one terminal event, in order, and nothing else has changed. */
  ghost predicate RowsRecovered(t: Tables, u: Tables, rows: seq<DeployRow>, outcomes: seq<DeployOutcome>)
    requires |outcomes| <= |rows|
  {
    && DeploysRecovered(t.deploys, u.deploys, rows, outcomes)
    && u.apps == t.apps && u.configs == t.configs && u.nextDeploy == t.nextDeploy
    && u.events == t.events + TerminalEvents(t.nextEvent, rows, outcomes)
    && u.nextEvent == t.nextEvent + |outcomes|
  }

  ghost predicate LocksRecovered(t: Tables, u: Tables, done: seq<DeployRow>) {
    && (forall app | app in u.locks :: app in t.locks && u.locks[app] == t.locks[app])
    && (forall app | app in t.locks :: app in u.locks <==> !LockReleased(app, t.locks[app], done))
  }

  lemma RecoverDeploy(t: Tables, u: map<int, DeployRow>, rows: seq<DeployRow>, outcomes: seq<DeployOutcome>,
      o: DeployOutcome)
    requires |outcomes| < |rows| && DeploysRecovered(t.deploys, u, rows, outcomes) && WorkList(t, 1, rows)
    ensures rows[|outcomes|].id in u && u[rows[|outcomes|].id] == rows[|outcomes|]
    ensures DeploysRecovered(t.deploys, u[rows[|outcomes|].id := rows[|outcomes|].(status := StatusOf(o))], rows,
              outcomes + [o])
  {
    var n, row := |outcomes|, rows[|outcomes|];
    assert row in rows;
    var v := u[row.id := row.(status := StatusOf(o))];
    forall id | id in t.deploys && (forall j | 0 <= j < |outcomes + [o]| ::
        rows[j].id != id) ensures v[id] == t.deploys[id] {
      assert rows[n].id != id;
    }
  }

  lemma RecoverRow(t: Tables, u: Tables, rows: seq<DeployRow>, outcomes: seq<DeployOutcome>, o: DeployOutcome)
    requires |outcomes| < |rows| && RowsRecovered(t, u, rows, outcomes) && WorkList(t, 1, rows)
    ensures rows[|outcomes|].id in u.deploys
    ensures RowsRecovered(t, ReleaseLock(FinishWithEvent(u, rows[|outcomes|].id, StatusOf(o)).value,
              rows[|outcomes|].app), rows, outcomes + [o])
  {
    hide DeploysRecovered;
    hide WorkList;
    RecoverDeploy(t, u.deploys, rows, outcomes, o);
    TerminalPush(t.nextEvent, rows, outcomes, o);
  }

  lemma RecoverLock(t: Tables, u: Tables, done: seq<DeployRow>, row: DeployRow, status: Status)
    requires LocksRecovered(t, u, done) && row.id in u.deploys
    ensures LocksRecovered(t, ReleaseLock(FinishWithEvent(u, row.id, status).value, row.app), done + [row])
  {
    var v := ReleaseLock(FinishWithEvent(u, row.id, status).value, row.app);
    forall app | app in t.locks ensures app in v.locks <==> !LockReleased(app, t.locks[app], done + [row]) {
      if app in u.locks && (row.app == app || row.id == t.locks[app]) {
        assert row in done + [row];
      }
      if LockReleased(app, t.locks[app], done) {
        var r :| r in done && (r.app == app || r.id == t.locks[app]);
        assert r in done + [row];
      }
    }
  }

  function SlugsOf(apps: set<string>): set<string> {
    set app | app in apps :: Slug(app)
  }

  /** What holds between two rows of the work-list. */
  ghost predicate Midway(w: World, v: World, apps: set<string>, rows: seq<DeployRow>, outcomes: seq<DeployOutcome>) {
    && |outcomes| <= |rows|
    && RowsRecovered(w.tables, v.tables, rows, outcomes)
    && LocksRecovered(w.tables, v.tables, rows[..|outcomes|])
    && v.sent == w.sent + TerminalEvents(w.tables.nextEvent, rows, outcomes)
    && OutcomesFit(rows, outcomes)
    && (outcomes == [] ==> v == w)
  }

  /** Outcomes name the stage each row was cut at; an undo can only fail at Apply or later. */
  ghost predicate OutcomesFit(rows: seq<DeployRow>, outcomes: seq<DeployOutcome>)
    requires |outcomes| <= |rows|
  {
    forall j | 0 <= j < |outcomes| ::
      || outcomes[j] == DeployOutcome.RolledBack(rows[j].stage)
      || (outcomes[j] == DeployOutcome.Failed(rows[j].stage) && rows[j].stage.Rank() >= Stage.Apply.Rank())
  }

  lemma StartMidway(w: World, apps: set<string>, rows: seq<DeployRow>)
    ensures Midway(w, w, apps, rows, [])
  {
    assert w.tables.events + TerminalEvents(w.tables.nextEvent, rows, []) == w.tables.events;
    assert w.sent + TerminalEvents(w.tables.nextEvent, rows, []) == w.sent;
  }

  lemma StepMidway(w: World, v: World, u: World, apps: set<string>, rows: seq<DeployRow>, outcomes: seq<DeployOutcome>,
      o: DeployOutcome)
    requires Midway(w, v, apps, rows, outcomes) && WorkList(w.tables, 1, rows) && |outcomes| < |rows|
    requires rows[|outcomes|].id in v.tables.deploys
    requires OutcomesFit([rows[|outcomes|]], [o])
    requires u.tables == ReleaseLock(FinishWithEvent(v.tables, rows[|outcomes|].id, StatusOf(o)).value,
              rows[|outcomes|].app)
    requires u.sent == v.sent + [StoredEvent(v.tables.nextEvent, Event(rows[|outcomes|].id, Finished(StatusOf(o))))]
    ensures Midway(w, u, apps, rows, outcomes + [o])
  {
    hide DeploysRecovered;
    hide LocksRecovered;
    hide OutcomesFit;
    hide WorkList;
    var row := rows[|outcomes|];
    RecoverRow(w.tables, v.tables, rows, outcomes, o);
    RecoverLock(w.tables, v.tables, rows[..|outcomes|], row, StatusOf(o));
    assert rows[..|outcomes + [o]|] == rows[..|outcomes|] + [row];
    FitStep(rows, outcomes, o);
    TerminalPush(w.tables.nextEvent, rows, outcomes, o);
  }

  lemma FitStep(rows: seq<DeployRow>, outcomes: seq<DeployOutcome>, o: DeployOutcome)
    requires |outcomes| < |rows| && OutcomesFit(rows, outcomes) && OutcomesFit([rows[|outcomes|]], [o])
    ensures OutcomesFit(rows, outcomes + [o])
  {
    assert [o][0] == o;
  }

  lemma NextIsPending(w: World, v: World, apps: set<string>, rows: seq<DeployRow>, outcomes: seq<DeployOutcome>)
    requires Midway(w, v, apps, rows, outcomes) && WorkList(w.tables, 1, rows) && |outcomes| < |rows|
    ensures Pending(v.tables, rows[|outcomes|])
  {
    assert rows[|outcomes|] in rows;
  }

  lemma LiveChain(w: World, v: World, u: World, apps: set<string>, cut: set<string>, more: set<string>)
    requires KeepsLiveUnless(w, v, apps, cut) && KeepsLiveUnless(v, u, apps, more)
    ensures KeepsLiveUnless(w, u, apps, cut + more)
  {
    hide LiveConverges;
  }

  lemma RowIsWithin(a: map<File, string>, b: map<File, string>, apps: set<string>, app: string)
    requires app in apps && Guarded(a, b, Apps({Slug(app)}))
    ensures Guarded(a, b, Apps(SlugsOf(apps)))
  {
    GuardedWiden(a, b, Apps({Slug(app)}), Apps(SlugsOf(apps)));
  }

  lemma RowIsKnown(w: World, apps: set<string>, left: set<string>, row: DeployRow)
    requires Sound(w, apps, left) && Pending(w.tables, row)
    ensures row.app in apps
  {
  }

  /** The orphan pass changes no account. */
  lemma LocksAreNoAccount(w: World, apps: set<string>, left: set<string>, locks: map<string, int>)
    requires Sound(w, apps, left)
    ensures Sound(w.(tables := w.tables.(locks := locks)), apps, left)
    ensures KeepsLiveUnless(w, w.(tables := w.tables.(locks := locks)), apps, {})
  {
    hide LiveConverges;
    hide Converges;
    StoreOnly(w, w.(tables := w.tables.(locks := locks)), apps, left);
  }

  /** What a successful reconcile leaves in the store, given the rows it found. */
  ghost predicate Recovered(t: Tables, u: Tables, rows: seq<DeployRow>, outcomes: seq<DeployOutcome>) {
    && |outcomes| == |rows|
    && RowsRecovered(t, u, rows, outcomes)
    && (forall id :: !Live(u, id))
    // What locks are left name deploys that never existed.
    && (forall app | app in u.locks :: app in t.locks && u.locks[app] == t.locks[app] && t.locks[app] !in t.deploys)
  }

  lemma NotLiveAnyMore(t: Tables, v: Tables, rows: seq<DeployRow>, outcomes: seq<DeployOutcome>, id: int)
    requires WorkList(t, 1, rows) && Consistent(t) && |outcomes| == |rows|
    requires DeploysRecovered(t.deploys, v.deploys, rows, outcomes)
    ensures !Live(v, id)
  {
    if j :| 0 <= j < |outcomes| && rows[j].id == id {
      assert v.deploys[rows[j].id] == rows[j].(status := StatusOf(outcomes[j]));
    } else if id in t.deploys {
      assert v.deploys[id] == t.deploys[id];
    }
  }

  lemma AllRecovered(t: Tables, v: Tables, rows: seq<DeployRow>, outcomes: seq<DeployOutcome>)
    requires WorkList(t, 1, rows) && Consistent(t) && |outcomes| == |rows|
    requires RowsRecovered(t, v, rows, outcomes) && LocksRecovered(t, v, rows)
    ensures Recovered(t, ReleaseOrphanedLocks(v), rows, outcomes)
  {
    hide WorkList;
    hide LocksRecovered;
    hide DeploysRecovered;
    hide Consistent;
    var u := ReleaseOrphanedLocks(v);
    forall id ensures !Live(v, id) && !Live(u, id) {
      NotLiveAnyMore(t, v, rows, outcomes, id);
    }
    LocksShrink(t, v, rows);
    KeysKept(t, v, rows, outcomes);
    forall app | app in u.locks ensures v.locks[app] !in v.deploys {
      OrphanPassSparesTheLiving(v, app);
      assert !Live(v, v.locks[app]);
    }
  }

  lemma KeysKept(t: Tables, v: Tables, rows: seq<DeployRow>, outcomes: seq<DeployOutcome>)
    requires |outcomes| <= |rows| && RowsRecovered(t, v, rows, outcomes)
    ensures v.deploys.Keys == t.deploys.Keys
  {
  }

  lemma LocksShrink(t: Tables, v: Tables, rows: seq<DeployRow>)
    requires LocksRecovered(t, v, rows)
    ensures forall app | app in v.locks :: app in t.locks && v.locks[app] == t.locks[app]
  {
  }

  /** A deploy of the app, in progress at Apply or later before, has been given up. */
  ghost predicate GivenUp(t: Tables, u: Tables, app: string) {
    exists id | id in t.deploys ::
      && UnderwayRow(t.deploys[id], app, Stage.Apply)
      && id in u.deploys && u.deploys[id].status == Status.Failed
  }

  /** The deploy a reconcile that stopped early had come to: the oldest one still in progress. */
  ghost predicate StoppedAt(t: Tables, u: Tables, app: string) {
    exists id | id in t.deploys ::
      UnderwayRow(t.deploys[id], app, Stage.Apply) && Live(u, id) && forall k | Live(u, k) :: id <= k
  }

  /** An undo of the app by a reconcile may have been cut, going by the rows before and after. */
  ghost predicate UndoCut(t: Tables, u: Tables, app: string) {
    GivenUp(t, u, app) || StoppedAt(t, u, app)
  }

  lemma GivenUpStays(t: Tables, v: Tables, u: Tables, row: DeployRow, app: string)
    requires GivenUp(t, v, app) && Pending(v, row)
    requires u.deploys in {v.deploys, v.deploys[row.id := row.(status := Status.RolledBack)],
               v.deploys[row.id := row.(status := Status.Failed)]}
    ensures GivenUp(t, u, app)
  {
    var id :| id in t.deploys && UnderwayRow(t.deploys[id], app, Stage.Apply) && id in v.deploys
      && v.deploys[id].status == Status.Failed;
    assert id in u.deploys && u.deploys[id] == v.deploys[id];
  }

  /** A row of the work-list whose undo may have been cut: given up, or where the reconcile stopped. */
  lemma CutShows(w: World, v: World, u: Tables, apps: set<string>, rows: seq<DeployRow>, outcomes: seq<DeployOutcome>)
    requires Midway(w, v, apps, rows, outcomes) && WorkList(w.tables, 1, rows) && |outcomes| < |rows|
    requires Consistent(w.tables) && Pending(v.tables, rows[|outcomes|]) && RowCut(u, rows[|outcomes|])
    requires u.deploys in {v.tables.deploys,
               v.tables.deploys[rows[|outcomes|].id := rows[|outcomes|].(status := Status.RolledBack)],
               v.tables.deploys[rows[|outcomes|].id := rows[|outcomes|].(status := Status.Failed)]}
    ensures UndoCut(w.tables, u, rows[|outcomes|].app)
    ensures !Live(u, rows[|outcomes|].id) ==> GivenUp(w.tables, u, rows[|outcomes|].app)
  {
    hide Midway;
    hide Consistent;
    var row := rows[|outcomes|];
    assert row in rows;
    hide WorkList;
    assert UnderwayRow(w.tables.deploys[row.id], row.app, Stage.Apply);
    if Live(u, row.id) {
      forall k | Live(u, k) ensures row.id <= k {
        LiveIsLeft(w, v, apps, rows, outcomes, k);
      }
    }
  }

  /** What is still in progress half-way is what the work-list still holds. */
  lemma LiveIsLeft(w: World, v: World, apps: set<string>, rows: seq<DeployRow>, outcomes: seq<DeployOutcome>, k: int)
    requires Midway(w, v, apps, rows, outcomes) && WorkList(w.tables, 1, rows) && |outcomes| < |rows|
    requires Live(v.tables, k) && Consistent(w.tables)
    ensures rows[|outcomes|].id <= k
  {
    assert forall j | 0 <= j < |outcomes| :: rows[j].id != k;
    assert v.tables.deploys[k] == w.tables.deploys[k];
    var j :| 0 <= j < |rows| && rows[j] == w.tables.deploys[k];
  }

  /** No app rolled back at Route or later still has a fragment left behind. */
  ghost predicate NoFragmentLeft(rows: seq<DeployRow>, outcomes: seq<DeployOutcome>, rest: set<string>)
    requires |outcomes| <= |rows|
  {
    forall j | 0 <= j < |outcomes| && outcomes[j].RolledBack? && rows[j].stage.Rank() >= Stage.Route.Rank() ::
        rows[j].app !in rest
  }

  lemma NoFragmentLeftStep(rows: seq<DeployRow>, outcomes: seq<DeployOutcome>, rest: set<string>, o: DeployOutcome)
    requires |outcomes| < |rows| && NoFragmentLeft(rows, outcomes, rest)
    ensures NoFragmentLeft(rows, outcomes + [o], Remaining(rest, rows[|outcomes|], o))
  {
  }

  lemma SameRowsGivenUp(t: Tables, v: Tables, u: Tables, cut: set<string>)
    requires u.deploys == v.deploys && forall app | app in cut :: GivenUp(t, v, app)
    ensures forall app | app in cut :: GivenUp(t, u, app)
  {
  }

  /** Every app's live account is kept, but for those whose undo may have been cut. */
  ghost predicate KeepsLiveButCut(w: World, u: World, apps: set<string>) {
    forall app | app in apps && !UndoCut(w.tables, u.tables, app) && LiveConverges(w.host, w.tables, app) ::
        LiveConverges(u.host, u.tables, app)
  }

  lemma OnlyTheCutAreLost(w: World, u: World, apps: set<string>, cut: set<string>)
    requires KeepsLiveUnless(w, u, apps, cut) && forall app | app in cut :: UndoCut(w.tables, u.tables, app)
    ensures KeepsLiveButCut(w, u, apps)
  {
    hide LiveConverges;
    hide UndoCut;
  }

  /** The apps whose undo may have been cut, after one more row. */
  lemma CutStep(w: World, v: World, u: World, apps: set<string>, rows: seq<DeployRow>, outcomes: seq<DeployOutcome>,
      cut: set<string>) returns (more: set<string>)
    requires Midway(w, v, apps, rows, outcomes) && WorkList(w.tables, 1, rows) && |outcomes| < |rows|
    requires Consistent(w.tables) && Pending(v.tables, rows[|outcomes|])
    requires u.tables.deploys in {v.tables.deploys,
               v.tables.deploys[rows[|outcomes|].id := rows[|outcomes|].(status := Status.RolledBack)],
               v.tables.deploys[rows[|outcomes|].id := rows[|outcomes|].(status := Status.Failed)]}
    requires KeepsLiveUnless(w, v, apps, cut) && forall app | app in cut :: GivenUp(w.tables, v.tables, app)
    requires KeepsLiveUnless(v, u, apps, if RowCut(u.tables, rows[|outcomes|]) then {rows[|outcomes|].app} else {})
    ensures KeepsLiveUnless(w, u, apps, more) && KeepsLiveButCut(w, u, apps)
    ensures !Live(u.tables, rows[|outcomes|].id) ==> forall app | app in more :: GivenUp(w.tables, u.tables, app)
  {
    hide Midway;
    hide WorkList;
    hide Consistent;
    hide Pending;
    hide KeepsLiveUnless;
    hide KeepsLiveButCut;
    hide GivenUp;
    hide StoppedAt;
    var row := rows[|outcomes|];
    more := cut + if RowCut(u.tables, row) then {row.app} else {};
    LiveChain(w, v, u, apps, cut, if RowCut(u.tables, row) then {row.app} else {});
    forall app | app in cut ensures GivenUp(w.tables, u.tables, app) {
      GivenUpStays(w.tables, v.tables, u.tables, row, app);
    }
    if RowCut(u.tables, row) {
      CutShows(w, v, u.tables, apps, rows, outcomes);
    }
    OnlyTheCutAreLost(w, u, apps, more);
  }

  /** No undo of these rows can go wrong. */
  ghost predicate AllRetractable(files: map<File, string>, h: Host, t: Tables, rows: seq<DeployRow>) {
    forall row | row in rows :: Retractable(files, h, Slug(row.app), CurrentSpec(t, row.app), row.stage)
  }

  lemma StillRetractable(w: World, v: World, h: Host, apps: set<string>, rows: seq<DeployRow>, i: nat)
    requires Guarded(w.host.files, v.host.files, Apps(SlugsOf(apps))) && v.tables.apps == w.tables.apps && i < |rows|
    ensures AllRetractable(w.host.files, h, w.tables, rows) ==>
              Retractable(v.host.files, h, Slug(rows[i].app), CurrentSpec(v.tables, rows[i].app), rows[i].stage)
  {
    hide Guarded;
    hide Reversible;
    var row := rows[i];
    assert row in rows;
    if Reversible(w.host.files, h, Slug(row.app), CurrentSpec(w.tables, row.app)) {
      StaysReversible(w.host.files, v.host.files, Apps(SlugsOf(apps)), h, Slug(row.app),
          CurrentSpec(w.tables, row.app));
    }
  }

  /** Every one was rolled back. */
  predicate AllBack(outcomes: seq<DeployOutcome>) {
    forall o | o in outcomes :: o.RolledBack?
  }

  /**
   * Recover from crashed deploys. However it ends, every account is kept and nothing but kuadrat's
   * own files has changed; the live side is lost only with an undo that may have been cut.
   */
  method Reconcile(ctx: Ctx, ghost apps: set<string>, ghost left: set<string>)
    returns (r: Io<seq<DeployOutcome>>, ghost rest: set<string>)
    requires ctx.host.Valid() && Sound(Now(ctx), apps, left)
    modifies ctx.host, ctx.store, ctx.sink
    ensures ctx.host.Valid() && Sound(Now(ctx), apps, rest) && ctx.store.apps == old(ctx.store.apps)
    ensures rest <= left
    ensures Guarded(old(ctx.host.files), ctx.host.files, Apps(SlugsOf(apps)))
    ensures KeepsLiveButCut(old(Now(ctx)), Now(ctx), apps)
    ensures r.Ok? ==> Recovered(old(ctx.store.State()), ctx.store.State(), InProgressDeploys(old(ctx.store.State())),
              r.value)
    ensures r.Ok? ==> NoFragmentLeft(InProgressDeploys(old(ctx.store.State())), r.value, rest)
    ensures r.Ok? ==> OutcomesFit(InProgressDeploys(old(ctx.store.State())), r.value)
    ensures r.Ok? ==> ctx.sink.sent == old(ctx.sink.sent) + TerminalEvents(old(ctx.store.nextEvent),
              InProgressDeploys(old(ctx.store.State())), r.value)
    ensures r == Ok([]) ==> Now(ctx) == old(Now(ctx)).(tables := ReleaseOrphanedLocks(old(ctx.store.State())))
    ensures ctx.store.calm ==> !r.Err? && (ctx.host.calm ==> r.Ok?)
    // In a calm world, with no one else's file in the way and stored specs that can be applied, everything is
    // rolled back.
    ensures ctx.store.calm ==>
              AllRetractable(old(ctx.host.files), ctx.host, old(ctx.store.State()),
                  InProgressDeploys(old(ctx.store.State()))) ==>
              r.Ok? && AllBack(r.value)
  {
    hide AllRetractable;
    hide Retractable;
    hide Sound;
    hide Guarded;
    hide KeepsLiveUnless;
    hide Midway;
    hide WorkList;
    hide Recovered;
    hide RowsRecovered;
    hide LocksRecovered;
    hide Pending;
    hide GivenUp;
    hide StoppedAt;
    hide KeepsLiveButCut;
    hide RowCut;
    hide Consistent;
    hide OutcomesFit;
    ghost var w := Now(ctx);
    rest := left;
    ghost var cut: set<string> := {};
    GuardedSame(w.host.files, Apps(SlugsOf(apps)));
    NothingLost(w, apps);
    OnlyTheCutAreLost(w, w, apps, {});
    SoundIsConsistent(w, apps, left);
    InProgressFromIsExact(w.tables, 1);
    var rows :- ctx.store.InProgressDeploys();
    var outcomes := [];
    StartMidway(w, apps, rows);
    for i := 0 to |rows|
      invariant |outcomes| == i
      invariant rest <= left && NoFragmentLeft(rows, outcomes, rest)
      invariant ctx.host.Valid() && Sound(Now(ctx), apps, rest) && Midway(w, Now(ctx), apps, rows, outcomes)
      invariant KeepsLiveUnless(w, Now(ctx), apps, cut) && Guarded(w.host.files, ctx.host.files, Apps(SlugsOf(apps)))
      invariant ctx.store.apps == w.tables.apps
      invariant forall app | app in cut :: GivenUp(w.tables, ctx.store.State(), app)
      invariant ctx.store.calm && AllRetractable(w.host.files, ctx.host, w.tables, rows) ==> AllBack(outcomes)
    {
      StillRetractable(w, Now(ctx), ctx.host, apps, rows, i);
      NextIsPending(w, Now(ctx), apps, rows, outcomes);
      RowIsKnown(Now(ctx), apps, rest, rows[i]);
      ghost var v, row := Now(ctx), rows[i];
      var step := ReconcileRow(ctx, rows[i], apps, rest);
      RowIsWithin(v.host.files, ctx.host.files, apps, row.app);
      GuardedChain(w.host.files, v.host.files, ctx.host.files, Apps(SlugsOf(apps)));
      cut := CutStep(w, v, Now(ctx), apps, rows, outcomes, cut);
      var outcome :- step;
      RowOfWorkList(v.tables, rows[i]);
      StepMidway(w, v, Now(ctx), apps, rows, outcomes, outcome);
      NoFragmentLeftStep(rows, outcomes, rest, outcome);
      rest := Remaining(rest, rows[i], outcome);
      outcomes := outcomes + [outcome];
    }
    ghost var v := Now(ctx);
    MidwayIsRecovered(w, v, apps, rows, outcomes);
    LocksAreNoAccount(v, apps, rest, ReleaseOrphanedLocks(v.tables).locks);
    LiveChain(w, v, v.(tables := ReleaseOrphanedLocks(v.tables)), apps, cut, {});
    assert cut + {} == cut;
    OnlyTheCutAreLost(w, v, apps, cut);
    SameRowsGivenUp(w.tables, v.tables, ReleaseOrphanedLocks(v.tables), cut);
    OnlyTheCutAreLost(w, v.(tables := ReleaseOrphanedLocks(v.tables)), apps, cut);
    var freed := ctx.store.ReleaseOrphanedLocks();
    assert Now(ctx) == v || Now(ctx) == v.(tables := ReleaseOrphanedLocks(v.tables));
    var _ :- freed;
    return Ok(outcomes), rest;
  }

  lemma NothingLost(w: World, apps: set<string>)
    ensures KeepsLiveUnless(w, w, apps, {})
  {
  }

  lemma SoundIsConsistent(w: World, apps: set<string>, left: set<string>)
    requires Sound(w, apps, left)
    ensures Consistent(w.tables)
  {
  }

  lemma RowOfWorkList(t: Tables, row: DeployRow)
    requires Pending(t, row)
    ensures row.id in t.deploys
  {
  }

  lemma MidwayIsRecovered(w: World, v: World, apps: set<string>, rows: seq<DeployRow>, outcomes: seq<DeployOutcome>)
    requires Midway(w, v, apps, rows, outcomes) && WorkList(w.tables, 1, rows) && Consistent(w.tables)
              && |outcomes| == |rows|
    ensures Recovered(w.tables, ReleaseOrphanedLocks(v.tables), rows, outcomes)
    ensures OutcomesFit(rows, outcomes)
    ensures v.sent == w.sent + TerminalEvents(w.tables.nextEvent, rows, outcomes)
    ensures outcomes == [] ==> v == w
  {
    hide WorkList;
    hide RowsRecovered;
    hide LocksRecovered;
    hide Recovered;
    assert rows[..|outcomes|] == rows;
    AllRecovered(w.tables, v.tables, rows, outcomes);
  }
}
