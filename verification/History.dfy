/** What follows for whole histories: any operations, any failures, any crashes, any number of restarts. */
module History {
  import opened Wrappers
  import opened Slugs
  import opened Specs
  import opened Paths
  import opened Tables
  import opened Render
  import opened Host
  import opened Managed
  import opened Apply
  import opened Gateway
  import opened Convergence
  import opened Undo
  import opened Store
  import opened Deploy
  import opened Stages
  import opened Runs
  import opened Recovery
  import opened Triggers

  // ---- every reachable state ---------------------------------------------------------------

  datatype Operation =
    | ReserveDeploy(name: string)
    | RunDeploy(id: int, spec: WorkloadSpec, outside: Outside)
    | ReconcileAll
    | Deliver(name: string, push: Option<Push>, prepared: Option<WorkloadSpec>)
    | Register(config: AppConfig)

  predicate Known(op: Operation, apps: set<string>) {
    match op
    case ReserveDeploy(name) => name in apps
    case RunDeploy(_, spec, _) => spec.name in apps
    case ReconcileAll => true
    case Deliver(name, _, _) => name in apps
    case Register(config) => config.name in apps
  }

  /** A host kuadrat has not touched yet, and an empty store. */
  lemma FreshIsSound(w: World, apps: set<string>)
    requires Universe(apps) && w.tables == Tables(map[], 1, map[], [], 1, map[], map[])
    requires forall app, f | app in apps && Touches(Slug(app), f) :: f !in w.host.files
    ensures Sound(w, apps, {})
  {
    forall app | app in apps ensures UnitsConverge(w.host.files, w.tables, app)
        && RouteConverges(w.host.files, w.tables, app, {}) {
      assert Touches(Slug(app), UnitFile(Slug(app))) && Touches(Slug(app), Fragment(Slug(app)));
      forall f | f in w.host.files ensures !IsTaskFile(Slug(app), f) {
        assert !Touches(Slug(app), f);
      }
    }
  }

  /** Registering changes no account. */
  method RegisterStep(ctx: Ctx, config: AppConfig, ghost apps: set<string>, ghost left: set<string>)
    requires Sound(Now(ctx), apps, left)
    modifies ctx.store
    ensures Sound(Now(ctx), apps, left) && KeepsLive(old(Now(ctx)), Now(ctx), apps)
  {
    hide Sound;
    hide KeepsLive;
    ghost var w := Now(ctx);
    AllStayLive(w, apps);
    if RegisterApp(w.tables, config).Some? {
      ConfigsAreNoAccount(w, apps, left, RegisterApp(w.tables, config).value.configs);
    }
    var _ := ctx.store.RegisterApp(config);
    assert Now(ctx) == w || (RegisterApp(w.tables, config).Some?
        && Now(ctx) == w.(tables := RegisterApp(w.tables, config).value));
  }

  lemma ConfigsAreNoAccount(w: World, apps: set<string>, left: set<string>, configs: map<string, AppConfig>)
    requires Sound(w, apps, left)
    ensures Sound(w.(tables := w.tables.(configs := configs)), apps, left)
    ensures KeepsLive(w, w.(tables := w.tables.(configs := configs)), apps)
  {
    hide Converges;
    hide LiveConverges;
    StoreOnly(w, w.(tables := w.tables.(configs := configs)), apps, left);
  }

  /** This operation brings the deploy's row, in progress before, to a good end. */
  predicate Finishes(w: World, u: World, op: Operation) {
    op.RunDeploy? && Live(w.tables, op.id) && op.id in u.tables.deploys && u.tables.deploys[op.id].status == Status.Done
  }

  /**
   * The two ways a deploy that is not undone can leave its own app's live side behind: it starts over
   * a crashed deploy nobody has reconciled, or it is done and has taken away a route.
   */
  ghost predicate Risky(w: World, u: World, op: Operation, app: string) {
    && op.RunDeploy? && op.spec.name == app
    && (|| Underway(w.tables, app, Stage.Apply)
        || (op.spec.route.None? && RouteFor(CurrentSpec(w.tables, app)).Some? && Finishes(w, u, op)))
  }

  /**
   * An undo of the app may have been cut in this operation, going by what it left in the store: the run
   * stored a failed stage at Apply or later and its row is not rolled back; or a reconcile
   * gave up a deploy of the app, or stopped at one.
   */
  ghost predicate CutBy(w: World, u: World, op: Operation, app: string) {
    match op
    case RunDeploy(id, spec, _) =>
      && spec.name == app && id in u.tables.deploys && DirtyRow(u.tables.deploys[id], app, Stage.Apply)
      && FailureTold(w.tables.events, u.tables.events, id)
    case ReconcileAll => UndoCut(w.tables, u.tables, app)
    case _ => false
  }

  /** What one operation keeps of the live side: every app's, unless an undo may have been cut or it was put at risk. */
  ghost predicate KeepsLiveBut(w: World, u: World, op: Operation, apps: set<string>) {
    forall app | app in apps && !CutBy(w, u, op, app) && !Risky(w, u, op, app) ::
      LiveConverges(w.host, w.tables, app) ==> LiveConverges(u.host, u.tables, app)
  }

  lemma KeepsAllLive(w: World, u: World, op: Operation, apps: set<string>)
    requires KeepsLive(w, u, apps)
    ensures KeepsLiveBut(w, u, op, apps)
  {
    hide LiveConverges;
  }

  lemma ReconcileKeepsLive(w: World, u: World, op: Operation, apps: set<string>)
    requires op.ReconcileAll? && KeepsLiveButCut(w, u, apps)
    ensures KeepsLiveBut(w, u, op, apps)
  {
    hide LiveConverges;
    hide UndoCut;
  }

  /** Live and with nothing underway is in place. */
  lemma LiveIsInPlace(w: World, app: string)
    requires LiveConverges(w.host, w.tables, app) && !Underway(w.tables, app, Stage.Apply)
    ensures AppLive(w.host, Slug(app), CurrentSpec(w.tables, app))
  {
    hide UnitsLive;
    hide RouteLive;
  }

  /** A run, seen from its history. */
  lemma RunKeepsLive(w: World, u: World, op: Operation, apps: set<string>, left: set<string>)
    requires op.RunDeploy? && KeepsOthersLive(w, u, apps, op.spec.name)
    requires var run := Start(w, apps, left, op.spec.name, op.id);
             Exposed(u.tables, run) || LiveAfter(u, run, Deployed(op.spec, op.outside))
    ensures KeepsLiveBut(w, u, op, apps)
  {
    hide LiveConverges;
    hide AppLive;
    hide FailureTold;
    var app := op.spec.name;
    if !Risky(w, u, op, app) && LiveConverges(w.host, w.tables, app) {
      LiveIsInPlace(w, app);
    }
  }

  // ---- deploys that put things in place ----------------------------------------------------

  /** A deploy this operation brought to a good end, or rolled back at Apply or later. */
  predicate Settles(w: World, u: World, op: Operation) {
    || Finishes(w, u, op)
    || (&& op.RunDeploy? && Live(w.tables, op.id) && op.id in u.tables.deploys
        && u.tables.deploys[op.id].status == Status.RolledBack
        && u.tables.deploys[op.id].stage.Rank() >= Stage.Apply.Rank())
  }

  /** Then the app's files are exactly its stored spec's, whatever older rows say. */
  ghost predicate PutsInPlace(w: World, u: World, op: Operation) {
    Settles(w, u, op) ==>
      FilesAgree(u.host.files, Slug(op.spec.name), PlanFor(CurrentSpec(u.tables, op.spec.name)))
  }

  lemma RunPutsInPlace(w: World, u: World, op: Operation, apps: set<string>, left: set<string>)
    requires op.RunDeploy?
    requires var run := Start(w, apps, left, op.spec.name, op.id);
             Mended(u, run) && DoneMeans(w.host, u, run, Deployed(op.spec, op.outside))
    ensures PutsInPlace(w, u, op)
  {
    hide FilesAgree;
  }

  // ---- fragments left behind ---------------------------------------------------------------

  /**
   * This operation is a deploy of the app that is done, whose spec has no route, and that did not
   * touch the fragment.
   */
  ghost predicate LeavesBehind(w: World, u: World, op: Operation, app: string) {
    Finishes(w, u, op) && op.spec.name == app && op.spec.route.None? && FragmentLeft(w.host, u.host, Slug(app))
  }

  /** The app has a fragment although its stored spec has no route. */
  ghost predicate HasLeftover(w: World, app: string) {
    Cleared(w.tables, app) && !RouteAgrees(w.host.files, Slug(app), None)
  }

  /** `rest` are the apps with a leftover fragment: of those before, or left behind by this operation. */
  ghost predicate LeftStep(w: World, u: World, op: Operation, left: set<string>, rest: set<string>) {
    forall app | app in rest :: HasLeftover(u, app) && (app in left || LeavesBehind(w, u, op, app))
  }

  /**
   * The exception is real: a deploy that is done and has taken away a route leaves the fragment of an
   * app that was in place.
   */
  lemma ClearingLeaves(w: World, u: World, op: Operation, app: string)
    requires LeavesBehind(w, u, op, app) && Cleared(u.tables, app)
    requires RouteFor(CurrentSpec(w.tables, app)).Some? && AppLive(w.host, Slug(app), CurrentSpec(w.tables, app))
    ensures HasLeftover(u, app) && !AppLive(u.host, Slug(app), CurrentSpec(u.tables, app))
  {
  }

  lemma TrimmedLeft(w: World, u: World, op: Operation, apps: set<string>, left: set<string>, more: set<string>)
    requires Sound(u, apps, more) && forall app | app in more && app !in left && Cleared(u.tables, app) ::
              LeavesBehind(w, u, op, app)
    ensures var rest := ReallyLeft(u.host.files, u.tables, more); Sound(u, apps, rest) && LeftStep(w, u, op, left, rest)
  {
    hide Converges;
    ReallyLeftConverges(u.host.files, u.tables, apps, more);
  }

  /** Only the run's own app can be added, and only by a run that is done. */
  lemma RunLeavesBehind(w: World, u: World, op: Operation, apps: set<string>, left: set<string>, app: string)
    requires op.RunDeploy? && app !in left && Cleared(u.tables, app)
    requires var run := Start(w, apps, left, op.spec.name, op.id);
             app in Leftovers(u.tables, run) && DoneMeans(w.host, u, run, Deployed(op.spec, op.outside))
    ensures LeavesBehind(w, u, op, app)
  {
  }

  lemma RunLeft(w: World, u: World, op: Operation, apps: set<string>, left: set<string>)
    requires op.RunDeploy?
    requires var run := Start(w, apps, left, op.spec.name, op.id);
             && Sound(u, apps, Leftovers(u.tables, run))
             && DoneMeans(w.host, u, run, Deployed(op.spec, op.outside))
    ensures var rest := ReallyLeft(u.host.files, u.tables,
              Leftovers(u.tables, Start(w, apps, left, op.spec.name, op.id)));
            Sound(u, apps, rest) && LeftStep(w, u, op, left, rest)
  {
    hide Sound;
    hide DoneMeans;
    hide LeavesBehind;
    var more := Leftovers(u.tables, Start(w, apps, left, op.spec.name, op.id));
    forall app | app in more && app !in left && Cleared(u.tables, app) ensures LeavesBehind(w, u, op, app) {
      RunLeavesBehind(w, u, op, apps, left, app);
    }
    TrimmedLeft(w, u, op, apps, left, more);
  }

  // ---- any history -------------------------------------------------------------------------

  /** One operation, ending normally, in an error, or in the death of its process. */
  method Perform(ctx: Ctx, co: Checkout, op: Operation, ghost apps: set<string>, ghost left: set<string>)
    returns (ghost rest: set<string>)
    requires ctx.host.Valid() && Sound(Now(ctx), apps, left) && Known(op, apps)
    modifies ctx.host, ctx.store, ctx.sink, co
    ensures ctx.host.Valid() && Sound(Now(ctx), apps, rest)
    ensures Guarded(old(ctx.host.files), ctx.host.files, Apps(SlugsOf(apps)))
    ensures KeepsLiveBut(old(Now(ctx)), Now(ctx), op, apps) && PutsInPlace(old(Now(ctx)), Now(ctx), op)
    ensures LeftStep(old(Now(ctx)), Now(ctx), op, left, rest)
  {
    hide Sound;
    hide Guarded;
    hide Core;
    hide Recovered;
    hide Recorded;
    hide Reserved;
    hide KeepsLive;
    hide KeepsOthersLive;
    hide LiveAfter;
    hide Exposed;
    hide LiveConverges;
    hide Dirty;
    hide EndsAs;
    hide OutcomesFit;
    hide NoFragmentLeft;
    hide DoneMeans;
    hide Leftovers;
    hide LeftStep;
    hide KeepsLiveBut;
    hide KeepsLiveButCut;
    hide Mended;
    ghost var w := Now(ctx);
    ghost var more := left;
    GuardedSame(ctx.host.files, Apps(SlugsOf(apps)));
    AllStayLive(w, apps);
    KeepsAllLive(w, w, op, apps);
    match op {
      case ReserveDeploy(name) =>
        var _ := Reserve(ctx, name, apps, left);
        KeepsAllLive(w, Now(ctx), op, apps);
      case RunDeploy(id, spec, outside) =>
        if Reserved(ctx.store.State(), id, spec.name) {
          var _ := RunReserved(ctx, spec, outside, id, apps, left);
          RunKeepsLive(w, Now(ctx), op, apps, left);
          RunPutsInPlace(w, Now(ctx), op, apps, left);
          RowIsWithin(old(ctx.host.files), ctx.host.files, apps, spec.name);
          RunLeft(w, Now(ctx), op, apps, left);
          return ReallyLeft(ctx.host.files, ctx.store.State(),
              Leftovers(ctx.store.State(), Start(w, apps, left, spec.name, id)));
        }
      case ReconcileAll =>
        var _, fewer := Reconcile(ctx, apps, left);
        ReconcileKeepsLive(w, Now(ctx), op, apps);
        more := fewer;
      case Deliver(name, push, prepared) =>
        var _ := DispatchPush(ctx, co, name, push, prepared, apps, left);
        KeepsAllLive(w, Now(ctx), op, apps);
      case Register(config) =>
        RegisterStep(ctx, config, apps, left);
        KeepsAllLive(w, Now(ctx), op, apps);
    }
    rest := ReallyLeft(ctx.host.files, ctx.store.State(), more);
    TrimmedLeft(w, Now(ctx), op, apps, left, more);
  }

  /** A history: the states before its operations and at the end, and the apps with a leftover fragment in each. */
  datatype Trace = Trace(states: seq<World>, lefts: seq<set<string>>)

  /**
   * In every state each app's files are accounted for and the ownership frame holds; each operation
   * keeps the live side and the leftover fragments as it should, and a deploy it settles is in place.
   */
  ghost predicate Traced(ops: seq<Operation>, h: Trace, apps: set<string>) {
    && |h.states| == |h.lefts| == |ops| + 1
    && (forall i | 0 <= i < |h.states| :: Sound(h.states[i], apps, h.lefts[i]))
    && (forall i | 0 <= i < |h.states| :: Guarded(h.states[0].host.files, h.states[i].host.files, Apps(SlugsOf(apps))))
    && (forall i | 0 <= i < |ops| :: KeepsLiveBut(h.states[i], h.states[i + 1], ops[i], apps))
    && (forall i | 0 <= i < |ops| :: PutsInPlace(h.states[i], h.states[i + 1], ops[i]))
    && (forall i | 0 <= i < |ops| :: LeftStep(h.states[i], h.states[i + 1], ops[i], h.lefts[i], h.lefts[i + 1]))
  }

  /**
   * Any history at all: in every state between operations each app's files are what its stored spec
   * renders, or an unfinished or failed row accounts for the difference, or the app has a fragment that
   * a finished deploy left behind; every file kuadrat did not write is byte-identical, and every file it
   * created or changed carries the marker.
   */
  method Play(ctx: Ctx, co: Checkout, ops: seq<Operation>, ghost apps: set<string>, ghost left: set<string>)
    returns (ghost h: Trace)
    requires ctx.host.Valid() && Sound(Now(ctx), apps, left) && forall op | op in ops :: Known(op, apps)
    modifies ctx.host, ctx.store, ctx.sink, co
    ensures ctx.host.Valid() && Traced(ops, h, apps)
    ensures h.states[0] == old(Now(ctx)) && h.lefts[0] == left && h.states[|ops|] == Now(ctx)
  {
    hide Sound;
    hide Guarded;
    hide Known;
    hide KeepsLiveBut;
    hide LeftStep;
    hide PutsInPlace;
    h := Trace([Now(ctx)], [left]);
    GuardedSame(ctx.host.files, Apps(SlugsOf(apps)));
    for i := 0 to |ops|
      invariant ctx.host.Valid() && Traced(ops[..i], h, apps)
      invariant h.states[0] == old(Now(ctx)) && h.lefts[0] == left && h.states[i] == Now(ctx)
    {
      assert ops[i] in ops;
      ghost var rest := Perform(ctx, co, ops[i], apps, h.lefts[i]);
      GuardedChain(h.states[0].host.files, h.states[i].host.files, ctx.host.files, Apps(SlugsOf(apps)));
      h := Trace(h.states + [Now(ctx)], h.lefts + [rest]);
    }
    assert ops[..|ops|] == ops;
  }

  /**
   * Over a whole history, with crashes anywhere: the workload, timers, fragment and proxied route of an
   * app stay what its stored spec says, or within one undo of it while a deploy of the app is
   * unfinished, as long as no undo of the app is cut, none of its deploys starts over a crash that was
   * not reconciled, and none that is done takes its route away. What happens to other apps plays no part.
   */
  lemma {:induction false} LiveThroughout(ops: seq<Operation>, h: Trace, apps: set<string>, app: string, n: nat)
    requires Traced(ops, h, apps) && app in apps && n <= |ops|
    requires LiveConverges(h.states[0].host, h.states[0].tables, app)
    requires forall i | 0 <= i < n :: !CutBy(h.states[i], h.states[i + 1], ops[i], app)
    requires forall i | 0 <= i < n :: !Risky(h.states[i], h.states[i + 1], ops[i], app)
    ensures LiveConverges(h.states[n].host, h.states[n].tables, app)
  {
    hide LiveConverges;
    hide Sound;
    hide Guarded;
    hide Risky;
    hide CutBy;
    hide PutsInPlace;
    hide LeftStep;
    if n > 0 {
      LiveThroughout(ops, h, apps, app, n - 1);
      assert KeepsLiveBut(h.states[n - 1], h.states[n], ops[n - 1], apps);
    }
  }

  /**
   * The fragment of an app that starts without a leftover is only ever left behind by a done deploy
   * without a route.
   */
  lemma {:induction false} NothingLeftBehind(ops: seq<Operation>, h: Trace, apps: set<string>, app: string, n: nat)
    requires Traced(ops, h, apps) && n <= |ops| && app !in h.lefts[0]
    requires forall i | 0 <= i < n :: !LeavesBehind(h.states[i], h.states[i + 1], ops[i], app)
    ensures app !in h.lefts[n]
  {
    hide Sound;
    hide Guarded;
    hide KeepsLiveBut;
    hide LeavesBehind;
    hide HasLeftover;
    hide PutsInPlace;
    if n > 0 {
      NothingLeftBehind(ops, h, apps, app, n - 1);
      assert LeftStep(h.states[n - 1], h.states[n], ops[n - 1], h.lefts[n - 1], h.lefts[n]);
    }
  }

  // ---- after a reconcile -------------------------------------------------------------------

  /** With nothing in progress and no failed row at `from` or later, nothing accounts for a difference. */
  lemma NothingDirty(t: Tables, app: string, from: Stage)
    requires forall id :: !Live(t, id)
    requires forall id | id in t.deploys && t.deploys[id].app == app
              && t.deploys[id].status == Status.Failed :: t.deploys[id].stage.Rank() < from.Rank()
    ensures !Dirty(t, app, from) && !Underway(t, app, from)
  {
    forall id | id in t.deploys ensures !DirtyRow(t.deploys[id], app, from) && !UnderwayRow(t.deploys[id], app, from) {
      assert !Live(t, id);
    }
  }

  /**
   * After a reconcile with no failed row, the unit and task files of an app are exactly what its stored
   * spec renders, and so is its fragment unless a finished deploy left one behind.
   */
  lemma FilesAreTheSpecs(w: World, apps: set<string>, left: set<string>, app: string)
    requires Sound(w, apps, left) && app in apps
    requires forall id :: !Live(w.tables, id)
    requires forall id | id in w.tables.deploys && w.tables.deploys[id].app == app
              && w.tables.deploys[id].status == Status.Failed ::
               w.tables.deploys[id].stage.Rank() < Stage.Apply.Rank()
    ensures FilesAgree(w.host.files, Slug(app), PlanFor(CurrentSpec(w.tables, app)))
    ensures app !in left ==> RouteAgrees(w.host.files, Slug(app), RouteFor(CurrentSpec(w.tables, app)))
    ensures RouteAgrees(w.host.files, Slug(app), RouteFor(CurrentSpec(w.tables, app))) <==> !HasLeftover(w, app)
  {
    hide FilesAgree;
    NothingDirty(w.tables, app, Stage.Apply);
    NothingDirty(w.tables, app, Stage.Route);
    assert UnitsConverge(w.host.files, w.tables, app) && RouteConverges(w.host.files, w.tables, app, left);
  }

  /**
   * The live account with nothing in progress: workload, timers, fragment and proxy are the stored
   * spec's.
   */
  lemma LiveIsTheSpecs(w: World, app: string)
    requires LiveConverges(w.host, w.tables, app) && forall id :: !Live(w.tables, id)
    ensures AppLive(w.host, Slug(app), CurrentSpec(w.tables, app))
  {
    hide UnitsLive;
    hide RouteLive;
    forall id, from | id in w.tables.deploys ensures !UnderwayRow(w.tables.deploys[id], app, from) {
      assert !Live(w.tables, id);
    }
  }

  /** A row that is done stays done. */
  lemma DoneStays(t: Tables, u: Tables, run: Run, rows: seq<DeployRow>, outcomes: seq<DeployOutcome>)
    requires WorkList(t, 1, rows) && Recovered(t, u, rows, outcomes) && DoneBy(t, run)
    ensures DoneBy(u, run)
  {
    assert forall j | 0 <= j < |rows| :: rows[j] in rows && rows[j].id != run.id;
  }

  lemma NothingCut(t: Tables, u: Tables, rows: seq<DeployRow>, outcomes: seq<DeployOutcome>, app: string)
    requires WorkList(t, 1, rows) && Consistent(t) && |outcomes| == |rows| && AllBack(outcomes)
    requires DeploysRecovered(t.deploys, u.deploys, rows, outcomes)
    ensures !UndoCut(t, u, app)
  {
    forall k | k in t.deploys && UnderwayRow(t.deploys[k], app, Stage.Apply)
      ensures k in u.deploys && u.deploys[k].status == Status.RolledBack
    {
      assert Live(t, k);
      var j :| 0 <= j < |rows| && rows[j] == t.deploys[k];
      assert outcomes[j] in outcomes;
    }
  }

  lemma FailureStays(before: seq<StoredEvent>, events: seq<StoredEvent>, later: seq<StoredEvent>, id: int)
    requires FailureTold(before, events, id) && events <= later
    ensures FailureTold(before, later, id)
  {
    var i :| |before| <= i < |events| && events[i].event.deployId == id && events[i].event.kind.StageEvent?
      && events[i].event.kind.status == Broken && events[i].event.kind.stage.Rank() >= Stage.Apply.Rank();
    assert later[i] == events[i];
  }

  /** Everything it found rolled back: no undo was cut, and no failed stage was added to the log. */
  lemma AllRolledBack(t: Tables, u: Tables, rows: seq<DeployRow>, outcomes: seq<DeployOutcome>,
      before: seq<StoredEvent>, id: int, app: string)
    requires WorkList(t, 1, rows) && Consistent(t) && Recovered(t, u, rows, outcomes)
    requires AllBack(outcomes)
    ensures !UndoCut(t, u, app)
    ensures FailureTold(before, t.events, id) ==> FailureTold(before, u.events, id)
  {
    hide UndoCut;
    hide FailureTold;
    hide WorkList;
    hide DeploysRecovered;
    hide Consistent;
    NothingCut(t, u, rows, outcomes, app);
    if FailureTold(before, t.events, id) {
      FailureStays(before, t.events, u.events, id);
    }
  }

  lemma SoundWorkList(w: World, apps: set<string>, left: set<string>)
    requires Sound(w, apps, left)
    ensures WorkList(w.tables, 1, InProgressDeploys(w.tables)) && Consistent(w.tables)
  {
    InProgressFromIsExact(w.tables, 1);
  }

  /** What a run reports, if it reports anything, says whether its undo was cut. */
  lemma ReportedIsSafe(w: World, run: Run, spec: WorkloadSpec, outcome: DeployOutcome)
    requires EndsAs(w, run, spec, outcome) && !outcome.Failed?
    ensures !Exposed(w.tables, run)
  {
  }

  /**
   * A run that crashes or fails anywhere, followed by a reconcile that gets through, leaves an app that
   * was in place in place: on the previous spec, or on the new one when the crash came after it was
   * stored. It is enough that the run did not come to an undo, having stored no failed stage at Apply or
   * later, or that it reported anything but a failed undo; and that the reconcile rolled back what it found. The one
   * exception is a run that is done and has taken away a route.
   */
  method CrashThenReconcile(ctx: Ctx, spec: WorkloadSpec, outside: Outside, id: int, ghost apps: set<string>,
      ghost left: set<string>)
    returns (ran: Io<DeployOutcome>, r: Io<seq<DeployOutcome>>, ghost rest: set<string>)
    requires ctx.host.Valid() && Sound(Now(ctx), apps, left) && spec.name in apps
    requires Reserved(ctx.store.State(), id, spec.name)
    modifies ctx.host, ctx.store, ctx.sink
    ensures ctx.host.Valid() && Sound(Now(ctx), apps, rest)
    ensures r.Ok? ==> rest <= Leftovers(ctx.store.State(), Start(old(Now(ctx)), apps, left, spec.name, id))
    ensures r.Ok? ==> forall k :: !Live(ctx.store.State(), k)
    ensures CurrentSpec(ctx.store.State(), spec.name) in {old(CurrentSpec(ctx.store.State(), spec.name)),
              Some(Deployed(spec, outside))}
    ensures && old(AppLive(Snapshot(ctx.host), Slug(spec.name), CurrentSpec(ctx.store.State(), spec.name)))
            && ((ran.Ok? && !ran.value.Failed?) || !FailureTold(old(ctx.store.events), ctx.store.events, id))
            && r.Ok? && AllBack(r.value)
            && !(&& spec.route.None? && RouteFor(old(CurrentSpec(ctx.store.State(), spec.name))).Some?
                 && DoneBy(ctx.store.State(), Start(old(Now(ctx)), apps, left, spec.name, id)))
            ==> AppLive(Snapshot(ctx.host), Slug(spec.name), CurrentSpec(ctx.store.State(), spec.name))
  {
    hide Sound;
    hide Guarded;
    hide Core;
    hide AppLive;
    hide LiveConverges;
    hide EndsAs;
    hide RowsRecovered;
    hide OutcomesFit;
    hide NoFragmentLeft;
    hide DoneMeans;
    hide Mended;
    hide DoneBy;
    hide WorkList;
    hide Consistent;
    hide Recovered;
    hide UndoCut;
    hide FailureTold;
    hide Reserved;
    hide FragmentLeft;
    hide Unhindered;
    ghost var run := Start(Now(ctx), apps, left, spec.name, id);
    ran := RunReserved(ctx, spec, outside, id, apps, left);
    ghost var w := Now(ctx);
    if ran.Ok? && !ran.value.Failed? {
      ReportedIsSafe(w, run, Deployed(spec, outside), ran.value);
    }
    SoundWorkList(w, apps, Leftovers(w.tables, run));
    r, rest := Reconcile(ctx, apps, Leftovers(w.tables, run));
    if r.Ok? {
      NothingLive(w.tables, ctx.store.State(), InProgressDeploys(w.tables), r.value);
      if DoneBy(w.tables, run) {
        DoneStays(w.tables, ctx.store.State(), run, InProgressDeploys(w.tables), r.value);
      }
      if AllBack(r.value) {
        AllRolledBack(w.tables, ctx.store.State(), InProgressDeploys(w.tables), r.value, run.before.events, id,
                      spec.name);
        if run.live && !Exposed(w.tables, run) && !(LeavesFragment(run, spec) && DoneBy(w.tables, run)) {
          assert LiveConverges(w.host, w.tables, spec.name);
          LiveIsTheSpecs(Now(ctx), spec.name);
        }
      }
    }
  }

  lemma NothingLive(t: Tables, u: Tables, rows: seq<DeployRow>, outcomes: seq<DeployOutcome>)
    requires Recovered(t, u, rows, outcomes)
    ensures forall id :: !Live(u, id)
  {
  }

  /** A reconcile that gets through leaves nothing in progress, and no lock when each names a deploy. */
  method ReconcileSettles(ctx: Ctx, ghost apps: set<string>, ghost left: set<string>)
    returns (r: Io<seq<DeployOutcome>>)
    requires ctx.host.Valid() && Sound(Now(ctx), apps, left)
    requires forall app | app in ctx.store.locks :: ctx.store.locks[app] in ctx.store.deploys
    modifies ctx.host, ctx.store, ctx.sink
    ensures r.Ok? ==> ctx.store.locks == map[] && forall id :: !Live(ctx.store.State(), id)
  {
    hide Sound;
    hide Guarded;
    hide RowsRecovered;
    hide OutcomesFit;
    ghost var rest;
    r, rest := Reconcile(ctx, apps, left);
  }

  /**
   * In a calm world, with no one else's file in the way and stored specs that can be applied, a reconcile
   * leaves every app whose live side was accounted for exactly as its stored spec says, whatever crashed.
   */
  method CalmReconcile(ctx: Ctx, ghost apps: set<string>, ghost left: set<string>) returns (r: Io<seq<DeployOutcome>>)
    requires ctx.host.Valid() && Sound(Now(ctx), apps, left) && ctx.host.calm && ctx.store.calm
    requires AllRetractable(ctx.host.files, ctx.host, ctx.store.State(), InProgressDeploys(ctx.store.State()))
    modifies ctx.host, ctx.store, ctx.sink
    ensures r.Ok? && AllBack(r.value) && ctx.store.apps == old(ctx.store.apps)
    ensures forall id :: !Live(ctx.store.State(), id)
    ensures forall app | app in apps && old(LiveConverges(Snapshot(ctx.host), ctx.store.State(), app)) ::
              AppLive(Snapshot(ctx.host), Slug(app), CurrentSpec(ctx.store.State(), app))
  {
    hide Sound;
    hide Guarded;
    hide LiveConverges;
    hide AppLive;
    hide RowsRecovered;
    hide OutcomesFit;
    hide NoFragmentLeft;
    hide WorkList;
    hide Consistent;
    hide Recovered;
    hide UndoCut;
    hide AllRetractable;
    ghost var w := Now(ctx);
    SoundWorkList(w, apps, left);
    ghost var rest;
    r, rest := Reconcile(ctx, apps, left);
    NothingLive(w.tables, ctx.store.State(), InProgressDeploys(w.tables), r.value);
    forall app | app in apps && LiveConverges(w.host, w.tables, app)
      ensures AppLive(Snapshot(ctx.host), Slug(app), CurrentSpec(ctx.store.State(), app))
    {
      AllRolledBack(w.tables, ctx.store.State(), InProgressDeploys(w.tables), r.value, [], 0, app);
      LiveIsTheSpecs(Now(ctx), app);
    }
  }

  /** From there another one finds nothing, says nothing, and changes nothing. */
  method ReconcileAgain(ctx: Ctx, ghost apps: set<string>, ghost left: set<string>) returns (r: Io<seq<DeployOutcome>>)
    requires ctx.host.Valid() && Sound(Now(ctx), apps, left)
    requires ctx.store.locks == map[] && forall id :: !Live(ctx.store.State(), id)
    modifies ctx.host, ctx.store, ctx.sink
    ensures r.Ok? ==> r == Ok([]) && Now(ctx) == old(Now(ctx))
  {
    hide Sound;
    hide Guarded;
    hide RowsRecovered;
    hide OutcomesFit;
    ghost var t, rest := ctx.store.State(), left;
    NothingInProgress(t, 1);
    r, rest := Reconcile(ctx, apps, left);
    assert ReleaseOrphanedLocks(t).locks == map[];
  }

  lemma {:induction false} NothingInProgress(t: Tables, from: int)
    requires forall id :: !Live(t, id)
    ensures InProgressFrom(t, from) == []
    decreases t.nextDeploy - from
  {
    if from < t.nextDeploy {
      NothingInProgress(t, from + 1);
    }
  }
}
