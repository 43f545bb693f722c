/** The forward path: six stages in order, each recorded before it touches the host. */
module Stages {
  import opened Wrappers
  import opened Slugs
  import opened Specs
  import opened Paths
  import opened Tables
  import opened Timelines
  import opened Render
  import opened Faults
  import opened Host
  import opened Managed
  import opened Apply
  import opened Gateway
  import opened Convergence
  import opened Undo
  import opened Store
  import opened Deploy

  /** What the world outside the model answers to the stages that only look or build. */
  datatype Outside = Outside(containerfile: bool, commit: string, builds: bool, secrets: bool, healthy: bool)

  // ---- what the stages do to the host ------------------------------------------------------

  /** Applying a spec over an app that is in place leaves a state the previous spec can be restored from. */
  lemma ForwardUnits(s: HostState, u: HostState, slug: string, previous: Option<Plan>, p: Plan)
    requires UnitsLive(s, slug, previous) && p.slug == slug
    requires UnitLeft(p, s.files, s.running, u.files, u.running)
    requires TimersBacked(s.files, s.timers, slug) ==> TimersBacked(u.files, u.timers, slug)
    ensures UnitsRecoverable(u, slug, previous)
  {
  }

  lemma ForwardApply(w: World, u: HostState, run: Run, p: Plan)
    requires Proceeding(w, run, Stage.Apply) && p.slug == Slug(run.name)
    requires run.live ==> AppLive(w.host, Slug(run.name), run.previous)
    requires Guarded(w.host.files, u.files, Units(Slug(run.name)))
    requires UnitLeft(p, w.host.files, w.host.running, u.files, u.running)
    requires TimersBacked(w.host.files, w.host.timers, p.slug) ==> TimersBacked(u.files, u.timers, p.slug)
    requires u.proxied == w.host.proxied
    ensures Proceeding(w.(host := u), run, Stage.Apply)
  {
    var slug := Slug(run.name);
    ProceedingIsSettled(w, run, Stage.Apply);
    UnitStepConverges(w.host.files, u.files, w.tables, run.apps, run.left, run.name);
    UnitsOnlyKeepsRoute(w.host, u, slug, RouteFor(run.previous));
    if run.live {
      ForwardUnits(w.host, u, slug, PlanFor(run.previous), p);
    }
  }

  /** Writing the new fragment leaves a state the previous route can be restored from. */
  lemma ForwardFragment(s: HostState, u: HostState, slug: string, previous: Option<Specs.Route>, route: Specs.Route)
    requires RouteRecoverable(s, slug, previous)
    requires u.files == s.files || u.files == s.files[Fragment(slug) := RenderFragment(route)]
    requires ProxyLeft(slug, s.proxied, u.files, u.proxied)
    ensures RouteRecoverable(u, slug, previous)
  {
  }

  lemma ForwardRoute(w: World, u: HostState, run: Run, route: Specs.Route)
    requires Proceeding(w, run, Stage.Route)
    requires Guarded(w.host.files, u.files, RouteOf(Slug(run.name)))
    requires u.files == w.host.files || u.files == w.host.files[Fragment(Slug(run.name)) := RenderFragment(route)]
    requires ProxyLeft(Slug(run.name), w.host.proxied, u.files, u.proxied)
    requires u.running == w.host.running && u.timers == w.host.timers
    ensures Proceeding(w.(host := u), run, Stage.Route)
  {
    hide Converges;
    hide WellStored;
    hide OnlyThisDeploy;
    hide Published;
    hide RouteRecoverable;
    hide UnitsRecoverable;
    hide UnitsLive;
    hide RouteLive;
    hide Guarded;
    hide LiveOk;
    hide ProxyLeft;
    var slug := Slug(run.name);
    ProceedingIsSettled(w, run, Stage.Route);
    RouteStepConverges(w.host.files, u.files, w.tables, run.apps, run.left, run.name, RouteOf(slug));
    RouteOnlyKeepsUnits(w.host, u, slug, PlanFor(run.previous));
    if run.live {
      ForwardFragment(w.host, u, slug, RouteFor(run.previous), route);
    }
  }

  /**
   * The tale after a stage that continues with `done` stages told, or that ended the run where it
   * stopped.
   */
  predicate StageTold(t: Tables, id: int, stage: Stage, r: Io<Option<DeployOutcome>>) {
    && Told(t, id)
    && (r == Ok(None) ==> Within(t, id, stage, Between(stage.Rank() + 1)))
    && (r.Ok? && r.value.Some? ==> EndTold(t, id, r.value.value))
  }

  /** The tale of a run that reports this outcome: where it stopped, how, and nothing after. */
  predicate EndTold(t: Tables, id: int, outcome: DeployOutcome) {
    && Timeline(t, id) == Closed(if outcome.Done? then Between(6) else Halted(outcome.failedAt.Rank()),
        StatusOf(outcome))
  }

  // ---- one stage ---------------------------------------------------------------------------

  lemma StoppedTold(due: bool, t: Tables, id: int, stage: Stage)
    requires due ==> Told(t, id)
    ensures due ==> StageTold(t, id, stage, Err) && StageTold(t, id, stage, Crash)
  {
  }

  lemma PassedTold(due: bool, t: Tables, id: int, stage: Stage)
    requires due ==> Told(t, id) && Within(t, id, stage, Between(stage.Rank() + 1))
    ensures due ==> StageTold(t, id, stage, Ok(None))
  {
  }

  lemma FailedTold(due: bool, t: Tables, id: int, stage: Stage, outcome: DeployOutcome)
    requires outcome == DeployOutcome.RolledBack(stage) || outcome == DeployOutcome.Failed(stage)
    requires due ==> Told(t, id) && Timeline(t, id) == Closed(Halted(stage.Rank()), StatusOf(outcome))
    ensures due ==> StageTold(t, id, stage, Ok(Some(outcome)))
  {
  }

  /** A stage's tale is the tale up to any later stage when the run stops there, and else leads to the next. */
  lemma TellsOn(due: bool, t: Tables, id: int, stage: Stage, next: Stage, last: Stage, r: Io<Option<DeployOutcome>>)
    requires stage.Rank() + 1 == next.Rank() && (due ==> StageTold(t, id, stage, r))
    ensures due && r == Ok(None) ==> Due(t, id, next)
    ensures due && r != Ok(None) ==> StageTold(t, id, last, r)
  {
    NextIsDue(t, id, stage, next);
  }

  lemma EndedThere(w: World, run: Run, stage: Stage, outcome: DeployOutcome)
    requires Ended(w, run, stage, outcome)
    ensures outcome == DeployOutcome.RolledBack(stage) || outcome == DeployOutcome.Failed(stage)
  {
  }

  /** A stage that failed ends the run where it is. */
  method Abandon(ctx: Ctx, id: int, stage: Stage, name: string, previous: Option<WorkloadSpec>, ghost run: Run)
    returns (r: Io<Option<DeployOutcome>>)
    requires ctx.host.Valid() && Proceeding(Now(ctx), run, stage)
    requires id == run.id && name == run.name && previous == run.previous
    modifies ctx.host, ctx.store, ctx.sink
    ensures ctx.store.apps == old(ctx.store.apps)
    ensures ctx.host.Valid() && Core(Now(ctx), run) && Aftermath(Now(ctx), run)
    ensures Spared(old(Snapshot(ctx.host)), Snapshot(ctx.host), Slug(name))
    ensures r.Ok? ==> r.value.Some? && Ended(Now(ctx), run, stage, r.value.value)
    ensures ctx.store.calm ==> !r.Err? && (ctx.host.calm ==> r.Ok?)
    ensures ctx.store.calm && Retractable(old(ctx.host.files), ctx.host, Slug(name), previous, stage) ==>
              r == Ok(Some(DeployOutcome.RolledBack(stage)))
    ensures old(Within(ctx.store.State(), id, stage, Open(stage.Rank()))) ==> StageTold(ctx.store.State(), id, stage, r)
  {
    hide Retractable;
    hide Proceeding;
    hide Core;
    hide Aftermath;
    hide Ended;
    hide Spared;
    hide Told;
    hide Within;
    hide StageTold;
    hide Timeline;
    ghost var due := Within(ctx.store.State(), id, stage, Open(stage.Rank()));
    var ended := Fail(ctx, id, stage, name, previous, run);
    StoppedTold(due, ctx.store.State(), id, stage);
    var outcome :- ended;
    EndedThere(Now(ctx), run, stage, outcome);
    FailedTold(due, ctx.store.State(), id, stage, outcome);
    return Ok(Some(outcome));
  }

  /** A stage that worked is closed, and the run goes on. */
  method Pass(ctx: Ctx, id: int, stage: Stage, ghost run: Run) returns (r: Io<Option<DeployOutcome>>)
    requires Proceeding(Now(ctx), run, stage) && id == run.id
    modifies ctx.store, ctx.sink
    ensures ctx.store.apps == old(ctx.store.apps)
    ensures Core(Now(ctx), run) && Aftermath(Now(ctx), run)
    ensures r.Ok? ==> r == Ok(None) && Proceeding(Now(ctx), run, stage)
    ensures ctx.store.calm ==> r.Ok?
    ensures old(Within(ctx.store.State(), id, stage, Open(stage.Rank()))) ==> StageTold(ctx.store.State(), id, stage, r)
  {
    hide Proceeding;
    hide Settled;
    hide Core;
    hide Aftermath;
    hide Told;
    hide Within;
    hide StageTold;
    ghost var due := Within(ctx.store.State(), id, stage, Open(stage.Rank()));
    var told := Succeed(ctx, id, stage, run);
    SettledIsFine(Now(ctx), run);
    StoppedTold(due, ctx.store.State(), id, stage);
    var _ :- told;
    PassedTold(due, ctx.store.State(), id, stage);
    return Ok(None);
  }

  /** A stage that only looks, builds, or waits: git, podman and the health poll. */
  method Quiet(ctx: Ctx, id: int, stage: Stage, works: bool, name: string, previous: Option<WorkloadSpec>,
      ghost run: Run)
    returns (r: Io<Option<DeployOutcome>>)
    requires ctx.host.Valid() && Ready(Now(ctx), run, stage)
    requires id == run.id && name == run.name && previous == run.previous
    modifies ctx.host, ctx.store, ctx.sink
    ensures ctx.store.apps == old(ctx.store.apps)
    ensures ctx.host.Valid() && Core(Now(ctx), run) && Aftermath(Now(ctx), run)
    ensures Spared(old(Snapshot(ctx.host)), Snapshot(ctx.host), Slug(name))
    ensures !Live(old(ctx.store.State()), id) ==> !r.Ok? && Now(ctx) == old(Now(ctx))
    ensures r.Ok? && r.value.None? ==> works && Proceeding(Now(ctx), run, stage)
    ensures r.Ok? && r.value.None? ==> Snapshot(ctx.host) == old(Snapshot(ctx.host))
    ensures r.Ok? && r.value.Some? ==> Ended(Now(ctx), run, stage, r.value.value)
    ensures works && ctx.host.calm && ctx.store.calm && Live(old(ctx.store.State()), id) ==> r == Ok(None)
    ensures !works && ctx.host.calm && ctx.store.calm && Live(old(ctx.store.State()), id) ==>
              Retractable(old(ctx.host.files), ctx.host, Slug(name), previous, stage) ==>
              r == Ok(Some(DeployOutcome.RolledBack(stage)))
    ensures ctx.store.calm && Live(old(ctx.store.State()), id) ==> !r.Err? && (ctx.host.calm ==> r.Ok?)
    ensures old(Due(ctx.store.State(), id, stage)) ==> StageTold(ctx.store.State(), id, stage, r)
  {
    hide Core;
    hide LiveOk;
    hide Undoable;
    hide Guarded;
    hide Spared;
    hide BackInPlace;
    hide Timeline;
    hide Told;
    hide Within;
    hide Due;
    hide Extend;
    hide Ended;
    hide InStep;
    hide Exposed;
    hide Aftermath;
    hide StageTold;
    hide Settled;
    hide Ready;
    hide Proceeding;
    hide Retractable;
    SparedSame(Snapshot(ctx.host), Slug(name));
    ghost var due := Due(ctx.store.State(), id, stage);
    var begun := Begin(ctx, id, stage, run);
    SettledIsFine(Now(ctx), run);
    StoppedTold(due, ctx.store.State(), id, stage);
    var _ :- begun;
    ProceedingIsSettled(Now(ctx), run, stage);
    SettledIsFine(Now(ctx), run);
    var did := ctx.host.Run();
    if did.Crash? {
      return Crash;
    }
    if did.Err? || !works {
      r := Abandon(ctx, id, stage, name, previous, run);
      return;
    }
    r := Pass(ctx, id, stage, run);
  }

  /** What a run that has applied `spec` has in place. */
  ghost predicate Placed(s: HostState, run: Run, spec: WorkloadSpec) {
    && ValidSpec(spec) && spec.name == run.name
    && FilesAgree(s.files, Slug(run.name), Some(PlanOf(spec)))
    && (run.live ==> UnitsLive(s, Slug(run.name), Some(PlanOf(spec))))
  }

  /** The host half of the Apply stage, seen from the run. */
  method Install(ctx: Ctx, spec: WorkloadSpec, ghost run: Run) returns (r: Io<()>)
    requires ctx.host.Valid() && Proceeding(Now(ctx), run, Stage.Apply)
    requires spec.name == run.name
    requires run.live ==> AppLive(Snapshot(ctx.host), Slug(run.name), run.previous)
    modifies ctx.host
    ensures ctx.host.Valid() && Proceeding(Now(ctx), run, Stage.Apply) && Settled(Now(ctx), run)
    ensures Guarded(old(ctx.host.files), ctx.host.files, Units(Slug(run.name)))
    ensures Spared(old(Snapshot(ctx.host)), Snapshot(ctx.host), Slug(run.name))
    ensures ctx.host.proxied == old(ctx.host.proxied)
    ensures r.Ok? ==> Placed(Snapshot(ctx.host), run, spec)
    ensures ctx.host.calm && NoForeign(old(ctx.host.files), Slug(run.name)) ==>
              if Applicable(ctx.host, spec) then r.Ok? else r.Err?
    ensures ctx.host.calm ==> !r.Crash?
  {
    hide Core;
    hide LiveOk;
    hide Undoable;
    hide Guarded;
    hide FilesAgree;
    hide UnitLeft;
    hide OthersUntouched;
    hide UnitsRecoverable;
    hide RouteLive;
    hide UnitsLive;
    hide TimersBacked;
    hide Recoverable;
    ghost var w := Now(ctx);
    r := Apply.Apply(ctx.host, spec);
    ForwardApply(w, Snapshot(ctx.host), run, PlanOf(spec));
    assert Now(ctx) == w.(host := Snapshot(ctx.host));
    UntouchedOthers(w.host, Snapshot(ctx.host), Slug(run.name));
    ProceedingIsSettled(Now(ctx), run, Stage.Apply);
    if r.Ok? && run.live {
      Installed(w.host, Snapshot(ctx.host), PlanFor(run.previous), PlanOf(spec));
    }
  }

  /** Write the unit and task files and start the new workload. */
  method ApplyStage(ctx: Ctx, id: int, spec: WorkloadSpec, previous: Option<WorkloadSpec>, ghost run: Run)
    returns (r: Io<Option<DeployOutcome>>)
    requires ctx.host.Valid() && Ready(Now(ctx), run, Stage.Apply)
    requires id == run.id && spec.name == run.name && previous == run.previous
    requires run.live ==> AppLive(Snapshot(ctx.host), Slug(run.name), run.previous)
    modifies ctx.host, ctx.store, ctx.sink
    ensures ctx.store.apps == old(ctx.store.apps)
    ensures ctx.host.Valid() && Core(Now(ctx), run) && Aftermath(Now(ctx), run)
    ensures Spared(old(Snapshot(ctx.host)), Snapshot(ctx.host), Slug(run.name))
    ensures !Live(old(ctx.store.State()), id) ==> !r.Ok? && Now(ctx) == old(Now(ctx))
    ensures r.Ok? && r.value.Some? ==> Ended(Now(ctx), run, Stage.Apply, r.value.value)
    ensures r == Ok(None) ==> Proceeding(Now(ctx), run, Stage.Apply)
    ensures r == Ok(None) ==> Guarded(old(ctx.host.files), ctx.host.files,
              Units(Slug(run.name))) && ctx.host.proxied == old(ctx.host.proxied)
    ensures r == Ok(None) ==> Placed(Snapshot(ctx.host), run, spec)
    ensures ctx.host.calm && ctx.store.calm && Live(old(ctx.store.State()), id) && Applicable(ctx.host, spec) ==>
              NoForeign(old(ctx.host.files), Slug(run.name)) ==> r == Ok(None)
    ensures ctx.host.calm && ctx.store.calm && Live(old(ctx.store.State()), id) && !Applicable(ctx.host, spec) ==>
              Reversible(old(ctx.host.files), ctx.host, Slug(run.name), previous) ==>
              r == Ok(Some(DeployOutcome.RolledBack(Stage.Apply)))
    ensures ctx.store.calm && Live(old(ctx.store.State()), id) ==> !r.Err? && (ctx.host.calm ==> r.Ok?)
    ensures old(Due(ctx.store.State(), id, Stage.Apply)) ==> StageTold(ctx.store.State(), id, Stage.Apply, r)
  {
    hide Core;
    hide LiveOk;
    hide Undoable;
    hide Guarded;
    hide Spared;
    hide BackInPlace;
    hide Placed;
    hide AppLive;
    hide Recoverable;
    hide Timeline;
    hide Told;
    hide Within;
    hide Due;
    hide Extend;
    hide Aftermath;
    hide StageTold;
    hide Settled;
    hide Ready;
    hide Proceeding;
    var slug := Slug(spec.name);
    SparedSame(Snapshot(ctx.host), slug);
    ghost var due := Due(ctx.store.State(), id, Stage.Apply);
    var begun := Begin(ctx, id, Stage.Apply, run);
    SettledIsFine(Now(ctx), run);
    StoppedTold(due, ctx.store.State(), id, Stage.Apply);
    var _ :- begun;
    var applied := Install(ctx, spec, run);
    SettledIsFine(Now(ctx), run);
    if applied.Crash? {
      return Crash;
    }
    if applied.Err? {
      label undoing:
      StaysRetractable(old(Snapshot(ctx.host)), Snapshot(ctx.host), ctx.host, slug, previous, Stage.Apply);
      r := Abandon(ctx, id, Stage.Apply, spec.name, previous, run);
      SparedChain(old(Snapshot(ctx.host)), old@undoing(Snapshot(ctx.host)), Snapshot(ctx.host), slug);
      return;
    }
    r := Pass(ctx, id, Stage.Apply, run);
  }

  /** Commands about one app's units spare everything else. */
  lemma UntouchedOthers(s: HostState, u: HostState, slug: string)
    requires OthersUntouched(slug, s.running, s.timers, u.running, u.timers) && u.proxied == s.proxied
    requires Guarded(s.files, u.files, Units(slug))
    ensures Spared(s, u, slug)
  {
    SparedWithin(s, u, slug, Units(slug));
  }

  /** Over an app that was in place, a successful apply leaves the new plan in place. */
  lemma Installed(s: HostState, u: HostState, previous: Option<Plan>, p: Plan)
    requires UnitsLive(s, p.slug, previous)
    requires FilesAgree(u.files, p.slug, Some(p)) && Stems(p) <= u.timers
    requires Lookup(u.running, UnitName(p.slug)) ==
              Some(RunningAfter(p.unit, Lookup(s.running, UnitName(p.slug)), Lookup(s.files, UnitFile(p.slug))))
    requires TimersBacked(s.files, s.timers, p.slug) ==> TimersBacked(u.files, u.timers, p.slug)
    ensures UnitsLive(u, p.slug, Some(p))
  {
  }

  lemma FragmentKeepsPlan(s: HostState, u: HostState, run: Run, spec: WorkloadSpec)
    requires Placed(s, run, spec) && Guarded(s.files, u.files, RouteOf(Slug(run.name)))
    requires u.running == s.running && u.timers == s.timers
    ensures Placed(u, run, spec)
  {
    hide UnitsLive;
    var slug := Slug(run.name);
    PlanIsGood(spec);
    forall f | UnitTouches(slug, f) ensures Lookup(s.files, f) == Lookup(u.files, f) {
      GuardedLeaves(s.files, u.files, RouteOf(slug), f);
    }
    FilesAgreeFrame(s.files, u.files, slug, Some(PlanOf(spec)));
    if run.live {
      PlanStaysLive(s, u, slug, PlanOf(spec));
    }
  }

  lemma PlanStaysLive(s: HostState, u: HostState, slug: string, p: Plan)
    requires UnitsLive(s, slug, Some(p)) && FilesAgree(u.files, slug, Some(p))
    requires Guarded(s.files, u.files, RouteOf(slug)) && u.running == s.running && u.timers == s.timers
    ensures UnitsLive(u, slug, Some(p))
  {
    forall t | t in u.timers && InTaskNamespace(slug, t) ensures TaskTimer(t) in u.files {
      GuardedLeaves(s.files, u.files, RouteOf(slug), TaskTimer(t));
    }
  }

  /** The route side of a run: the new route when there is one, otherwise whatever was there before. */
  ghost predicate Routed(s: HostState, run: Run, spec: WorkloadSpec) {
    && (spec.route.Some? ==> RouteLive(s, Slug(run.name), spec.route))
    && (spec.route.None? && run.live ==> RouteLive(s, Slug(run.name), RouteFor(run.previous)))
  }

  /** The host half of the Route stage, seen from the run. */
  method WriteRoute(ctx: Ctx, slug: string, route: Specs.Route, ghost run: Run, ghost spec: WorkloadSpec)
      returns (r: Io<()>)
    requires ctx.host.Valid() && Proceeding(Now(ctx), run, Stage.Route)
    requires slug == Slug(run.name) && Placed(Snapshot(ctx.host), run, spec)
    modifies ctx.host
    ensures ctx.host.Valid() && Proceeding(Now(ctx), run, Stage.Route) && Settled(Now(ctx), run)
    ensures Placed(Snapshot(ctx.host), run, spec)
    ensures Spared(old(Snapshot(ctx.host)), Snapshot(ctx.host), slug)
    ensures r.Ok? ==> RouteLive(Snapshot(ctx.host), slug, Some(route))
    ensures ctx.host.calm && OwnFragment(old(ctx.host.files), slug) ==> r.Ok?
    ensures ctx.host.calm ==> !r.Crash?
  {
    hide Core;
    hide LiveOk;
    hide Undoable;
    hide Guarded;
    hide FilesAgree;
    hide UnitsLive;
    hide ProxyLeft;
    hide Recoverable;
    ghost var w := Now(ctx);
    r := ApplyRoute(ctx.host, slug, route);
    ForwardRoute(w, Snapshot(ctx.host), run, route);
    assert Now(ctx) == w.(host := Snapshot(ctx.host));
    ProceedingIsSettled(Now(ctx), run, Stage.Route);
    RouteSpares(w.host, Snapshot(ctx.host), slug);
    FragmentKeepsPlan(w.host, Snapshot(ctx.host), run, spec);
  }

  /** The host half of the Route stage: write the route of the spec, or do nothing when it has none. */
  method PutRoute(ctx: Ctx, slug: string, route: Option<Specs.Route>, ghost run: Run, ghost spec: WorkloadSpec)
    returns (r: Io<()>)
    requires ctx.host.Valid() && Proceeding(Now(ctx), run, Stage.Route)
    requires slug == Slug(run.name) && route == spec.route && Placed(Snapshot(ctx.host), run, spec)
    requires run.live ==> RouteLive(Snapshot(ctx.host), Slug(run.name), RouteFor(run.previous))
    modifies ctx.host
    ensures ctx.host.Valid() && Proceeding(Now(ctx), run, Stage.Route) && Settled(Now(ctx), run)
    ensures Placed(Snapshot(ctx.host), run, spec)
    ensures Spared(old(Snapshot(ctx.host)), Snapshot(ctx.host), slug)
    ensures r.Ok? ==> Routed(Snapshot(ctx.host), run, spec)
    ensures route.None? ==> r.Ok? && Snapshot(ctx.host) == old(Snapshot(ctx.host))
    ensures ctx.host.calm && OwnFragment(old(ctx.host.files), slug) ==> r.Ok?
    ensures ctx.host.calm ==> !r.Crash?
  {
    hide Proceeding;
    hide Settled;
    hide Placed;
    hide Spared;
    hide RouteLive;
    hide OwnFragment;
    SparedSame(Snapshot(ctx.host), slug);
    ProceedingIsSettled(Now(ctx), run, Stage.Route);
    if route.None? {
      return Ok(());
    }
    r := WriteRoute(ctx, slug, route.value, run, spec);
  }

  /** Write the fragment and reload Caddy, when the spec has a route. */
  method RouteStage(ctx: Ctx, id: int, spec: WorkloadSpec, previous: Option<WorkloadSpec>, ghost run: Run)
    returns (r: Io<Option<DeployOutcome>>)
    requires ctx.host.Valid() && Ready(Now(ctx), run, Stage.Route)
    requires id == run.id && previous == run.previous
    requires Placed(Snapshot(ctx.host), run, spec)
    requires run.live ==> RouteLive(Snapshot(ctx.host), Slug(run.name), RouteFor(run.previous))
    modifies ctx.host, ctx.store, ctx.sink
    ensures ctx.store.apps == old(ctx.store.apps)
    ensures ctx.host.Valid() && Core(Now(ctx), run) && Aftermath(Now(ctx), run)
    ensures Spared(old(Snapshot(ctx.host)), Snapshot(ctx.host), Slug(run.name))
    ensures !Live(old(ctx.store.State()), id) ==> !r.Ok? && Now(ctx) == old(Now(ctx))
    ensures r.Ok? && r.value.Some? ==> Ended(Now(ctx), run, Stage.Route, r.value.value)
    ensures r == Ok(None) ==> Proceeding(Now(ctx), run, Stage.Route)
    ensures r == Ok(None) ==> Placed(Snapshot(ctx.host), run, spec) && Routed(Snapshot(ctx.host), run, spec)
    ensures r == Ok(None) && spec.route.None? ==> Snapshot(ctx.host) == old(Snapshot(ctx.host))
    ensures ctx.host.calm && ctx.store.calm && Live(old(ctx.store.State()), id) ==>
              OwnFragment(old(ctx.host.files), Slug(run.name)) ==> r == Ok(None)
    ensures ctx.store.calm && Live(old(ctx.store.State()), id) ==> !r.Err? && (ctx.host.calm ==> r.Ok?)
    ensures old(Due(ctx.store.State(), id, Stage.Route)) ==> StageTold(ctx.store.State(), id, Stage.Route, r)
  {
    hide Core;
    hide LiveOk;
    hide Undoable;
    hide Guarded;
    hide Spared;
    hide BackInPlace;
    hide FilesAgree;
    hide UnitsLive;
    hide ProxyLeft;
    hide Recoverable;
    hide Timeline;
    hide Told;
    hide Within;
    hide Due;
    hide Extend;
    hide Ended;
    hide Aftermath;
    hide StageTold;
    hide Settled;
    hide Ready;
    hide Proceeding;
    hide Routed;
    hide OwnFragment;
    var slug := Slug(spec.name);
    SparedSame(Snapshot(ctx.host), slug);
    ghost var due := Due(ctx.store.State(), id, Stage.Route);
    var begun := Begin(ctx, id, Stage.Route, run);
    SettledIsFine(Now(ctx), run);
    StoppedTold(due, ctx.store.State(), id, Stage.Route);
    var _ :- begun;
    var routed := PutRoute(ctx, slug, spec.route, run, spec);
    SettledIsFine(Now(ctx), run);
    if routed.Crash? {
      return Crash;
    }
    if routed.Err? {
      label undoing:
      r := Abandon(ctx, id, Stage.Route, spec.name, previous, run);
      SparedChain(old(Snapshot(ctx.host)), old@undoing(Snapshot(ctx.host)), Snapshot(ctx.host), slug);
      return;
    }
    r := Pass(ctx, id, Stage.Route, run);
  }

  lemma RouteSpares(s: HostState, u: HostState, slug: string)
    requires Guarded(s.files, u.files, RouteOf(slug)) && u.running == s.running && u.timers == s.timers
    requires forall x :: ProxyLeft(x, s.proxied, u.files, u.proxied)
    ensures Spared(s, u, slug)
  {
    SparedWithin(s, u, slug, RouteOf(slug));
  }

  // ---- the end of a run that worked --------------------------------------------------------

  /** A route was cleared: this run did not touch the fragment an older deploy left. */
  predicate LeavesFragment(run: Run, spec: WorkloadSpec) {
    spec.route.None? && RouteFor(run.previous).Some?
  }

  lemma StoredTables(t: Tables, apps: set<string>, before: Tables, id: int, spec: WorkloadSpec)
    requires WellStored(t, apps) && OnlyThisDeploy(before, t, id, spec.name) && spec.name in apps && ValidSpec(spec)
    requires PutSpec(t, spec.name, Slug(spec.name), spec).Some?
    ensures var u := PutSpec(t, spec.name, Slug(spec.name), spec).value; WellStored(u, apps) && OnlyThisDeploy(before,
              u, id, spec.name)
  {
  }

  /** Storing the deployed spec, with the row at the last stage. */
  lemma StoredStep(w: World, run: Run, spec: WorkloadSpec)
    requires Proceeding(w, run, Healthcheck) && Placed(w.host, run, spec) && Routed(w.host, run, spec)
    requires PutSpec(w.tables, run.name, Slug(run.name), spec).Some?
    ensures var stored := w.(tables := PutSpec(w.tables, run.name, Slug(run.name), spec).value);
            && Settled(stored, run) && InHand(stored, run, Healthcheck)
            && MayFinish(stored, run, Healthcheck, Status.Done)
            && (run.live && !LeavesFragment(run, spec) ==> LiveUpTo(stored, run, Healthcheck))
  {
    hide Converges;
    hide WellStored;
    hide OnlyThisDeploy;
    hide FilesAgree;
    hide TimersBacked;
    hide Undoable;
    ghost var u := PutSpec(w.tables, run.name, Slug(run.name), spec).value;
    ProceedingIsSettled(w, run, Healthcheck);
    StoredTables(w.tables, run.apps, run.before, run.id, spec);
    PutSpecConverges(w.host.files, w.tables, run.apps, run.left, run.name, spec);
    RowAccounts(w.host, u, run.name, run.id, Healthcheck);
  }

  /** No two known apps share a slug, so storing the spec of a known app never collides. */
  lemma SlugIsFree(t: Tables, apps: set<string>, name: string)
    requires Universe(apps) && WellStored(t, apps) && name in apps
    ensures !SlugTaken(t, name, Slug(name))
  {
  }

  /** Store the deployed spec, then finish the row as done. */
  method Complete(ctx: Ctx, id: int, spec: WorkloadSpec, ghost run: Run) returns (r: Io<()>)
    requires Proceeding(Now(ctx), run, Healthcheck) && id == run.id
    requires Placed(Snapshot(ctx.host), run, spec) && Routed(Snapshot(ctx.host), run, spec)
    modifies ctx.store, ctx.sink
    ensures Core(Now(ctx), run) && id in ctx.store.deploys
    ensures LiveOk(Now(ctx), run) || (LeavesFragment(run, spec) && DoneBy(ctx.store.State(), run))
    ensures CurrentSpec(ctx.store.State(), run.name) == run.previous
              || CurrentSpec(ctx.store.State(), run.name) == Some(spec)
    ensures ctx.store.deploys[id].status in {InProgress, Status.Done}
    ensures r.Ok? ==> ctx.store.deploys[id].status == Status.Done
    ensures ctx.store.deploys[id].status == Status.Done ==> CurrentSpec(ctx.store.State(), run.name) == Some(spec)
    ensures ctx.store.calm ==> r.Ok?
    ensures old(Within(ctx.store.State(), id, Healthcheck, Between(6))) ==> Told(ctx.store.State(), id)
    ensures old(Within(ctx.store.State(), id, Healthcheck, Between(6))) && r.Ok? ==>
              EndTold(ctx.store.State(), id, DeployOutcome.Done)
  {
    hide Core;
    hide LiveOk;
    hide Placed;
    hide Routed;
    hide MayFinish;
    hide LiveUpTo;
    hide Timeline;
    hide Recoverable;
    hide InStep;
    hide LeavesFragment;
    hide SlugTaken;
    ghost var w := Now(ctx);
    WithinIsTold(w.tables, id, Healthcheck);
    ProceedingIsSettled(w, run, Healthcheck);
    if PutSpec(w.tables, run.name, Slug(run.name), spec).Some? {
      StoredStep(w, run, spec);
    }
    NameOfPlaced(w, run, spec);
    var put := ctx.store.PutSpec(spec.name, Slug(spec.name), spec);
    assert Now(ctx) == w || (PutSpec(w.tables, run.name, Slug(run.name), spec).Some?
        && Now(ctx) == w.(tables := PutSpec(w.tables, run.name, Slug(run.name), spec).value));
    SameLogSameTale(w.tables, ctx.store.State(), id);
    var _ :- put;
    r := Finish(ctx, id, Status.Done, Healthcheck, run);
  }

  lemma NameOfPlaced(w: World, run: Run, spec: WorkloadSpec)
    requires Core(w, run) && Placed(w.host, run, spec)
    ensures spec.name == run.name && !SlugTaken(w.tables, run.name, Slug(run.name))
  {
    SlugIsFree(w.tables, run.apps, run.name);
  }
}
