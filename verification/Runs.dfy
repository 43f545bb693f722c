/** Whole runs: reserving a deploy and running it to its end. */
module Runs {
  import opened Wrappers
  import opened Slugs
  import opened Specs
  import opened Paths
  import opened Images
  import opened Tables
  import opened Timelines
  import opened Render
  import opened Host
  import opened Managed
  import opened Apply
  import opened Gateway
  import opened Convergence
  import opened Undo
  import opened Store
  import opened Deploy
  import opened Stages

  /** The spec a run deploys: the one it was given, with the image it built. */
  function Deployed(spec: WorkloadSpec, outside: Outside): WorkloadSpec {
    spec.(image := ImageReference(Slug(spec.name), outside.commit))
  }

  lemma DeployedIsValid(spec: WorkloadSpec, outside: Outside)
    requires ValidSpec(spec) && SingleLine(outside.commit)
    ensures ValidSpec(Deployed(spec, outside))
  {
    SlugIsWellFormed(spec.name);
    var slug := Slug(spec.name);
    assert SingleLine(slug) by {
      assert forall i | 0 <= i < |slug| :: IsSlugLetter(slug[i]) || slug[i] == '-';
    }
    assert SingleLine("localhost/kuadrat-");
  }

  /** Everything the world outside has to answer for a deploy to work. */
  predicate Works(outside: Outside) {
    outside.containerfile && outside.commit != "" && outside.builds && outside.secrets && outside.healthy
  }

  /** The stage, before Apply, at which the world outside stops a deploy. */
  function Preparing(outside: Outside): Option<Stage> {
    if !outside.containerfile || outside.commit == "" then Some(Detect)
    else if !outside.builds then Some(Build)
    else if !outside.secrets then Some(Secrets)
    else None
  }

  /** A deploy that has got to Apply in a calm world: done, or rolled back where the spec or the app stops it. */
  function LaunchOutcome(healthy: bool, applicable: bool): DeployOutcome {
    if !applicable then DeployOutcome.RolledBack(Stage.Apply)
    else if !healthy then DeployOutcome.RolledBack(Healthcheck)
    else DeployOutcome.Done
  }

  /** A whole deploy in a calm world. */
  function CalmOutcome(outside: Outside, applicable: bool): DeployOutcome {
    if Preparing(outside).Some? then DeployOutcome.RolledBack(Preparing(outside).value)
    else LaunchOutcome(outside.healthy, applicable)
  }

  lemma Hurdles(outside: Outside, applicable: bool)
    ensures Works(outside) <==> Preparing(outside).None? && outside.healthy
    ensures CalmOutcome(outside, applicable).Done? <==> Works(outside) && applicable
    ensures CalmOutcome(outside, applicable) ==
              if Preparing(outside).Some? then DeployOutcome.RolledBack(Preparing(outside).value)
              else LaunchOutcome(outside.healthy, applicable)
  {
  }

  /** The run stopped at a stage, and says so. */
  ghost predicate Stopped(w: World, run: Run, outcome: DeployOutcome) {
    !outcome.Done? && Ended(w, run, outcome.failedAt, outcome)
  }

  lemma StoppedThere(w: World, run: Run, stage: Stage, r: Io<Option<DeployOutcome>>)
    requires r.Ok? && r.value.Some? ==> Ended(w, run, stage, r.value.value)
    ensures r.Ok? && r.value.Some? ==> Stopped(w, run, r.value.value)
  {
  }

  lemma EarlyIsRetractable(files: map<File, string>, h: Host, slug: string, previous: Option<WorkloadSpec>)
    ensures Retractable(files, h, slug, previous, Detect) && Retractable(files, h, slug, previous, Build)
    ensures Retractable(files, h, slug, previous, Secrets)
  {
  }

  /** Detect, Build and Secrets. */
  method Prepare(ctx: Ctx, id: int, outside: Outside, name: string, previous: Option<WorkloadSpec>, ghost run: Run)
    returns (r: Io<Option<DeployOutcome>>)
    requires ctx.host.Valid() && Ready(Now(ctx), run, Detect)
    requires id == run.id && name == run.name && previous == run.previous
    modifies ctx.host, ctx.store, ctx.sink
    ensures ctx.host.Valid() && Core(Now(ctx), run) && Aftermath(Now(ctx), run)
    ensures ctx.store.apps == old(ctx.store.apps)
    ensures Spared(old(Snapshot(ctx.host)), Snapshot(ctx.host), Slug(name))
    ensures !Live(old(ctx.store.State()), id) ==> !r.Ok? && Now(ctx) == old(Now(ctx))
    ensures r.Ok? && r.value.Some? ==> Stopped(Now(ctx), run, r.value.value)
    ensures r == Ok(None) ==> Preparing(outside).None?
    ensures r == Ok(None) ==> Proceeding(Now(ctx), run, Secrets) && Snapshot(ctx.host) == old(Snapshot(ctx.host))
    ensures ctx.host.calm && ctx.store.calm && Live(old(ctx.store.State()), id) ==>
              r == Ok(if Preparing(outside).Some? then Some(DeployOutcome.RolledBack(Preparing(outside).value))
                  else None)
    ensures ctx.store.calm && Live(old(ctx.store.State()), id) ==> !r.Err? && (ctx.host.calm ==> r.Ok?)
    ensures old(Due(ctx.store.State(), id, Detect)) ==> StageTold(ctx.store.State(), id, Secrets, r)
  {
    hide Retractable;
    hide Slug;
    hide Ended;
    hide Stopped;
    hide Aftermath;
    hide StageTold;
    hide Proceeding;
    hide Ready;
    hide Mended;
    hide Core;
    hide LiveOk;
    hide Undoable;
    hide Guarded;
    hide Spared;
    hide Timeline;
    hide Told;
    hide Within;
    hide Due;
    hide Extend;
    hide BackInPlace;
    ghost var due := Due(ctx.store.State(), id, Detect);
    EarlyIsRetractable(ctx.host.files, ctx.host, Slug(name), previous);
    r := Quiet(ctx, id, Detect, outside.containerfile && outside.commit != "", name, previous, run);
    TellsOn(due, ctx.store.State(), id, Detect, Build, Secrets, r);
    StoppedThere(Now(ctx), run, Detect, r);
    if r != Ok(None) {
      return;
    }
    NextStage(Now(ctx), run, Detect, Build);
    EarlyIsRetractable(ctx.host.files, ctx.host, Slug(name), previous);
    label detected:
    r := Quiet(ctx, id, Build, outside.builds, name, previous, run);
    TellsOn(due, ctx.store.State(), id, Build, Secrets, Secrets, r);
    StoppedThere(Now(ctx), run, Build, r);
    SparedChain(old(Snapshot(ctx.host)), old@detected(Snapshot(ctx.host)), Snapshot(ctx.host), Slug(name));
    if r != Ok(None) {
      return;
    }
    NextStage(Now(ctx), run, Build, Secrets);
    EarlyIsRetractable(ctx.host.files, ctx.host, Slug(name), previous);
    label built:
    r := Quiet(ctx, id, Secrets, outside.secrets, name, previous, run);
    StoppedThere(Now(ctx), run, Secrets, r);
    SparedChain(old(Snapshot(ctx.host)), old@built(Snapshot(ctx.host)), Snapshot(ctx.host), Slug(name));
  }

  /** Nothing about the host or the spec stops Apply or Route. */
  ghost predicate Unhindered(files: map<File, string>, h: Host, spec: WorkloadSpec) {
    Applicable(h, spec) && NoForeign(files, Slug(spec.name)) && OwnFragment(files, Slug(spec.name))
  }

  /** Apply and Route, over a host the preparation left alone. */
  method Change(ctx: Ctx, id: int, spec: WorkloadSpec, previous: Option<WorkloadSpec>, ghost run: Run)
    returns (r: Io<Option<DeployOutcome>>)
    requires ctx.host.Valid() && Ready(Now(ctx), run, Stage.Apply)
    requires id == run.id && spec.name == run.name && previous == run.previous
    requires run.live ==> AppLive(Snapshot(ctx.host), Slug(run.name), run.previous)
    modifies ctx.host, ctx.store, ctx.sink
    ensures ctx.host.Valid() && Core(Now(ctx), run) && Aftermath(Now(ctx), run)
    ensures ctx.store.apps == old(ctx.store.apps)
    ensures Spared(old(Snapshot(ctx.host)), Snapshot(ctx.host), Slug(run.name))
    ensures !Live(old(ctx.store.State()), id) ==> !r.Ok? && Now(ctx) == old(Now(ctx))
    ensures r.Ok? && r.value.Some? ==> Stopped(Now(ctx), run, r.value.value)
    ensures r == Ok(None) ==> Proceeding(Now(ctx), run, Stage.Route)
    ensures r == Ok(None) ==> Placed(Snapshot(ctx.host), run, spec) && Routed(Snapshot(ctx.host), run, spec)
    ensures r == Ok(None) && spec.route.None? ==>
              FragmentLeft(old(Snapshot(ctx.host)), Snapshot(ctx.host), Slug(run.name))
    ensures ctx.host.calm && ctx.store.calm && Live(old(ctx.store.State()), id) ==>
              Unhindered(old(ctx.host.files), ctx.host, spec) ==> r == Ok(None)
    ensures ctx.host.calm && ctx.store.calm && Live(old(ctx.store.State()), id) ==>
              Reversible(old(ctx.host.files), ctx.host, Slug(run.name), previous) ==>
              r == Ok(if Applicable(ctx.host, spec) then None else Some(DeployOutcome.RolledBack(Stage.Apply)))
    ensures ctx.store.calm && Live(old(ctx.store.State()), id) ==> !r.Err? && (ctx.host.calm ==> r.Ok?)
    ensures old(Due(ctx.store.State(), id, Stage.Apply)) ==> StageTold(ctx.store.State(), id, Stage.Route, r)
  {
    hide Mended;
    hide Core;
    hide LiveOk;
    hide Undoable;
    hide Guarded;
    hide Spared;
    hide Timeline;
    hide Told;
    hide Within;
    hide Due;
    hide Extend;
    hide BackInPlace;
    hide Placed;
    hide UnitsLive;
    hide Applicable;
    var slug := Slug(spec.name);
    r := ApplyStage(ctx, id, spec, previous, run);
    if r != Ok(None) {
      return;
    }
    NextStage(Now(ctx), run, Stage.Apply, Stage.Route);
    NextIsDue(ctx.store.State(), id, Stage.Apply, Stage.Route);
    GuardedLeaves(old(ctx.host.files), ctx.host.files, Units(slug), Fragment(slug));
    label applied:
    r := RouteStage(ctx, id, spec, previous, run);
    SparedChain(old(Snapshot(ctx.host)), old@applied(Snapshot(ctx.host)), Snapshot(ctx.host), slug);
  }

  /** The fragment, on disk and in Caddy, is whatever it was. */
  ghost predicate FragmentLeft(s: HostState, u: HostState, slug: string) {
    Lookup(s.files, Fragment(slug)) == Lookup(u.files, Fragment(slug))
        && Lookup(s.proxied, slug) == Lookup(u.proxied, slug)
  }

  /**
   * A run that has brought its row to a good end stored its spec and has it in place, whatever older
   * rows say, and it touched no fragment if the spec has no route.
   */
  ghost predicate DoneMeans(s: HostState, w: World, run: Run, spec: WorkloadSpec) {
    DoneBy(w.tables, run) ==>
      && CurrentSpec(w.tables, run.name) == Some(spec) && Placed(w.host, run, spec) && Routed(w.host, run, spec)
      && (spec.route.None? ==> FragmentLeft(s, w.host, Slug(run.name)))
  }

  /** What a run that ends as done leaves, in the row, the store and the host. */
  ghost predicate DoneWith(w: World, run: Run, spec: WorkloadSpec) {
    && run.id in w.tables.deploys && w.tables.deploys[run.id].status == Status.Done
    && CurrentSpec(w.tables, run.name) == Some(spec)
    && Placed(w.host, run, spec) && Routed(w.host, run, spec)
  }

  /** How a run that reports an outcome ends. */
  ghost predicate EndsAs(w: World, run: Run, spec: WorkloadSpec, outcome: DeployOutcome) {
    if outcome.Done? then DoneWith(w, run, spec) else Stopped(w, run, outcome)
  }

  /** The live account at the end of a run; a cleared route leaves the old fragment. */
  ghost predicate LiveAfter(w: World, run: Run, spec: WorkloadSpec) {
    LiveOk(w, run) || (LeavesFragment(run, spec) && DoneBy(w.tables, run))
  }

  lemma NotRolledBack(w: World, run: Run)
    requires run.id in w.tables.deploys && w.tables.deploys[run.id].status != Status.RolledBack
    ensures Mended(w, run)
  {
  }

  /** Healthcheck, and the end of a run that passes it. */
  method CheckAndComplete(ctx: Ctx, id: int, spec: WorkloadSpec, healthy: bool, previous: Option<WorkloadSpec>,
      ghost run: Run)
    returns (r: Io<DeployOutcome>)
    requires ctx.host.Valid() && Proceeding(Now(ctx), run, Stage.Route)
    requires id == run.id && spec.name == run.name && previous == run.previous
    requires Placed(Snapshot(ctx.host), run, spec) && Routed(Snapshot(ctx.host), run, spec)
    modifies ctx.host, ctx.store, ctx.sink
    ensures ctx.host.Valid() && Core(Now(ctx), run)
    ensures Exposed(ctx.store.State(), run) || LiveAfter(Now(ctx), run, spec)
    ensures Spared(old(Snapshot(ctx.host)), Snapshot(ctx.host), Slug(run.name))
    ensures CurrentSpec(ctx.store.State(), run.name) in {run.previous, Some(spec)}
    ensures r.Ok? ==> EndsAs(Now(ctx), run, spec, r.value)
    ensures r == Ok(DeployOutcome.Done) ==> healthy && Snapshot(ctx.host) == old(Snapshot(ctx.host))
    ensures Mended(Now(ctx), run)
    ensures DoneBy(ctx.store.State(), run) ==>
              CurrentSpec(ctx.store.State(), run.name) == Some(spec) && Snapshot(ctx.host) == old(Snapshot(ctx.host))
    ensures ctx.host.calm && ctx.store.calm && healthy ==> r == Ok(DeployOutcome.Done)
    ensures ctx.host.calm && ctx.store.calm && !healthy ==>
              Reversible(old(ctx.host.files), ctx.host, Slug(run.name), previous) ==>
              r == Ok(DeployOutcome.RolledBack(Healthcheck))
    ensures ctx.store.calm ==> !r.Err? && (ctx.host.calm ==> r.Ok?)
    ensures old(Within(ctx.store.State(), id, Stage.Route, Between(5))) ==> Told(ctx.store.State(), id) && (r.Ok? ==>
              EndTold(ctx.store.State(), id, r.value))
  {
    hide Mended;
    hide Core;
    hide LiveOk;
    hide Recoverable;
    hide Guarded;
    hide Spared;
    hide Timeline;
    hide Told;
    hide Within;
    hide Due;
    hide Extend;
    hide BackInPlace;
    hide Placed;
    hide Routed;
    NextStage(Now(ctx), run, Stage.Route, Healthcheck);
    NextIsDue(ctx.store.State(), id, Stage.Route, Healthcheck);
    var checked;
    checked := Quiet(ctx, id, Healthcheck, healthy, spec.name, previous, run);
    var early :- checked;
    if early.Some? {
      return Ok(early.value);
    }
    var completed := Complete(ctx, id, spec, run);
    NotRolledBack(Now(ctx), run);
    var _ :- completed;
    return Ok(DeployOutcome.Done);
  }

  /** Apply, Route and Healthcheck, then the terminal write. */
  method Launch(ctx: Ctx, id: int, spec: WorkloadSpec, healthy: bool, previous: Option<WorkloadSpec>, ghost run: Run)
    returns (r: Io<DeployOutcome>)
    requires ctx.host.Valid() && Ready(Now(ctx), run, Stage.Apply) && Live(ctx.store.State(), id)
    requires id == run.id && spec.name == run.name && previous == run.previous
    requires run.live ==> AppLive(Snapshot(ctx.host), Slug(run.name), run.previous)
    modifies ctx.host, ctx.store, ctx.sink
    ensures ctx.host.Valid() && Core(Now(ctx), run)
    ensures Exposed(ctx.store.State(), run) || LiveAfter(Now(ctx), run, spec)
    ensures Spared(old(Snapshot(ctx.host)), Snapshot(ctx.host), Slug(run.name))
    ensures CurrentSpec(ctx.store.State(), run.name) in {run.previous, Some(spec)}
    ensures r.Ok? ==> EndsAs(Now(ctx), run, spec, r.value)
    ensures r == Ok(DeployOutcome.Done) ==> healthy
    ensures DoneMeans(old(Snapshot(ctx.host)), Now(ctx), run, spec) && Mended(Now(ctx), run)
    ensures ctx.host.calm && ctx.store.calm && healthy && Unhindered(old(ctx.host.files), ctx.host, spec) ==>
              r == Ok(DeployOutcome.Done)
    ensures ctx.host.calm && ctx.store.calm && Reversible(old(ctx.host.files), ctx.host, Slug(run.name), previous) ==>
              r == Ok(LaunchOutcome(healthy, Applicable(ctx.host, spec)))
    ensures ctx.store.calm ==> !r.Err? && (ctx.host.calm ==> r.Ok?)
    ensures old(Due(ctx.store.State(), id, Stage.Apply)) ==> Told(ctx.store.State(), id) && (r.Ok? ==>
              EndTold(ctx.store.State(), id, r.value))
  {
    hide Mended;
    hide Core;
    hide LiveOk;
    hide Recoverable;
    hide Guarded;
    hide Spared;
    hide Timeline;
    hide Told;
    hide Within;
    hide Due;
    hide Extend;
    hide BackInPlace;
    hide Placed;
    hide Routed;
    hide AppLive;
    hide Unhindered;
    hide Reversible;
    hide Applicable;
    hide Retractable;
    var stopped;
    stopped := Change(ctx, id, spec, previous, run);
    var early :- stopped;
    if early.Some? {
      return Ok(early.value);
    }
    label changed:
    StaysRetractable(old(Snapshot(ctx.host)), Snapshot(ctx.host), ctx.host, Slug(run.name), previous, Healthcheck);
    r := CheckAndComplete(ctx, id, spec, healthy, previous, run);
    SparedChain(old(Snapshot(ctx.host)), old@changed(Snapshot(ctx.host)), Snapshot(ctx.host), Slug(run.name));
  }

  /** The six stages, then the terminal write. */
  method RunStages(ctx: Ctx, id: int, spec: WorkloadSpec, outside: Outside, previous: Option<WorkloadSpec>,
      ghost run: Run)
    returns (r: Io<DeployOutcome>)
    requires ctx.host.Valid() && Ready(Now(ctx), run, Detect)
    requires id == run.id && spec.name == run.name && previous == run.previous
    requires run.live ==> AppLive(Snapshot(ctx.host), Slug(run.name), run.previous)
    modifies ctx.host, ctx.store, ctx.sink
    ensures ctx.host.Valid() && Core(Now(ctx), run)
    ensures Exposed(ctx.store.State(), run) || LiveAfter(Now(ctx), run, Deployed(spec, outside))
    ensures Spared(old(Snapshot(ctx.host)), Snapshot(ctx.host), Slug(run.name))
    ensures !Live(old(ctx.store.State()), id) ==> !r.Ok? && Now(ctx) == old(Now(ctx))
    ensures CurrentSpec(ctx.store.State(), run.name) in {run.previous, Some(Deployed(spec, outside))}
    ensures r.Ok? ==> EndsAs(Now(ctx), run, Deployed(spec, outside), r.value)
    ensures r == Ok(DeployOutcome.Done) ==> Works(outside)
    ensures DoneMeans(old(Snapshot(ctx.host)), Now(ctx), run, Deployed(spec, outside)) && Mended(Now(ctx), run)
    ensures ctx.host.calm && ctx.store.calm && Live(old(ctx.store.State()), id) ==>
              Works(outside) && Unhindered(old(ctx.host.files), ctx.host, Deployed(spec, outside)) ==>
                  r == Ok(DeployOutcome.Done)
    ensures ctx.host.calm && ctx.store.calm && Live(old(ctx.store.State()), id) ==>
              Reversible(old(ctx.host.files), ctx.host, Slug(run.name), previous) ==>
              r == Ok(CalmOutcome(outside, Applicable(ctx.host, Deployed(spec, outside))))
    ensures ctx.store.calm && Live(old(ctx.store.State()), id) ==> !r.Err? && (ctx.host.calm ==> r.Ok?)
    ensures old(Due(ctx.store.State(), id, Detect)) ==> Told(ctx.store.State(), id) && (r.Ok? ==>
              EndTold(ctx.store.State(), id, r.value))
  {
    hide Mended;
    hide Core;
    hide LiveOk;
    hide Recoverable;
    hide Guarded;
    hide Spared;
    hide Timeline;
    hide Told;
    hide Within;
    hide Due;
    hide Extend;
    hide BackInPlace;
    hide Placed;
    hide Routed;
    hide AppLive;
    hide Unhindered;
    hide Reversible;
    hide Applicable;
    hide Works;
    hide CalmOutcome;
    hide LaunchOutcome;
    hide Preparing;
    Hurdles(outside, Applicable(ctx.host, Deployed(spec, outside)));
    var stopped;
    stopped := Prepare(ctx, id, outside, spec.name, previous, run);
    var early :- stopped;
    if early.Some? {
      return Ok(early.value);
    }
    NextStage(Now(ctx), run, Secrets, Stage.Apply);
    NextIsDue(ctx.store.State(), id, Secrets, Stage.Apply);
    label prepared:
    var image := ImageReference(Slug(spec.name), outside.commit);
    r := Launch(ctx, id, spec.(image := image), outside.healthy, previous, run);
    SparedChain(old(Snapshot(ctx.host)), old@prepared(Snapshot(ctx.host)), Snapshot(ctx.host), Slug(run.name));
  }

  // ---- what a done run runs ----------------------------------------------------------------

  /** The commit a unit text runs: the tag of its image. */
  function CommitOf(text: string): Option<string> {
    var workload := ReadUnit(text);
    if workload.Some? then Some(TagOf(workload.value.image)) else None
  }

  /** The app's unit on disk says this commit, and if the app was in place, so does the unit that runs. */
  ghost predicate RunsCommit(s: HostState, run: Run, commit: string) {
    var slug := Slug(run.name);
    && UnitFile(slug) in s.files && CommitOf(s.files[UnitFile(slug)]) == Some(commit)
    && (run.live ==> UnitName(slug) in s.running && CommitOf(s.running[UnitName(slug)]) == Some(commit))
  }

  /** The unit of a spec that is in place reads back with the commit it was built from. */
  lemma PlacedRunsItsCommit(s: HostState, run: Run, spec: WorkloadSpec, outside: Outside)
    requires Placed(s, run, Deployed(spec, outside))
    ensures RunsCommit(s, run, outside.commit)
  {
    hide ReadUnit;
    hide RenderUnit;
    var deployed := Deployed(spec, outside);
    UnitRoundTrip(deployed);
    SlugIsWellFormed(spec.name);
    ImageReads(Slug(spec.name), outside.commit);
  }

  /** So deploys of two commits that are both done over an app in place leave different units running. */
  lemma DifferentCommitsDifferentUnits(s: HostState, u: HostState, first: Run, second: Run, a: WorkloadSpec,
      b: WorkloadSpec, x: Outside, y: Outside)
    requires Placed(s, first, Deployed(a, x)) && Placed(u, second, Deployed(b, y))
    requires first.name == second.name && x.commit != y.commit
    ensures var unit := UnitFile(Slug(first.name)); Lookup(s.files, unit) != Lookup(u.files, unit)
    ensures var unit := UnitName(Slug(first.name));
            first.live && second.live ==> Lookup(s.running, unit) != Lookup(u.running, unit)
  {
    hide Placed;
    PlacedRunsItsCommit(s, first, a, x);
    PlacedRunsItsCommit(u, second, b, y);
  }

  /** A route that is in place is one Caddy serves, read back as its domain in front of its port. */
  lemma RoutedServesItsSite(s: HostState, run: Run, spec: WorkloadSpec)
    requires Routed(s, run, spec) && ValidSpec(spec) && spec.route.Some?
    ensures var slug, route := Slug(run.name), spec.route.value;
            slug in s.proxied && ReadFragment(s.proxied[slug]) == Some(Site(route.domain, route.port as nat))
  {
    hide ReadFragment;
    hide RenderFragment;
    FragmentRoundTrip(spec.route.value);
  }

  // ---- reserve and run ---------------------------------------------------------------------

  /** The facts a run started in `w` is measured against. */
  ghost function Start(w: World, apps: set<string>, left: set<string>, name: string, id: int): Run {
    Run(apps, left, name, id, CurrentSpec(w.tables, name), w.tables, w.sent,
        AppLive(w.host, Slug(name), CurrentSpec(w.tables, name)))
  }

  /**
   * What holds between operations: rows, specs and files of known apps, and every difference accounted
   * for.
   */
  ghost predicate Sound(w: World, apps: set<string>, left: set<string>) {
    Universe(apps) && WellStored(w.tables, apps) && Converges(w.host.files, w.tables, apps, left)
  }

  lemma CoreIsSound(w: World, run: Run)
    requires Core(w, run)
    ensures Sound(w, run.apps, Leftovers(w.tables, run))
  {
  }

  /** A reserved row, not started yet. */
  predicate Reserved(t: Tables, id: int, name: string) {
    && (id in t.deploys ==> t.deploys[id].app == name)
    && (Live(t, id) ==> t.deploys[id].stage == Detect)
  }

  lemma StartIsReady(w: World, apps: set<string>, left: set<string>, name: string, id: int)
    requires Sound(w, apps, left) && name in apps && Reserved(w.tables, id, name)
    ensures Ready(w, Start(w, apps, left, name, id), Detect)
  {
    var run := Start(w, apps, left, name, id);
    assert w.tables.events[|w.tables.events|..] == [];
    if run.live {
      LiveIsRecoverable(w.host, Slug(name), run.previous, Detect);
    }
  }

  /** Locks play no part in what a run keeps. */
  lemma LocksStep(w: World, run: Run, spec: WorkloadSpec, locks: map<string, int>)
    requires Core(w, run)
    ensures var u := w.(tables := w.tables.(locks := locks));
            && Core(u, run)
            && (LiveAfter(w, run, spec) ==> LiveAfter(u, run, spec))
            && (forall outcome | EndsAs(w, run, spec, outcome) :: EndsAs(u, run, spec, outcome))
  {
    hide FilesAgree;
    hide RouteAgrees;
    hide UnitsLive;
    hide RouteLive;
    hide UnitsRecoverable;
    hide RouteRecoverable;
    hide Placed;
    hide Routed;
    hide PlanFor;
    hide RouteFor;
    var u := w.tables.(locks := locks);
    StoreStepConverges(w.host.files, w.tables, u, run.apps, Leftovers(w.tables, run));
    if run.live && LiveOk(w, run) {
      LiveStoreStep(w.host, w.tables, u, run.name);
    }
  }

  /** Nor do they play one in what its row says. */
  lemma LocksSayNothing(s: HostState, w: World, run: Run, spec: WorkloadSpec, locks: map<string, int>)
    ensures var u := w.(tables := w.tables.(locks := locks));
            && (Exposed(w.tables, run) ==> Exposed(u.tables, run)) && (Mended(w, run) ==> Mended(u, run))
            && (DoneMeans(s, w, run, spec) ==> DoneMeans(s, u, run, spec))
  {
    hide FilesAgree;
    hide RouteAgrees;
    hide Placed;
    hide Routed;
    hide FragmentLeft;
    hide FailureTold;
  }

  /** The stages, and then the app's lock whatever they came to. */
  method RunLocked(ctx: Ctx, id: int, spec: WorkloadSpec, outside: Outside, previous: Option<WorkloadSpec>,
      ghost run: Run)
    returns (r: Io<DeployOutcome>)
    requires ctx.host.Valid() && Ready(Now(ctx), run, Detect)
    requires id == run.id && spec.name == run.name && previous == run.previous
    requires run.live ==> AppLive(Snapshot(ctx.host), Slug(run.name), run.previous)
    modifies ctx.host, ctx.store, ctx.sink
    ensures ctx.host.Valid() && Core(Now(ctx), run)
    ensures Spared(old(Snapshot(ctx.host)), Snapshot(ctx.host), Slug(run.name))
    ensures Exposed(ctx.store.State(), run) || LiveAfter(Now(ctx), run, Deployed(spec, outside))
    ensures CurrentSpec(ctx.store.State(), run.name) in {run.previous, Some(Deployed(spec, outside))}
    ensures r.Ok? ==> EndsAs(Now(ctx), run, Deployed(spec, outside), r.value) && run.name !in ctx.store.locks
    ensures ctx.store.calm && !r.Crash? ==> run.name !in ctx.store.locks
    ensures r == Ok(DeployOutcome.Done) ==> Works(outside)
    ensures DoneMeans(old(Snapshot(ctx.host)), Now(ctx), run, Deployed(spec, outside)) && Mended(Now(ctx), run)
    ensures !Live(old(ctx.store.State()), id) ==>
              !r.Ok? && Snapshot(ctx.host) == old(Snapshot(ctx.host)) && ctx.store.events == old(ctx.store.events)
                  && ctx.sink.sent == old(ctx.sink.sent)
    ensures ctx.host.calm && ctx.store.calm && Live(old(ctx.store.State()), id) ==>
              Works(outside) && Unhindered(old(ctx.host.files), ctx.host, Deployed(spec, outside)) ==>
                  r == Ok(DeployOutcome.Done)
    ensures ctx.host.calm && ctx.store.calm && Live(old(ctx.store.State()), id) ==>
              Reversible(old(ctx.host.files), ctx.host, Slug(run.name), previous) ==>
              r == Ok(CalmOutcome(outside, Applicable(ctx.host, Deployed(spec, outside))))
    ensures ctx.store.calm && Live(old(ctx.store.State()), id) ==> !r.Err? && (ctx.host.calm ==> r.Ok?)
    ensures old(Due(ctx.store.State(), id, Detect)) ==> Told(ctx.store.State(), id) && (r.Ok? ==>
              EndTold(ctx.store.State(), id, r.value))
  {
    hide Reversible;
    hide Works;
    hide Core;
    hide Mended;
    hide Exposed;
    hide DoneMeans;
    hide LiveAfter;
    hide EndsAs;
    hide Spared;
    hide Timeline;
    hide Told;
    hide Due;
    hide AppLive;
    hide Ready;
    hide FragmentLeft;
    hide Unhindered;
    var result;
    result := RunStages(ctx, id, spec, outside, previous, run);
    if result.Crash? {
      return Crash;
    }
    SameLogSameTale(ctx.store.State(), ReleaseLock(ctx.store.State(), spec.name), id);
    LocksStep(Now(ctx), run, Deployed(spec, outside), ctx.store.locks - {spec.name});
    LocksSayNothing(old(Snapshot(ctx.host)), Now(ctx), run, Deployed(spec, outside), ctx.store.locks - {spec.name});
    ghost var v := Now(ctx);
    var released := ctx.store.ReleaseLock(spec.name);
    assert Now(ctx) == v || Now(ctx) == v.(tables := ReleaseLock(v.tables, spec.name));
    var _ :- released;
    return result;
  }

  /** The live account of every other app is kept. */
  ghost predicate KeepsOthersLive(w: World, u: World, apps: set<string>, name: string) {
    forall app | app in apps && app != name && LiveConverges(w.host, w.tables, app) ::
        LiveConverges(u.host, u.tables, app)
  }

  /** A run that spares everything else and changes only its own row leaves other apps live as they were. */
  lemma OthersStayLive(w: World, u: World, run: Run)
    requires Sound(w, run.apps, run.left) && Core(u, run) && run.before == w.tables && run.name in run.apps
    requires run.id in w.tables.deploys ==> w.tables.deploys[run.id].app == run.name
    requires Spared(w.host, u.host, Slug(run.name))
    ensures KeepsOthersLive(w, u, run.apps, run.name)
  {
    hide Converges;
    hide OthersLeft;
    hide Guarded;
    hide LiveConverges;
    forall app | app in run.apps && app != run.name
        && LiveConverges(w.host, w.tables, app) ensures LiveConverges(u.host, u.tables, app) {
      OthersLeftFrame(Slug(run.name), w.host, u.host, Apps({Slug(run.name)}), Slug(app));
      LiveFrameKeeps(w.host, u.host, w.tables, run.apps, app);
      OtherRowsStay(u.host, w.tables, u.tables, run.id, run.name, app);
    }
  }

  lemma OtherRowsStay(s: HostState, t: Tables, u: Tables, id: int, name: string, app: string)
    requires LiveConverges(s, t, app) && OnlyThisDeploy(t, u, id, name) && app != name
    requires id in t.deploys ==> t.deploys[id].app == name
    ensures LiveConverges(s, u, app)
  {
    hide UnitsLive;
    hide RouteLive;
    hide UnitsRecoverable;
    hide RouteRecoverable;
    assert Apply.Lookup(u.apps, app) == Apply.Lookup(t.apps, app);
    assert forall k, from | k in t.deploys && UnderwayRow(t.deploys[k], app, from) ::
        k in u.deploys && UnderwayRow(u.deploys[k], app, from);
  }

  /**
   * Run a reserved deploy to its end. Whatever fails, and wherever the process dies, every app's
   * files are what its stored spec renders or a row accounts for the difference; nothing that kuadrat
   * did not write has changed; and every other app's workload, timers and route are as they were.
   */
  method RunReserved(ctx: Ctx, spec: WorkloadSpec, outside: Outside, id: int, ghost apps: set<string>,
      ghost left: set<string>)
    returns (r: Io<DeployOutcome>)
    requires ctx.host.Valid() && Sound(Now(ctx), apps, left) && spec.name in apps
    requires Reserved(ctx.store.State(), id, spec.name)
    modifies ctx.host, ctx.store, ctx.sink
    ensures ctx.host.Valid() && Core(Now(ctx), Start(old(Now(ctx)), apps, left, spec.name, id))
              && Sound(Now(ctx), apps, Leftovers(ctx.store.State(), Start(old(Now(ctx)), apps, left, spec.name, id)))
    ensures Spared(old(Snapshot(ctx.host)), Snapshot(ctx.host), Slug(spec.name))
    ensures KeepsOthersLive(old(Now(ctx)), Now(ctx), apps, spec.name)
    // The live account is kept, wherever it stopped, unless a stage is stored as failed and the row is not rolled back.
    ensures || Exposed(ctx.store.State(), Start(old(Now(ctx)), apps, left, spec.name, id))
            || LiveAfter(Now(ctx), Start(old(Now(ctx)), apps, left, spec.name, id), Deployed(spec, outside))
    ensures CurrentSpec(ctx.store.State(), spec.name) in {old(CurrentSpec(ctx.store.State(), spec.name)),
              Some(Deployed(spec, outside))}
    ensures r.Ok? ==> EndsAs(Now(ctx), Start(old(Now(ctx)), apps, left, spec.name, id), Deployed(spec, outside),
              r.value)
    ensures r.Ok? ==> ValidSpec(spec) && spec.name !in ctx.store.locks
    ensures ctx.store.calm && ValidSpec(spec) && !r.Crash? ==> spec.name !in ctx.store.locks
    ensures r == Ok(DeployOutcome.Done) ==> Works(outside)
    ensures r == Ok(DeployOutcome.Done) ==>
              RunsCommit(Snapshot(ctx.host), Start(old(Now(ctx)), apps, left, spec.name, id), outside.commit)
    ensures DoneMeans(old(Snapshot(ctx.host)), Now(ctx), Start(old(Now(ctx)), apps, left, spec.name, id),
              Deployed(spec, outside))
    ensures Mended(Now(ctx), Start(old(Now(ctx)), apps, left, spec.name, id))
    // An invalid spec is refused outright, with the lock still held and the row still in progress.
    ensures !ValidSpec(spec) ==> r == Err && Now(ctx) == old(Now(ctx))
    // A row someone else has finished: no stage runs and no event is stored or published.
    ensures !old(Live(ctx.store.State(), id)) ==>
              !r.Ok? && Snapshot(ctx.host) == old(Snapshot(ctx.host)) && ctx.store.events == old(ctx.store.events)
                  && ctx.sink.sent == old(ctx.sink.sent)
    ensures ctx.host.calm && ctx.store.calm && old(Live(ctx.store.State(), id)) ==>
              ValidSpec(spec) && Works(outside) ==>
              Unhindered(old(ctx.host.files), ctx.host, Deployed(spec, outside)) ==> r == Ok(DeployOutcome.Done)
    // In a calm world, with no one else's file in the way and a previous spec that can be applied, the
    // outcome is decided by the world outside and the spec alone, and it is never a failed undo.
    ensures ctx.host.calm && ctx.store.calm && ValidSpec(spec) && old(Live(ctx.store.State(), id)) ==>
              Reversible(old(ctx.host.files), ctx.host, Slug(spec.name),
                  old(CurrentSpec(ctx.store.State(), spec.name))) ==>
              r == Ok(CalmOutcome(outside, Applicable(ctx.host, Deployed(spec, outside))))
    ensures ctx.store.calm && ValidSpec(spec) && old(Live(ctx.store.State(), id)) ==>
              !r.Err? && (ctx.host.calm ==> r.Ok?)
    // The whole tale: pairs in stage order up to where it stopped, and the one end that was reported.
    ensures old(Due(ctx.store.State(), id, Detect)) ==> Told(ctx.store.State(), id) && (r.Ok? ==>
              EndTold(ctx.store.State(), id, r.value))
  {
    hide Reversible;
    hide RunsCommit;
    hide Placed;
    hide Mended;
    hide Core;
    hide Sound;
    hide LiveAfter;
    hide EndsAs;
    hide Spared;
    hide KeepsOthersLive;
    hide Timeline;
    hide Told;
    hide Due;
    hide AppLive;
    hide Ready;
    hide FragmentLeft;
    hide Unhindered;
    ghost var w := Now(ctx);
    ghost var run := Start(w, apps, left, spec.name, id);
    SparedSame(w.host, Slug(spec.name));
    WithinIsTold(w.tables, id, Detect);
    StartIsReady(w, apps, left, spec.name, id);
    ReadyIsSettled(w, run, Deployed(spec, outside));
    CoreIsSound(w, run);
    OthersStayLive(w, w, run);
    var valid := Validate(spec);
    if valid.Failure? {
      return Err;
    }
    var previous :- ctx.store.CurrentSpec(spec.name);
    r := RunLocked(ctx, id, spec, outside, previous, run);
    CoreIsSound(Now(ctx), run);
    OthersStayLive(w, Now(ctx), run);
    if r == Ok(DeployOutcome.Done) {
      DoneIsPlaced(Now(ctx), run, Deployed(spec, outside));
      PlacedRunsItsCommit(Snapshot(ctx.host), run, spec, outside);
    }
  }

  lemma DoneIsPlaced(w: World, run: Run, spec: WorkloadSpec)
    requires EndsAs(w, run, spec, DeployOutcome.Done)
    ensures Placed(w.host, run, spec)
  {
  }

  lemma ReadyIsSettled(w: World, run: Run, spec: WorkloadSpec)
    requires Ready(w, run, Detect)
    ensures Core(w, run) && LiveAfter(w, run, spec) && Mended(w, run)
  {
  }

  // ---- reserving ---------------------------------------------------------------------------

  datatype Reservation = Granted(id: int) | Busy(id: int)

  /** A store step that keeps every account, live or not. */
  ghost predicate KeepsAccounts(t: Tables, u: Tables) {
    u.apps == t.apps && KeepsDirt(t, u) && KeepsUnderway(t, u)
  }

  /** The live account of every app is kept. */
  ghost predicate KeepsLive(w: World, u: World, apps: set<string>) {
    forall app | app in apps && LiveConverges(w.host, w.tables, app) :: LiveConverges(u.host, u.tables, app)
  }

  lemma StoreOnly(w: World, u: World, apps: set<string>, left: set<string>)
    requires Sound(w, apps, left) && u.host == w.host && KeepsAccounts(w.tables, u.tables) && WellStored(u.tables, apps)
    ensures Sound(u, apps, left) && KeepsLive(w, u, apps)
  {
    hide LiveConverges;
    hide Converges;
    hide KeepsDirt;
    hide KeepsUnderway;
    StoreStepConverges(w.host.files, w.tables, u.tables, apps, left);
    forall app | app in apps && LiveConverges(w.host, w.tables, app) ensures LiveConverges(u.host, u.tables, app) {
      LiveStoreStep(w.host, w.tables, u.tables, app);
    }
  }

  /** A new row at Detect, and what may become of it and of its lock before it runs. */
  lemma NewRow(t: Tables, apps: set<string>, name: string, status: Status, locks: map<string, int>)
    requires WellStored(t, apps) && name in apps
    ensures var u := SetStatus(CreateDeploy(t, name), t.nextDeploy, status).(locks := locks);
            WellStored(u, apps) && KeepsAccounts(t, u)
  {
  }

  /**
   * Allocate a row and take the lock, or finish the row as failed, without an event, when another
   * deploy of the app holds it.
   */
  method Reserve(ctx: Ctx, name: string, ghost apps: set<string>, ghost left: set<string>) returns (r: Io<Reservation>)
    requires Sound(Now(ctx), apps, left) && name in apps
    modifies ctx.store
    ensures Sound(Now(ctx), apps, left) && KeepsLive(old(Now(ctx)), Now(ctx), apps)
    ensures ctx.store.events == old(ctx.store.events)
    ensures r.Ok? ==> r.value.id == old(ctx.store.nextDeploy)
    ensures r.Ok? && r.value.Granted? ==>
              Some(ctx.store.State()) == AcquireLock(CreateDeploy(old(ctx.store.State()), name), name, r.value.id)
    ensures r.Ok? && r.value.Granted? ==>
              Live(ctx.store.State(), r.value.id) && Reserved(ctx.store.State(), r.value.id, name)
    ensures r.Ok? && r.value.Busy? ==> name in old(ctx.store.locks)
    ensures r.Ok? && r.value.Busy? ==> Some(ctx.store.State()) == FinishDeploy(CreateDeploy(old(ctx.store.State()),
              name), r.value.id, Status.Failed)
    ensures ctx.store.calm ==> r.Ok? && (r.value.Granted? <==> name !in old(ctx.store.locks))
  {
    hide Sound;
    hide KeepsLive;
    hide KeepsAccounts;
    ghost var w := Now(ctx);
    ReserveStep(w, apps, left, name);
    var created := ctx.store.CreateDeploy(name);
    assert Now(ctx) == w || Now(ctx) == w.(tables := CreateDeploy(w.tables, name));
    var id :- created;
    var acquired := ctx.store.AcquireLock(name, id);
    assert Now(ctx) == w.(tables := CreateDeploy(w.tables, name))
        || Now(ctx) == w.(tables := AcquireLock(CreateDeploy(w.tables, name), name, id).value);
    var granted :- acquired;
    if !granted {
      var refused := ctx.store.FinishDeploy(id, Status.Failed);
      assert Now(ctx) == w.(tables := CreateDeploy(w.tables, name))
          || Now(ctx) == w.(tables := FinishDeploy(CreateDeploy(w.tables, name), id, Status.Failed).value);
      var _ :- refused;
      return Ok(Busy(id));
    }
    return Ok(Granted(id));
  }

  /** Each place a reservation can be left in keeps every account. */
  lemma ReserveStep(w: World, apps: set<string>, left: set<string>, name: string)
    requires Sound(w, apps, left) && name in apps
    ensures KeepsLive(w, w, apps)
    ensures var u := w.(tables := CreateDeploy(w.tables, name)); Sound(u, apps, left) && KeepsLive(w, u, apps)
    ensures var u := w.(tables := SetStatus(CreateDeploy(w.tables, name), w.tables.nextDeploy, Status.Failed));
            Sound(u, apps, left) && KeepsLive(w, u, apps)
    ensures var u := w.(tables := CreateDeploy(w.tables, name).(locks := w.tables.locks[name := w.tables.nextDeploy]));
            Sound(u, apps, left) && KeepsLive(w, u, apps)
  {
    hide LiveConverges;
    hide Converges;
    hide WellStored;
    hide KeepsAccounts;
    var t := w.tables;
    NewRow(t, apps, name, InProgress, t.locks);
    NewRow(t, apps, name, Status.Failed, t.locks);
    NewRow(t, apps, name, InProgress, t.locks[name := t.nextDeploy]);
    var c := CreateDeploy(t, name);
    assert c == SetStatus(c, t.nextDeploy, InProgress).(locks := t.locks);
    assert SetStatus(c, t.nextDeploy, Status.Failed) == SetStatus(c, t.nextDeploy, Status.Failed).(locks := t.locks);
    assert c.(locks := t.locks[name := t.nextDeploy]) == SetStatus(c, t.nextDeploy, InProgress).(locks :=
        t.locks[name := t.nextDeploy]);
    StoreOnly(w, w.(tables := c), apps, left);
    StoreOnly(w, w.(tables := SetStatus(c, t.nextDeploy, Status.Failed)), apps, left);
    StoreOnly(w, w.(tables := c.(locks := t.locks[name := t.nextDeploy])), apps, left);
  }
}
