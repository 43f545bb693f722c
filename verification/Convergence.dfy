/**
 * What it means for the host to be where the stored spec says it should be, what may be out of
 * place and which durable row accounts for it, and how each kind of step keeps that account.
 */
module Convergence {
  import opened Wrappers
  import opened Slugs
  import opened Specs
  import opened Paths
  import opened Tables
  import opened Render
  import opened Host
  import opened Managed
  import opened Apply
  import opened Gateway

  // ---- the account -------------------------------------------------------------------------

  /** The apps of a host: no slug clashes with another's. */
  ghost predicate Universe(apps: set<string>) {
    forall a, b | a in apps && b in apps && a != b :: !Clash(Slug(a), Slug(b))
  }

  /** Rows and specs belong to known apps, and what is stored as deployed is a valid spec of its app. */
  ghost predicate WellStored(t: Tables, apps: set<string>) {
    && Consistent(t)
    && (forall id | id in t.deploys :: t.deploys[id].app in apps)
    && (forall n | n in t.apps ::
          n in apps && t.apps[n].slug == Slug(n) && t.apps[n].spec.name == n && ValidSpec(t.apps[n].spec))
  }

  /** A row that says the host may be out of place: unfinished or failed, at `from` or later. */
  predicate DirtyRow(row: DeployRow, app: string, from: Stage) {
    && row.app == app
    && (row.status == InProgress || row.status == Failed)
    && row.stage.Rank() >= from.Rank()
  }

  ghost predicate Dirty(t: Tables, app: string, from: Stage) {
    exists id | id in t.deploys :: DirtyRow(t.deploys[id], app, from)
  }

  function PlanFor(spec: Option<WorkloadSpec>): Option<Plan> {
    if spec.Some? then Some(PlanOf(spec.value)) else None
  }

  function RouteFor(spec: Option<WorkloadSpec>): Option<Specs.Route> {
    if spec.Some? then spec.value.route else None
  }

  /** The stored spec has no route. */
  predicate Cleared(t: Tables, app: string) {
    CurrentSpec(t, app).Some? && RouteFor(CurrentSpec(t, app)).None?
  }

  ghost predicate UnitsConverge(files: map<File, string>, t: Tables, app: string) {
    FilesAgree(files, Slug(app), PlanFor(CurrentSpec(t, app))) || Dirty(t, app, Stage.Apply)
  }

  /**
   * `left` names the apps whose last finished deploy took a route away and left the older fragment
   * behind.
   */
  ghost predicate RouteConverges(files: map<File, string>, t: Tables, app: string, left: set<string>) {
    || RouteAgrees(files, Slug(app), RouteFor(CurrentSpec(t, app))) || Dirty(t, app, Stage.Route)
    || (app in left && Cleared(t, app))
  }

  /** Every app's files are what its stored spec renders, or a row, or `left`, accounts for the difference. */
  ghost predicate Converges(files: map<File, string>, t: Tables, apps: set<string>, left: set<string>) {
    forall app | app in apps :: UnitsConverge(files, t, app) && RouteConverges(files, t, app, left)
  }

  /** The apps of `left` that really have such a fragment. */
  ghost function ReallyLeft(files: map<File, string>, t: Tables, left: set<string>): (rest: set<string>)
    ensures rest <= left
  {
    set app | app in left && Cleared(t, app) && !RouteAgrees(files, Slug(app), RouteFor(CurrentSpec(t, app)))
  }

  lemma ReallyLeftConverges(files: map<File, string>, t: Tables, apps: set<string>, left: set<string>)
    ensures Converges(files, t, apps, left) <==> Converges(files, t, apps, ReallyLeft(files, t, left))
  {
    forall app | app in apps ensures RouteConverges(files, t, app, left) <==>
        RouteConverges(files, t, app, ReallyLeft(files, t, left)) {
    }
    if Converges(files, t, apps, left) {
      forall app | app in apps ensures UnitsConverge(files, t, app)
          && RouteConverges(files, t, app, ReallyLeft(files, t, left)) {
        assert UnitsConverge(files, t, app) && RouteConverges(files, t, app, left);
      }
    }
  }

  /** An app whose fragment is right again is no longer one with a fragment left behind. */
  lemma RouteRestored(files: map<File, string>, t: Tables, apps: set<string>, left: set<string>, app: string)
    requires Converges(files, t, apps, left) && RouteAgrees(files, Slug(app), RouteFor(CurrentSpec(t, app)))
    ensures Converges(files, t, apps, left - {app})
  {
    forall other | other in apps ensures UnitsConverge(files, t, other)
        && RouteConverges(files, t, other, left - {app}) {
      assert UnitsConverge(files, t, other) && RouteConverges(files, t, other, left);
    }
  }

  // ---- frames ------------------------------------------------------------------------------

  ghost predicate SameFiles(a: map<File, string>, b: map<File, string>, slug: string) {
    forall f | Touches(slug, f) :: Lookup(a, f) == Lookup(b, f)
  }

  lemma FilesAgreeFrame(a: map<File, string>, b: map<File, string>, slug: string, plan: Option<Plan>)
    requires forall f | UnitTouches(slug, f) :: Lookup(a, f) == Lookup(b, f)
    requires FilesAgree(a, slug, plan)
    requires plan.Some? ==> plan.value.slug == slug && GoodPlan(plan.value)
    ensures FilesAgree(b, slug, plan)
  {
    forall f | f in b && IsTaskFile(slug, f) ensures f in a {
      assert UnitTouches(slug, f);
      assert Lookup(a, f) == Lookup(b, f);
    }
    assert UnitTouches(slug, UnitFile(slug));
    if plan.Some? {
      var p := plan.value;
      forall i | 0 <= i < |p.tasks|
        ensures HasFile(b, TaskContainer(p.tasks[i].stem), p.tasks[i].container)
                  && HasFile(b, TaskTimer(p.tasks[i].stem), p.tasks[i].timer)
      {
        assert UnitTouches(slug, TaskContainer(p.tasks[i].stem)) && UnitTouches(slug, TaskTimer(p.tasks[i].stem));
        assert HasFile(a, TaskContainer(p.tasks[i].stem), p.tasks[i].container)
            && HasFile(a, TaskTimer(p.tasks[i].stem), p.tasks[i].timer);
      }
    }
  }

  lemma GuardedLeaves(a: map<File, string>, b: map<File, string>, reach: Reach, f: File)
    requires Guarded(a, b, reach) && !Covers(reach, f)
    ensures Lookup(a, f) == Lookup(b, f)
  {
  }

  lemma OtherAppUntouched(a: map<File, string>, b: map<File, string>, reach: Reach, slug: string, other: string)
    requires !Clash(slug, other) && Guarded(a, b, reach)
    requires reach == Units(slug) || reach == RouteOf(slug) || reach == Apps({slug})
    ensures SameFiles(a, b, other)
  {
    forall f | Touches(other, f) ensures Lookup(a, f) == Lookup(b, f) {
      NoClashNoSharedFile(slug, other, f);
      GuardedLeaves(a, b, reach, f);
    }
  }

  lemma StoredPlanIsGood(t: Tables, apps: set<string>, app: string)
    requires WellStored(t, apps)
    ensures var plan := PlanFor(CurrentSpec(t, app)); plan.Some? ==>
              plan.value.slug == Slug(app) && GoodPlan(plan.value)
  {
    if CurrentSpec(t, app).Some? {
      PlanIsGood(t.apps[app].spec);
    }
  }

  /** One app's accounts carry over to a host with the same files of that app. */
  lemma AppFrame(a: map<File, string>, b: map<File, string>, t: Tables, apps: set<string>, left: set<string>,
      app: string)
    requires WellStored(t, apps) && SameFiles(a, b, Slug(app))
    ensures UnitsConverge(a, t, app) ==> UnitsConverge(b, t, app)
    ensures RouteConverges(a, t, app, left) ==> RouteConverges(b, t, app, left)
  {
    StoredPlanIsGood(t, apps, app);
    if FilesAgree(a, Slug(app), PlanFor(CurrentSpec(t, app))) {
      FilesAgreeFrame(a, b, Slug(app), PlanFor(CurrentSpec(t, app)));
    }
    assert Touches(Slug(app), Fragment(Slug(app)));
  }

  // ---- steps of the host -------------------------------------------------------------------

  /** Changing an app's unit files is accounted for by a row of that app at Apply or later. */
  lemma UnitStepConverges(a: map<File, string>, b: map<File, string>, t: Tables, apps: set<string>, left: set<string>,
      app: string)
    requires Universe(apps) && WellStored(t, apps) && app in apps
    requires Converges(a, t, apps, left) && Guarded(a, b, Units(Slug(app))) && Dirty(t, app, Stage.Apply)
    ensures Converges(b, t, apps, left)
  {
    forall other | other in apps ensures UnitsConverge(b, t, other) && RouteConverges(b, t, other, left) {
      assert UnitsConverge(a, t, other) && RouteConverges(a, t, other, left);
      if other == app {
        GuardedLeaves(a, b, Units(Slug(app)), Fragment(Slug(app)));
      } else {
        OtherAppUntouched(a, b, Units(Slug(app)), Slug(app), Slug(other));
        AppFrame(a, b, t, apps, left, other);
      }
    }
  }

  /** Changing an app's files at large is accounted for by a row of that app at Route or later. */
  lemma RouteStepConverges(a: map<File, string>, b: map<File, string>, t: Tables, apps: set<string>,
      left: set<string>, app: string, reach: Reach)
    requires Universe(apps) && WellStored(t, apps) && app in apps
    requires reach == RouteOf(Slug(app)) || reach == Apps({Slug(app)})
    requires Converges(a, t, apps, left) && Guarded(a, b, reach) && Dirty(t, app, Stage.Route)
    ensures Converges(b, t, apps, left)
  {
    forall other | other in apps ensures UnitsConverge(b, t, other) && RouteConverges(b, t, other, left) {
      assert UnitsConverge(a, t, other) && RouteConverges(a, t, other, left);
      if other == app {
        var id :| id in t.deploys && DirtyRow(t.deploys[id], app, Stage.Route);
        assert DirtyRow(t.deploys[id], app, Stage.Apply);
      } else {
        OtherAppUntouched(a, b, reach, Slug(app), Slug(other));
        AppFrame(a, b, t, apps, left, other);
      }
    }
  }

  // ---- steps of the store ------------------------------------------------------------------

  /** Every row that accounted for a difference still does. */
  ghost predicate KeepsDirt(t: Tables, u: Tables) {
    forall id, app, from | id in t.deploys && DirtyRow(t.deploys[id], app, from) :: id in u.deploys
        && DirtyRow(u.deploys[id], app, from)
  }

  lemma StoreStepConverges(files: map<File, string>, t: Tables, u: Tables, apps: set<string>, left: set<string>)
    requires Converges(files, t, apps, left) && u.apps == t.apps && KeepsDirt(t, u)
    ensures Converges(files, u, apps, left)
  {
    forall app | app in apps ensures UnitsConverge(files, u, app) && RouteConverges(files, u, app, left) {
      assert UnitsConverge(files, t, app) && RouteConverges(files, t, app, left);
    }
  }

  /**
   * Finishing a row as done or rolled back drops its account, so the app must be in place as far as
   * the row had got; only a deploy that is done may leave a fragment its spec no longer has.
   */
  lemma FinishConverges(files: map<File, string>, t: Tables, apps: set<string>, left: set<string>, id: int,
      status: Status)
    requires Converges(files, t, apps, left) && id in t.deploys
    requires status == Done || status == RolledBack
    requires t.deploys[id].stage.Rank() >= Stage.Apply.Rank() ==>
              FilesAgree(files, Slug(t.deploys[id].app), PlanFor(CurrentSpec(t, t.deploys[id].app)))
    requires t.deploys[id].stage.Rank() >= Stage.Route.Rank() ==>
               || RouteAgrees(files, Slug(t.deploys[id].app), RouteFor(CurrentSpec(t, t.deploys[id].app)))
               || (status == Done && Cleared(t, t.deploys[id].app))
    ensures Converges(files, FinishWithEvent(t, id, status).value, apps, if status == Done
              then left + {t.deploys[id].app} else left)
  {
    hide Dirty;
    hide FilesAgree;
    var u := FinishWithEvent(t, id, status).value;
    var more := if status == Done then left + {t.deploys[id].app} else left;
    forall app | app in apps ensures UnitsConverge(files, u, app) && RouteConverges(files, u, app, more) {
      assert UnitsConverge(files, t, app) && RouteConverges(files, t, app, left);
      if Dirty(t, app, Stage.Apply) {
        OtherDirtStays(t, id, status, app, Stage.Apply);
      }
      if Dirty(t, app, Stage.Route) {
        OtherDirtStays(t, id, status, app, Stage.Route);
      }
    }
  }

  lemma OtherDirtStays(t: Tables, id: int, status: Status, app: string, from: Stage)
    requires id in t.deploys && Dirty(t, app, from)
    ensures Dirty(FinishWithEvent(t, id, status).value, app, from) || DirtyRow(t.deploys[id], app, from)
  {
    var u := FinishWithEvent(t, id, status).value;
    var k :| k in t.deploys && DirtyRow(t.deploys[k], app, from);
    assert k != id ==> k in u.deploys && DirtyRow(u.deploys[k], app, from);
  }

  /** Storing a spec is accounted for by a row of the app at Route or later. */
  lemma PutSpecConverges(files: map<File, string>, t: Tables, apps: set<string>, left: set<string>, name: string,
      spec: WorkloadSpec)
    requires Converges(files, t, apps, left) && Dirty(t, name, Stage.Route)
    requires PutSpec(t, name, Slug(name), spec).Some?
    ensures Converges(files, PutSpec(t, name, Slug(name), spec).value, apps, left)
  {
    var u := PutSpec(t, name, Slug(name), spec).value;
    forall app | app in apps ensures UnitsConverge(files, u, app) && RouteConverges(files, u, app, left) {
      assert UnitsConverge(files, t, app) && RouteConverges(files, t, app, left);
      var id :| id in t.deploys && DirtyRow(t.deploys[id], name, Stage.Route);
      assert DirtyRow(u.deploys[id], name, Stage.Apply) && DirtyRow(u.deploys[id], name, Stage.Route);
      assert Dirty(t, app, Stage.Apply) ==> Dirty(u, app, Stage.Apply);
      assert Dirty(t, app, Stage.Route) ==> Dirty(u, app, Stage.Route);
    }
  }

  // ---- the live side -----------------------------------------------------------------------

  /** The host as one value. */
  datatype HostState = HostState(files: map<File, string>, running: map<string, string>, timers: set<string>,
      proxied: map<string, string>)

  function Snapshot(h: Host): HostState
    reads h
  {
    HostState(h.files, h.running, h.timers, h.proxied)
  }

  /** Files, workload and enabled timers are what the plan says. */
  ghost predicate UnitsLive(s: HostState, slug: string, plan: Option<Plan>) {
    && FilesAgree(s.files, slug, plan)
    && Lookup(s.running, UnitName(slug)) == (if plan.Some? then Some(plan.value.unit) else None)
    && TimersBacked(s.files, s.timers, slug)
    && (plan.Some? ==> Stems(plan.value) <= s.timers)
  }

  /** The fragment file and what Caddy serves are what the route says. */
  ghost predicate RouteLive(s: HostState, slug: string, route: Option<Specs.Route>) {
    RouteAgrees(s.files, slug, route) && ProxyAgrees(s.proxied, slug, route)
  }

  ghost predicate AppLive(s: HostState, slug: string, spec: Option<WorkloadSpec>) {
    UnitsLive(s, slug, PlanFor(spec)) && RouteLive(s, slug, RouteFor(spec))
  }

  /** A successful undo of the units would leave the right workload running. */
  ghost predicate UnitsRecoverable(s: HostState, slug: string, plan: Option<Plan>) {
    && TimersBacked(s.files, s.timers, slug)
    && match plan
       case None => UnitName(slug) in s.running ==> UnitFile(slug) in s.files
       case Some(p) =>
         UnitName(slug) in s.running && s.running[UnitName(slug)] != p.unit ==>
           UnitFile(slug) in s.files && s.files[UnitFile(slug)] != p.unit
  }

  /** A successful undo of the route would leave Caddy serving the right thing. */
  ghost predicate RouteRecoverable(s: HostState, slug: string, route: Option<Specs.Route>) {
    route.None? && slug in s.proxied ==> Fragment(slug) in s.files
  }

  /** What an undo from `stage` needs: whatever the stage had not reached is still in place. */
  ghost predicate Recoverable(s: HostState, slug: string, spec: Option<WorkloadSpec>, stage: Stage) {
    && UnitsRecoverable(s, slug, PlanFor(spec))
    && RouteRecoverable(s, slug, RouteFor(spec))
    && (stage.Rank() < Stage.Apply.Rank() ==> UnitsLive(s, slug, PlanFor(spec)))
    && (stage.Rank() < Stage.Route.Rank() ==> RouteLive(s, slug, RouteFor(spec)))
  }

  lemma LiveIsRecoverable(s: HostState, slug: string, spec: Option<WorkloadSpec>, stage: Stage)
    requires AppLive(s, slug, spec)
    ensures Recoverable(s, slug, spec, stage)
  {
  }

  /** A row still working on the app, at `from` or later. */
  predicate UnderwayRow(row: DeployRow, app: string, from: Stage) {
    row.app == app && row.status == InProgress && row.stage.Rank() >= from.Rank()
  }

  ghost predicate Underway(t: Tables, app: string, from: Stage) {
    exists id | id in t.deploys :: UnderwayRow(t.deploys[id], app, from)
  }

  ghost predicate KeepsUnderway(t: Tables, u: Tables) {
    forall id, app, from: Stage | id in t.deploys && from.Rank() >= Stage.Apply.Rank()
        && UnderwayRow(t.deploys[id], app, from) ::
      id in u.deploys && UnderwayRow(u.deploys[id], app, from)
  }

  /** The live account of one app: recoverable, and in place unless a row is still working on it. */
  ghost predicate LiveConverges(s: HostState, t: Tables, app: string) {
    var spec := CurrentSpec(t, app);
    && UnitsRecoverable(s, Slug(app), PlanFor(spec))
    && RouteRecoverable(s, Slug(app), RouteFor(spec))
    && (UnitsLive(s, Slug(app), PlanFor(spec)) || Underway(t, app, Stage.Apply))
    && (RouteLive(s, Slug(app), RouteFor(spec)) || Underway(t, app, Stage.Route))
  }

  /** Another app's deploy leaves this app's live state alone. */
  ghost predicate LiveFrame(s: HostState, u: HostState, slug: string) {
    && SameFiles(s.files, u.files, slug)
    && Lookup(s.running, UnitName(slug)) == Lookup(u.running, UnitName(slug))
    && (forall t | InTaskNamespace(slug, t) :: t in s.timers <==> t in u.timers)
    && ProxyLeft(slug, s.proxied, u.files, u.proxied)
  }

  lemma TimersFrame(s: HostState, u: HostState, slug: string)
    requires LiveFrame(s, u, slug) && TimersBacked(s.files, s.timers, slug)
    ensures TimersBacked(u.files, u.timers, slug)
  {
    forall x | x in u.timers && InTaskNamespace(slug, x) ensures TaskTimer(x) in u.files {
      assert TaskTimer(x) in s.files && Touches(slug, TaskTimer(x));
      assert Lookup(s.files, TaskTimer(x)) == Lookup(u.files, TaskTimer(x));
    }
  }

  lemma UnitsLiveFrame(s: HostState, u: HostState, slug: string, plan: Option<Plan>)
    requires LiveFrame(s, u, slug) && UnitsLive(s, slug, plan)
    requires plan.Some? ==> plan.value.slug == slug && GoodPlan(plan.value)
    ensures UnitsLive(u, slug, plan)
  {
    TimersFrame(s, u, slug);
    FilesAgreeFrame(s.files, u.files, slug, plan);
    if plan.Some? {
      forall x | x in Stems(plan.value) ensures x in u.timers {
        var i :| 0 <= i < |plan.value.tasks| && plan.value.tasks[i].stem == x;
        assert InTaskNamespace(slug, plan.value.tasks[i].stem);
      }
    }
  }

  lemma UnitsRecoverableFrame(s: HostState, u: HostState, slug: string, plan: Option<Plan>)
    requires LiveFrame(s, u, slug) && UnitsRecoverable(s, slug, plan)
    ensures UnitsRecoverable(u, slug, plan)
  {
    TimersFrame(s, u, slug);
    assert Touches(slug, UnitFile(slug));
    assert Lookup(s.files, UnitFile(slug)) == Lookup(u.files, UnitFile(slug));
  }

  lemma RouteFrame(s: HostState, u: HostState, slug: string, route: Option<Specs.Route>)
    requires LiveFrame(s, u, slug) && RouteRecoverable(s, slug, route)
    ensures RouteRecoverable(u, slug, route)
    ensures RouteLive(s, slug, route) ==> RouteLive(u, slug, route)
  {
    assert Touches(slug, Fragment(slug));
    assert Lookup(s.files, Fragment(slug)) == Lookup(u.files, Fragment(slug));
  }

  lemma LiveFrameKeeps(s: HostState, u: HostState, t: Tables, apps: set<string>, app: string)
    requires WellStored(t, apps) && LiveFrame(s, u, Slug(app)) && LiveConverges(s, t, app)
    ensures LiveConverges(u, t, app)
  {
    var slug, plan := Slug(app), PlanFor(CurrentSpec(t, app));
    StoredPlanIsGood(t, apps, app);
    UnitsRecoverableFrame(s, u, slug, plan);
    RouteFrame(s, u, slug, RouteFor(CurrentSpec(t, app)));
    if UnitsLive(s, slug, plan) {
      UnitsLiveFrame(s, u, slug, plan);
    }
  }

  lemma LiveStoreStep(s: HostState, t: Tables, u: Tables, app: string)
    requires LiveConverges(s, t, app) && u.apps == t.apps && KeepsUnderway(t, u)
    ensures LiveConverges(s, u, app)
  {
  }

  /** Finishing a row of an app that is in place as far as the row had got. */
  lemma LiveFinish(s: HostState, t: Tables, app: string, id: int, status: Status)
    requires LiveConverges(s, t, app) && id in t.deploys
    requires t.deploys[id].app == app && t.deploys[id].stage.Rank() >= Stage.Apply.Rank() ==>
              UnitsLive(s, Slug(app), PlanFor(CurrentSpec(t, app)))
    requires t.deploys[id].app == app && t.deploys[id].stage.Rank() >= Stage.Route.Rank() ==>
              RouteLive(s, Slug(app), RouteFor(CurrentSpec(t, app)))
    ensures LiveConverges(s, FinishWithEvent(t, id, status).value, app)
  {
    var u := FinishWithEvent(t, id, status).value;
    assert forall k, from | k in t.deploys && k != id && UnderwayRow(t.deploys[k], app, from) ::
        UnderwayRow(u.deploys[k], app, from);
  }
}
