/** Compensation: walking back the host changes of a stage that failed or was cut. */
module Undo {
  import opened Wrappers
  import opened Slugs
  import opened Specs
  import opened Paths
  import opened Tables
  import opened Render
  import opened Host
  import opened Managed
  import opened Apply
  import opened Gateway
  import opened Convergence

  /** The files an undo from `stage` reaches. */
  function UndoReach(slug: string, stage: Stage): Reach {
    if stage.Rank() < Stage.Route.Rank() then Units(slug) else Apps({slug})
  }

  /** What an undo of app `slug` does to every other app. */
  ghost predicate OthersLeft(slug: string, s: HostState, u: HostState) {
    && (forall unit | unit != UnitName(slug) :: Lookup(u.running, unit) == Lookup(s.running, unit))
    && (forall t | !InTaskNamespace(slug, t) :: t in u.timers <==> t in s.timers)
    && (forall x | x != slug :: ProxyLeft(x, s.proxied, u.files, u.proxied))
  }

  lemma OthersLeftFrame(slug: string, s: HostState, u: HostState, reach: Reach, other: string)
    requires !Clash(slug, other) && OthersLeft(slug, s, u) && Guarded(s.files, u.files, reach)
    requires reach == Units(slug) || reach == RouteOf(slug) || reach == Apps({slug})
    ensures LiveFrame(s, u, other)
  {
    OtherAppUntouched(s.files, u.files, reach, slug, other);
    UnitNameInjective(slug, other);
    forall t | InTaskNamespace(other, t) ensures t in s.timers <==> t in u.timers {
      if InTaskNamespace(slug, t) {
        NoClashNoSharedFile(slug, other, TaskTimer(t));
      }
    }
  }

  /** Every file in the app's reach is kuadrat's own, and the spec to return to can be applied. */
  ghost predicate Reversible(files: map<File, string>, h: Host, slug: string, previous: Option<WorkloadSpec>) {
    && NoForeign(files, slug) && OwnFragment(files, slug)
    && (previous.Some? ==> Applicable(h, previous.value))
  }

  /** Nothing can go wrong with an undo from `stage`. */
  ghost predicate Retractable(files: map<File, string>, h: Host, slug: string, previous: Option<WorkloadSpec>,
      stage: Stage) {
    stage.Rank() < Stage.Apply.Rank() || (h.calm && Reversible(files, h, slug, previous))
  }

  /** Whatever kuadrat writes carries the marker, so an app that can be brought back stays so. */
  lemma StaysReversible(a: map<File, string>, b: map<File, string>, reach: Reach, h: Host, slug: string,
      previous: Option<WorkloadSpec>)
    requires Guarded(a, b, reach) && Reversible(a, h, slug, previous)
    ensures Reversible(b, h, slug, previous)
  {
    hide Applicable;
    StaysOwn(a, b, reach, slug);
  }

  /** Apply the previous spec again. */
  method Reapply(h: Host, slug: string, prev: WorkloadSpec) returns (r: Io<()>)
    requires h.Valid() && Slug(prev.name) == slug
    modifies h`files, h`dirs, h`loaded, h`running, h`timers
    ensures h.Valid()
    ensures Guarded(old(h.files), h.files, Units(slug))
    ensures OthersUntouched(slug, old(h.running), old(h.timers), h.running, h.timers)
    ensures r.Ok? ==> FilesAgree(h.files, slug, Some(PlanOf(prev)))
    ensures r.Ok? && UnitsRecoverable(old(Snapshot(h)), slug, Some(PlanOf(prev))) ==>
              UnitsLive(Snapshot(h), slug, Some(PlanOf(prev)))
    ensures h.calm && Reversible(old(h.files), h, slug, Some(prev)) ==> r.Ok?
    ensures h.calm ==> !r.Crash?
  {
    hide FilesAgree;
    hide Guarded;
    hide UnitLeft;
    hide OthersUntouched;
    r := Apply.Apply(h, prev);
    if r.Ok? {
      UnitsRestored(old(Snapshot(h)), Snapshot(h), PlanOf(prev));
    }
  }

  /** Restore the previous unit, or remove the one this deploy wrote. */
  method UnwindApply(h: Host, slug: string, previous: Option<WorkloadSpec>) returns (r: Io<()>)
    requires h.Valid() && (previous.Some? ==> Slug(previous.value.name) == slug)
    modifies h`files, h`dirs, h`loaded, h`running, h`timers
    ensures h.Valid()
    ensures Guarded(old(h.files), h.files, Units(slug))
    ensures OthersLeft(slug, old(Snapshot(h)), Snapshot(h))
    ensures h.proxied == old(h.proxied)
    ensures r.Ok? ==> FilesAgree(h.files, slug, PlanFor(previous))
    ensures r.Ok? && UnitsRecoverable(old(Snapshot(h)), slug, PlanFor(previous)) ==>
              UnitsLive(Snapshot(h), slug, PlanFor(previous))
    ensures h.calm && Reversible(old(h.files), h, slug, previous) ==> r.Ok?
    ensures h.calm ==> !r.Crash?
    // A removal can be cut anywhere and tried again; a re-application cannot.
    ensures previous.None? && UnitsRecoverable(old(Snapshot(h)), slug, None) ==>
              UnitsRecoverable(Snapshot(h), slug, None)
  {
    hide Guarded;
    hide TimersBacked;
    hide NoForeign;
    match previous {
      case Some(prev) =>
        r := Reapply(h, slug, prev);
      case None =>
        r := Remove(h, slug);
    }
  }

  /** Re-applying a plan over a recoverable state leaves its workload running. */
  lemma UnitsRestored(s: HostState, u: HostState, p: Plan)
    requires FilesAgree(u.files, p.slug, Some(p)) && Stems(p) <= u.timers
    requires Lookup(u.running, UnitName(p.slug)) ==
              Some(RunningAfter(p.unit, Lookup(s.running, UnitName(p.slug)), Lookup(s.files, UnitFile(p.slug))))
    requires TimersBacked(s.files, s.timers, p.slug) ==> TimersBacked(u.files, u.timers, p.slug)
    ensures UnitsRecoverable(s, p.slug, Some(p)) ==> UnitsLive(u, p.slug, Some(p))
  {
  }

  /** Restore the previous route, or remove the one this deploy wrote. */
  method UnwindRoute(h: Host, slug: string, previous: Option<WorkloadSpec>) returns (r: Io<()>)
    requires h.Valid()
    modifies h`files, h`dirs, h`proxied
    ensures h.Valid()
    ensures Guarded(old(h.files), h.files, RouteOf(slug))
    ensures OthersLeft(slug, old(Snapshot(h)), Snapshot(h))
    ensures r.Ok? ==> RouteAgrees(h.files, slug, RouteFor(previous))
    ensures r.Ok? && RouteRecoverable(old(Snapshot(h)), slug, RouteFor(previous)) ==>
              RouteLive(Snapshot(h), slug, RouteFor(previous))
    ensures h.calm && OwnFragment(old(h.files), slug) ==> r.Ok?
    ensures h.calm ==> !r.Crash?
  {
    match RouteFor(previous) {
      case Some(route) => r := ApplyRoute(h, slug, route);
      case None => r := RemoveRoute(h, slug);
    }
  }

  lemma RouteOnlyKeepsUnits(s: HostState, u: HostState, slug: string, plan: Option<Plan>)
    requires Guarded(s.files, u.files, RouteOf(slug)) && u.running == s.running && u.timers == s.timers
    ensures UnitsRecoverable(s, slug, plan) ==> UnitsRecoverable(u, slug, plan)
  {
    GuardedLeaves(s.files, u.files, RouteOf(slug), UnitFile(slug));
    forall t | t in s.timers && TaskTimer(t) in s.files ensures TaskTimer(t) in u.files {
      GuardedLeaves(s.files, u.files, RouteOf(slug), TaskTimer(t));
    }
  }

  lemma UnitsOnlyKeepsRoute(s: HostState, u: HostState, slug: string, route: Option<Specs.Route>)
    requires Guarded(s.files, u.files, Units(slug)) && u.proxied == s.proxied
    ensures RouteAgrees(s.files, slug, route) ==> RouteAgrees(u.files, slug, route)
    ensures RouteLive(s, slug, route) ==> RouteLive(u, slug, route)
  {
    GuardedLeaves(s.files, u.files, Units(slug), Fragment(slug));
  }

  lemma WidenBoth(a: map<File, string>, b: map<File, string>, c: map<File, string>, slug: string)
    requires Guarded(a, b, RouteOf(slug)) && Guarded(b, c, Units(slug))
    ensures Guarded(a, c, Apps({slug}))
  {
    GuardedWiden(a, b, RouteOf(slug), Apps({slug}));
    GuardedWiden(b, c, Units(slug), Apps({slug}));
    GuardedChain(a, b, c, Apps({slug}));
  }

  /** The route is undone before anything else of the app is touched. */
  ghost predicate RouteFirst(s: HostState, u: HostState, slug: string, previous: Option<WorkloadSpec>) {
    || RouteAgrees(u.files, slug, RouteFor(previous))
    || (u.running == s.running && u.timers == s.timers && Guarded(s.files, u.files, RouteOf(slug)))
  }

  /** First the route, then the units. */
  method UnwindBoth(h: Host, slug: string, previous: Option<WorkloadSpec>) returns (r: Io<()>)
    requires h.Valid() && (previous.Some? ==> Slug(previous.value.name) == slug)
    modifies h
    ensures h.Valid()
    ensures Guarded(old(h.files), h.files, Apps({slug}))
    ensures OthersLeft(slug, old(Snapshot(h)), Snapshot(h))
    ensures r.Ok? ==> FilesAgree(h.files, slug, PlanFor(previous)) && RouteAgrees(h.files, slug, RouteFor(previous))
    ensures r.Ok? && UnitsRecoverable(old(Snapshot(h)), slug, PlanFor(previous)) ==>
              UnitsLive(Snapshot(h), slug, PlanFor(previous))
    ensures r.Ok? && RouteRecoverable(old(Snapshot(h)), slug, RouteFor(previous)) ==>
              RouteLive(Snapshot(h), slug, RouteFor(previous))
    ensures h.calm && Reversible(old(h.files), h, slug, previous) ==> r.Ok?
    ensures h.calm ==> !r.Crash?
    ensures RouteFirst(old(Snapshot(h)), Snapshot(h), slug, previous)
  {
    var undone := UnwindRoute(h, slug, previous);
    if Reversible(old(h.files), h, slug, previous) {
      StaysReversible(old(h.files), h.files, RouteOf(slug), h, slug, previous);
    }
    GuardedWiden(old(h.files), h.files, RouteOf(slug), Apps({slug}));
    var _ :- undone;
    label routed:
    RouteOnlyKeepsUnits(old(Snapshot(h)), Snapshot(h), slug, PlanFor(previous));
    r := UnwindApply(h, slug, previous);
    WidenBoth(old(h.files), old@routed(h.files), h.files, slug);
    UnitsOnlyKeepsRoute(old@routed(Snapshot(h)), Snapshot(h), slug, RouteFor(previous));
    OthersLeftChain(slug, old(Snapshot(h)), old@routed(Snapshot(h)), Snapshot(h), Units(slug));
  }

  lemma OthersLeftChain(slug: string, s: HostState, m: HostState, u: HostState, reach: Reach)
    requires OthersLeft(slug, s, m) && OthersLeft(slug, m, u) && Guarded(m.files, u.files, reach)
    requires reach == Units(slug) || reach == RouteOf(slug) || reach == Apps({slug})
    ensures OthersLeft(slug, s, u)
  {
    forall x | x != slug ensures ProxyLeft(x, s.proxied, u.files, u.proxied) {
      GuardedLeaves(m.files, u.files, reach, Fragment(x));
      assert ProxyLeft(x, s.proxied, m.files, m.proxied) && ProxyLeft(x, m.proxied, u.files, u.proxied);
    }
  }

  /**
   * Everything that is not this app's is spared: foreign files, other apps' files, workloads, timers
   * and fragments.
   */
  ghost predicate Spared(s: HostState, u: HostState, slug: string) {
    Guarded(s.files, u.files, Apps({slug})) && OthersLeft(slug, s, u)
  }

  /** An app whose undo cannot fail is still one after its own run has changed it. */
  lemma StaysRetractable(s: HostState, u: HostState, h: Host, slug: string, previous: Option<WorkloadSpec>,
      stage: Stage)
    requires Spared(s, u, slug)
    ensures h.calm && Reversible(s.files, h, slug, previous) ==>
              Reversible(u.files, h, slug, previous) && Retractable(u.files, h, slug, previous, stage)
  {
    hide OthersLeft;
    hide Guarded;
    if Reversible(s.files, h, slug, previous) {
      StaysReversible(s.files, u.files, Apps({slug}), h, slug, previous);
    }
  }

  lemma SparedSame(s: HostState, slug: string)
    ensures Spared(s, s, slug)
  {
  }

  lemma SparedChain(s: HostState, m: HostState, u: HostState, slug: string)
    requires Spared(s, m, slug) && Spared(m, u, slug)
    ensures Spared(s, u, slug)
  {
    hide OthersLeft;
    hide Guarded;
    GuardedChain(s.files, m.files, u.files, Apps({slug}));
    OthersLeftChain(slug, s, m, u, Apps({slug}));
  }

  lemma NothingMoved(s: HostState, slug: string, stage: Stage)
    ensures Guarded(s.files, s.files, UndoReach(slug, stage)) && OthersLeft(slug, s, s)
  {
  }

  lemma SparedWithin(s: HostState, u: HostState, slug: string, reach: Reach)
    requires OthersLeft(slug, s, u) && Guarded(s.files, u.files, reach)
    requires reach == Units(slug) || reach == RouteOf(slug) || reach == Apps({slug})
    ensures Spared(s, u, slug)
  {
    hide OthersLeft;
    GuardedWiden(s.files, u.files, reach, Apps({slug}));
  }

  /**
   * Undo everything from `stage` backward. It works whenever nothing fails, no one else's file is in the
   * way and the previous spec can be applied. Success puts the files of the app where the previous spec
   * says, as far as the stage had got, and the live side too whenever it was recoverable.
   */
  method Compensate(h: Host, slug: string, previous: Option<WorkloadSpec>, stage: Stage) returns (r: Io<()>)
    requires h.Valid() && (previous.Some? ==> Slug(previous.value.name) == slug)
    modifies h
    ensures h.Valid()
    ensures Guarded(old(h.files), h.files, UndoReach(slug, stage))
    ensures OthersLeft(slug, old(Snapshot(h)), Snapshot(h))
    ensures stage.Rank() < Stage.Apply.Rank() ==> r.Ok? && Snapshot(h) == old(Snapshot(h))
    ensures r.Ok? && stage.Rank() >= Stage.Apply.Rank() ==> FilesAgree(h.files, slug, PlanFor(previous))
    ensures r.Ok? && stage.Rank() >= Stage.Route.Rank() ==> RouteAgrees(h.files, slug, RouteFor(previous))
    ensures stage.Rank() < Stage.Route.Rank() ==> h.proxied == old(h.proxied)
    ensures r.Ok? && stage.Rank() >= Stage.Apply.Rank()
              && UnitsRecoverable(old(Snapshot(h)), slug, PlanFor(previous)) ==>
              UnitsLive(Snapshot(h), slug, PlanFor(previous))
    ensures r.Ok? && stage.Rank() >= Stage.Route.Rank()
              && RouteRecoverable(old(Snapshot(h)), slug, RouteFor(previous)) ==>
              RouteLive(Snapshot(h), slug, RouteFor(previous))
    ensures r.Ok? && Recoverable(old(Snapshot(h)), slug, previous, stage) ==> AppLive(Snapshot(h), slug, previous)
    ensures Retractable(old(h.files), h, slug, previous, stage) ==> r.Ok?
    ensures h.calm ==> !r.Crash?
    ensures stage.Rank() >= Stage.Route.Rank() ==> RouteFirst(old(Snapshot(h)), Snapshot(h), slug, previous)
  {
    hide FilesAgree;
    hide TimersBacked;
    hide UnitsRecoverable;
    hide RouteRecoverable;
    hide UnitsLive;
    hide Guarded;
    hide OthersLeft;
    hide RouteFirst;
    NothingMoved(Snapshot(h), slug, stage);
    if stage.Rank() < Stage.Apply.Rank() {
      return Ok(());
    }
    if stage == Stage.Apply {
      r := UnwindApply(h, slug, previous);
      UnitsOnlyKeepsRoute(old(Snapshot(h)), Snapshot(h), slug, RouteFor(previous));
      return;
    }
    r := UnwindBoth(h, slug, previous);
  }
}
