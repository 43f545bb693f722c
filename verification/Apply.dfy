/** Writing, pruning and removing one app's unit and task files, and driving systemd. */
module Apply {
  import opened Wrappers
  import opened Slugs
  import opened Specs
  import opened Paths
  import opened Render
  import opened Host
  import opened Managed

  // ---- what a spec asks of the host --------------------------------------------------------

  datatype TaskFiles = TaskFiles(stem: string, container: string, timer: string)

  /** Everything one spec renders to. */
  datatype Plan = Plan(slug: string, unit: string, tasks: seq<TaskFiles>)

  function TaskPlan(spec: WorkloadSpec, task: ScheduledTask): TaskFiles {
    TaskFiles(TaskUnitName(Slug(spec.name), Slug(task.name)), RenderTask(spec, task), RenderTimer(spec, task))
  }

  function PlanOf(spec: WorkloadSpec): (p: Plan)
    ensures p.slug == Slug(spec.name) && |p.tasks| == |spec.tasks|
    ensures forall i | 0 <= i < |p.tasks| :: p.tasks[i] == TaskPlan(spec, spec.tasks[i])
  {
    Plan(Slug(spec.name), RenderUnit(spec),
        seq(|spec.tasks|, i requires 0 <= i < |spec.tasks| => TaskPlan(spec, spec.tasks[i])))
  }

  function Stems(p: Plan): set<string> {
    set i | 0 <= i < |p.tasks| :: p.tasks[i].stem
  }

  ghost predicate GoodPlan(p: Plan) {
    && Marked(p.unit) && p.slug != ""
    && (forall i | 0 <= i < |p.tasks| :: TaskStemPrefix(p.slug) < p.tasks[i].stem)
    && (forall i | 0 <= i < |p.tasks| :: Marked(p.tasks[i].container) && Marked(p.tasks[i].timer))
    && (forall i, j | 0 <= i < j < |p.tasks| :: p.tasks[i].stem != p.tasks[j].stem)
  }

  /** A valid spec's task files are distinct, named after app and task, and all carry the marker. */
  lemma PlanIsGood(spec: WorkloadSpec)
    requires ValidSpec(spec)
    ensures GoodPlan(PlanOf(spec))
  {
    var p := PlanOf(spec);
    assert Marked(p.unit) by {
      RenderedIsMarked(spec, ScheduledTask("", "", []));
    }
    forall i | 0 <= i < |p.tasks|
      ensures TaskStemPrefix(p.slug) < p.tasks[i].stem && Marked(p.tasks[i].container) && Marked(p.tasks[i].timer)
    {
      RenderedIsMarked(spec, spec.tasks[i]);
      TaskStemInNamespace(p.slug, Slug(spec.tasks[i].name));
    }
    forall i, j | 0 <= i < j < |p.tasks| ensures p.tasks[i].stem != p.tasks[j].stem {
      TaskStemsDiffer(p.slug, Slug(spec.tasks[i].name), Slug(spec.tasks[j].name));
    }
  }

  // ---- agreement ---------------------------------------------------------------------------

  /** A task container or timer of this app. */
  predicate IsTaskFile(slug: string, f: File) {
    InTaskNamespace(slug, f.stem) && (f == TaskContainer(f.stem) || f == TaskTimer(f.stem))
  }

  ghost predicate HasFile(files: map<File, string>, f: File, text: string) {
    f in files && files[f] == text
  }

  /** The app's unit and task files are exactly what the plan renders; with no plan, there are none. */
  ghost predicate FilesAgree(files: map<File, string>, slug: string, plan: Option<Plan>) {
    match plan
    case None =>
      && UnitFile(slug) !in files
      && (forall f | f in files :: !IsTaskFile(slug, f))
    case Some(p) =>
      && HasFile(files, UnitFile(slug), p.unit)
      && (forall i | 0 <= i < |p.tasks| :: HasFile(files, TaskContainer(p.tasks[i].stem), p.tasks[i].container))
      && (forall i | 0 <= i < |p.tasks| :: HasFile(files, TaskTimer(p.tasks[i].stem), p.tasks[i].timer))
      && (forall f | f in files && IsTaskFile(slug, f) :: f.stem in Stems(p))
  }

  /** Agreement leaves no freedom: two hosts that agree with one plan have the same files of the app. */
  lemma AgreementIsExact(a: map<File, string>, b: map<File, string>, slug: string, plan: Option<Plan>, f: File)
    requires FilesAgree(a, slug, plan) && FilesAgree(b, slug, plan)
    requires f == UnitFile(slug) || IsTaskFile(slug, f)
    ensures (f in a <==> f in b) && (f in a ==> a[f] == b[f])
  {
    if plan.Some? && IsTaskFile(slug, f) && f.stem in Stems(plan.value) {
      var i :| 0 <= i < |plan.value.tasks| && plan.value.tasks[i].stem == f.stem;
      assert HasFile(a, TaskContainer(plan.value.tasks[i].stem), plan.value.tasks[i].container);
      assert HasFile(b, TaskContainer(plan.value.tasks[i].stem), plan.value.tasks[i].container);
      assert HasFile(a, TaskTimer(plan.value.tasks[i].stem), plan.value.tasks[i].timer);
      assert HasFile(b, TaskTimer(plan.value.tasks[i].stem), plan.value.tasks[i].timer);
    }
  }

  function Lookup<K, V>(m: map<K, V>, k: K): Option<V> {
    if k in m then Some(m[k]) else None
  }

  /** Every enabled timer of the app has its file. */
  ghost predicate TimersBacked(files: map<File, string>, timers: set<string>, slug: string) {
    forall t | t in timers && InTaskNamespace(slug, t) :: TaskTimer(t) in files
  }

  // ---- prune -------------------------------------------------------------------------------

  /** A scan entry `prune_tasks` deletes. */
  predicate Stale(slug: string, keep: set<string>, f: File) {
    f.dir != Caddy && InTaskNamespace(slug, f.stem) && f.stem !in keep
  }

  /** Only stale files and stale timers have gone, and no timer has lost its file. */
  ghost predicate Pruned(slug: string, keep: set<string>, files0: map<File, string>, timers0: set<string>,
      files1: map<File, string>, timers1: set<string>) {
    && (forall f | f in files1 :: f in files0 && files1[f] == files0[f])
    && (forall f | f in files0 && f !in files1 :: Stale(slug, keep, f) && Marked(files0[f]))
    && timers1 <= timers0
    && (forall t | t in timers0 && t !in timers1 :: InTaskNamespace(slug, t) && t !in keep)
    && (forall t | t in timers1 && InTaskNamespace(slug, t) && TaskTimer(t) in files0 :: TaskTimer(t) in files1)
  }

  lemma PrunedChain(slug: string, keep: set<string>, f0: map<File, string>, t0: set<string>, f1: map<File, string>,
      t1: set<string>, f2: map<File, string>, t2: set<string>)
    requires Pruned(slug, keep, f0, t0, f1, t1) && Pruned(slug, keep, f1, t1, f2, t2)
    ensures Pruned(slug, keep, f0, t0, f2, t2)
  {
  }

  lemma PrunedIsGuarded(slug: string, keep: set<string>, f0: map<File, string>, t0: set<string>, f1: map<File, string>,
      t1: set<string>)
    requires Pruned(slug, keep, f0, t0, f1, t1)
    ensures Guarded(f0, f1, Units(slug))
    ensures UnitFile(slug) in f0 <==> UnitFile(slug) in f1
  {
    UnitStemIsNoTaskStem(slug);
  }

  /** One scan entry: skip it, refuse it, or disable its timer and delete it. */
  method PruneEntry(h: Host, slug: string, keep: set<string>, entry: File) returns (r: Io<bool>)
    requires h.Valid() && entry.dir != Caddy
    modifies h`files, h`timers
    ensures h.Valid()
    ensures Pruned(slug, keep, old(h.files), old(h.timers), h.files, h.timers)
    ensures forall f | f in old(h.files) && f != entry :: f in h.files
    ensures r.Ok? && Stale(slug, keep, entry) ==> entry !in h.files
    ensures r.Ok? ==> (r.value <==> h.files != old(h.files))
    ensures h.calm && (Stale(slug, keep, entry) && entry in old(h.files) ==> Marked(old(h.files)[entry])) ==> r.Ok?
    ensures h.calm ==> !r.Crash?
  {
    if !(TaskStemPrefix(slug) <= entry.stem) || entry.stem in keep {
      return Ok(false);
    }
    var owned :- EnsureOwned(h, entry);
    if !owned {
      return Ok(false);
    }
    if entry.ext == Some("timer") {
      var _ :- h.DisableNow(entry.stem);
    }
    var _ :- h.RemoveFile(entry);
    assert entry in old(h.files) && entry !in h.files;
    return Ok(true);
  }

  method PruneDir(h: Host, slug: string, keep: set<string>, dir: Dir) returns (r: Io<bool>)
    requires h.Valid() && dir != Caddy
    modifies h`files, h`timers
    ensures h.Valid()
    ensures Pruned(slug, keep, old(h.files), old(h.timers), h.files, h.timers)
    ensures forall f | f in old(h.files) && f.dir != dir :: f in h.files
    ensures r.Ok? ==> forall f | f in h.files && f.dir == dir :: !Stale(slug, keep, f)
    ensures r.Ok? ==> (r.value <==> h.files != old(h.files))
    ensures h.calm && NoForeign(old(h.files), slug) ==> r.Ok?
    ensures h.calm ==> !r.Crash?
  {
    var there :- h.DirExists(dir);
    if !there {
      return Ok(false);
    }
    var entries :- h.ReadDir(dir);
    var removed := false;
    for i := 0 to |entries|
      invariant h.Valid()
      invariant Pruned(slug, keep, old(h.files), old(h.timers), h.files, h.timers)
      invariant forall f | f in old(h.files) && f.dir != dir :: f in h.files
      invariant forall k | 0 <= k < i && Stale(slug, keep, entries[k]) :: entries[k] !in h.files
      invariant removed <==> h.files != old(h.files)
    {
      label before:
      var gone :- PruneEntry(h, slug, keep, entries[i]);
      PrunedChain(slug, keep, old(h.files), old(h.timers), old@before(h.files), old@before(h.timers), h.files,
          h.timers);
      removed := removed || gone;
    }
    return Ok(removed);
  }

  /** No file in this app's reach was written by someone else. */
  ghost predicate NoForeign(files: map<File, string>, slug: string) {
    forall f | f in files && UnitTouches(slug, f) :: Marked(files[f])
  }

  /** Whatever kuadrat writes carries the marker, so an app without foreign files stays without. */
  lemma StaysOwn(a: map<File, string>, b: map<File, string>, reach: Reach, slug: string)
    requires Guarded(a, b, reach)
    ensures NoForeign(a, slug) ==> NoForeign(b, slug)
  {
  }

  /** Delete this app's task files whose stem is not kept, from both directories. */
  method PruneTasks(h: Host, slug: string, keep: set<string>) returns (r: Io<bool>)
    requires h.Valid()
    modifies h`files, h`timers
    ensures h.Valid()
    ensures Pruned(slug, keep, old(h.files), old(h.timers), h.files, h.timers)
    ensures r.Ok? ==> forall f | f in h.files :: !Stale(slug, keep, f)
    ensures r.Ok? ==> (r.value <==> h.files != old(h.files))
    ensures h.calm && NoForeign(old(h.files), slug) ==> r.Ok?
    ensures h.calm ==> !r.Crash?
  {
    var first :- PruneDir(h, slug, keep, Quadlet);
    label middle:
    var second :- PruneDir(h, slug, keep, Systemd);
    PrunedChain(slug, keep, old(h.files), old(h.timers), old@middle(h.files), old@middle(h.timers), h.files, h.timers);
    assert first ==> exists f :: f in old(h.files) && f !in old@middle(h.files);
    return Ok(first || second);
  }

  // ---- remove ------------------------------------------------------------------------------

  /** Commands about this app leave every other unit and every other app's timers alone. */
  ghost predicate OthersUntouched(slug: string, running0: map<string, string>, timers0: set<string>,
      running1: map<string, string>, timers1: set<string>) {
    && (forall u | u != UnitName(slug) :: Lookup(running1, u) == Lookup(running0, u))
    && (forall t | !InTaskNamespace(slug, t) :: t in timers1 <==> t in timers0)
  }

  /**
   * Stop the workload and delete its unit and its tasks. A stop only happens when the unit file is
   * there, so that is exactly when success means the workload is down.
   */
  method Remove(h: Host, slug: string) returns (r: Io<()>)
    requires h.Valid()
    modifies h`files, h`loaded, h`running, h`timers
    ensures h.Valid()
    ensures Guarded(old(h.files), h.files, Units(slug))
    ensures OthersUntouched(slug, old(h.running), old(h.timers), h.running, h.timers)
    // Whatever happens: nothing is written, and the unit file only goes once the workload is down.
    ensures UnitFile(slug) in h.files ==> HasFile(old(h.files), UnitFile(slug), h.files[UnitFile(slug)])
    ensures h.running == old(h.running) || h.running == old(h.running) - {UnitName(slug)}
    ensures UnitFile(slug) in old(h.files) && UnitFile(slug) !in h.files ==> UnitName(slug) !in h.running
    ensures UnitFile(slug) !in old(h.files) ==> h.running == old(h.running)
    ensures TimersBacked(old(h.files), old(h.timers), slug) ==> TimersBacked(h.files, h.timers, slug)
    ensures h.timers <= old(h.timers)
    // Success.
    ensures r.Ok? ==> FilesAgree(h.files, slug, None)
    ensures r.Ok? ==> Lookup(h.running, UnitName(slug)) == if UnitFile(slug) in old(h.files) then None
              else Lookup(old(h.running), UnitName(slug))
    ensures r.Ok? && h.files != old(h.files) ==> h.LoadedIsCurrent()
    ensures h.calm && NoForeign(old(h.files), slug) ==> r.Ok?
    ensures h.calm ==> !r.Crash?
  {
    var pruned :- PruneTasks(h, slug, {});
    PrunedIsGuarded(slug, {}, old(h.files), old(h.timers), h.files, h.timers);
    label scanned:
    var owned :- EnsureOwned(h, UnitFile(slug));
    if !owned {
      if pruned {
        var _ :- h.DaemonReload();
      }
      return Ok(());
    }
    var _ :- h.Stop(UnitName(slug));
    UnitStemIsNoTaskStem(slug);
    GuardedRemove(old@scanned(h.files), UnitFile(slug), Units(slug));
    GuardedChain(old(h.files), old@scanned(h.files), old@scanned(h.files) - {UnitFile(slug)}, Units(slug));
    var _ :- h.RemoveFile(UnitFile(slug));
    var _ :- h.DaemonReload();
    return Ok(());
  }

  // ---- apply -------------------------------------------------------------------------------

  /** Every schedule is checked before anything is written. */
  method Preflight(h: Host, tasks: seq<ScheduledTask>) returns (r: Io<()>)
    ensures r.Ok? ==> forall i | 0 <= i < |tasks| :: tasks[i].schedule !in h.badSchedules
    ensures h.calm && (forall i | 0 <= i < |tasks| :: tasks[i].schedule !in h.badSchedules) ==> r.Ok?
    ensures h.calm ==> !r.Crash?
  {
    for i := 0 to |tasks|
      invariant forall k | 0 <= k < i :: tasks[k].schedule !in h.badSchedules
    {
      var good :- h.AnalyzeCalendar(tasks[i].schedule);
      if !good {
        return Err;
      }
    }
    return Ok(());
  }

  /** Render every task before writing anything. */
  method RenderTasks(spec: WorkloadSpec) returns (tasks: seq<TaskFiles>)
    requires ValidSpec(spec)
    ensures tasks == PlanOf(spec).tasks
  {
    hide ValidSpec;
    hide RenderTask;
    hide RenderTimer;
    hide Slug;
    hide TaskUnitName;
    tasks := [];
    for i := 0 to |spec.tasks|
      invariant |tasks| == i && forall k | 0 <= k < i :: tasks[k] == TaskPlan(spec, spec.tasks[k])
    {
      // The spec was validated with the unit, so neither renderer can refuse it here.
      var container := RenderTaskContainer(spec, spec.tasks[i]);
      var timer := RenderTaskTimer(spec, spec.tasks[i]);
      tasks := tasks + [TaskFiles(TaskUnitName(Slug(spec.name), Slug(spec.tasks[i].name)), container.value,
          timer.value)];
    }
  }

  /** The files a plan is about to write carry the marker wherever they exist. */
  ghost predicate TasksOwned(files: map<File, string>, p: Plan) {
    && (forall i | 0 <= i < |p.tasks| && TaskContainer(p.tasks[i].stem) in files ::
        Marked(files[TaskContainer(p.tasks[i].stem)]))
    && (forall i | 0 <= i < |p.tasks| && TaskTimer(p.tasks[i].stem) in files ::
        Marked(files[TaskTimer(p.tasks[i].stem)]))
  }

  ghost predicate TargetsOwned(files: map<File, string>, p: Plan) {
    (UnitFile(p.slug) in files ==> Marked(files[UnitFile(p.slug)])) && TasksOwned(files, p)
  }

  /** Nothing on the host has moved. */
  twostate predicate Untouched(h: Host)
    reads h
  {
    h.files == old(h.files) && h.dirs == old(h.dirs) && h.loaded == old(h.loaded) && h.running == old(h.running)
        && h.timers == old(h.timers)
  }

  method EnsureTasksOwned(h: Host, p: Plan) returns (r: Io<()>)
    requires GoodPlan(p)
    ensures r.Ok? ==> TasksOwned(h.files, p)
    ensures h.calm && NoForeign(h.files, p.slug) ==> r.Ok?
    ensures h.calm ==> !r.Crash?
  {
    for i := 0 to |p.tasks|
      invariant forall k | 0 <= k < i && TaskContainer(p.tasks[k].stem) in h.files ::
                Marked(h.files[TaskContainer(p.tasks[k].stem)])
      invariant forall k | 0 <= k < i && TaskTimer(p.tasks[k].stem) in h.files ::
                Marked(h.files[TaskTimer(p.tasks[k].stem)])
    {
      var _ :- EnsureOwned(h, TaskContainer(p.tasks[i].stem));
      var _ :- EnsureOwned(h, TaskTimer(p.tasks[i].stem));
    }
    return Ok(());
  }

  /** Only task files of the plan were added or changed, and none went. */
  ghost predicate OnlyTasksWritten(before: map<File, string>, after: map<File, string>, p: Plan) {
    && (forall f | f in before :: f in after)
    && (forall f | f in after && !(f in before && before[f] == after[f]) ::
        IsTaskFile(p.slug, f) && f.stem in Stems(p) && Marked(after[f]))
  }

  lemma OnlyTasksChain(a: map<File, string>, b: map<File, string>, c: map<File, string>, p: Plan)
    requires OnlyTasksWritten(a, b, p) && OnlyTasksWritten(b, c, p)
    ensures OnlyTasksWritten(a, c, p)
  {
  }

  lemma OnlyTasksIsGuarded(a: map<File, string>, b: map<File, string>, p: Plan)
    requires OnlyTasksWritten(a, b, p) && GoodPlan(p) && TasksOwned(a, p)
    ensures Guarded(a, b, Units(p.slug))
    ensures TasksOwned(b, p)
    ensures Lookup(b, UnitFile(p.slug)) == Lookup(a, UnitFile(p.slug))
  {
    UnitStemIsNoTaskStem(p.slug);
    forall f | f in a && b[f] != a[f] ensures Covers(Units(p.slug), f) && Marked(a[f]) {
      var i :| 0 <= i < |p.tasks| && p.tasks[i].stem == f.stem;
      assert f == TaskContainer(p.tasks[i].stem) || f == TaskTimer(p.tasks[i].stem);
    }
  }

  /** The container and the timer of one task. */
  method WriteTask(h: Host, p: Plan, i: nat) returns (r: Io<()>)
    requires h.Valid() && GoodPlan(p) && i < |p.tasks|
    modifies h`files
    ensures h.Valid()
    ensures OnlyTasksWritten(old(h.files), h.files, p)
    ensures forall f | f in old(h.files) && f.stem != p.tasks[i].stem :: h.files[f] == old(h.files)[f]
    ensures r.Ok? ==> HasFile(h.files, TaskContainer(p.tasks[i].stem), p.tasks[i].container)
    ensures r.Ok? ==> HasFile(h.files, TaskTimer(p.tasks[i].stem), p.tasks[i].timer)
    ensures h.calm && Quadlet in h.dirs && Systemd in h.dirs ==> r.Ok?
    ensures h.calm ==> !r.Crash?
  {
    var tf := p.tasks[i];
    assert tf.stem in Stems(p);
    var _ :- h.WriteFile(TaskContainer(tf.stem), tf.container);
    var _ :- h.WriteFile(TaskTimer(tf.stem), tf.timer);
    return Ok(());
  }

  method WriteTasks(h: Host, p: Plan) returns (r: Io<()>)
    requires h.Valid() && GoodPlan(p)
    modifies h`files
    ensures h.Valid()
    ensures OnlyTasksWritten(old(h.files), h.files, p)
    ensures r.Ok? ==> forall i | 0 <= i < |p.tasks| ::
              HasFile(h.files, TaskContainer(p.tasks[i].stem), p.tasks[i].container)
    ensures r.Ok? ==> forall i | 0 <= i < |p.tasks| :: HasFile(h.files, TaskTimer(p.tasks[i].stem), p.tasks[i].timer)
    ensures h.calm && (p.tasks != [] ==> Quadlet in h.dirs && Systemd in h.dirs) ==> r.Ok?
    ensures h.calm ==> !r.Crash?
  {
    for i := 0 to |p.tasks|
      invariant h.Valid()
      invariant OnlyTasksWritten(old(h.files), h.files, p)
      invariant forall k | 0 <= k < i :: HasFile(h.files, TaskContainer(p.tasks[k].stem), p.tasks[k].container)
      invariant forall k | 0 <= k < i :: HasFile(h.files, TaskTimer(p.tasks[k].stem), p.tasks[k].timer)
    {
      label before:
      var step := WriteTask(h, p, i);
      OnlyTasksChain(old(h.files), old@before(h.files), h.files, p);
      var _ :- step;
    }
    return Ok(());
  }

  method EnableTimers(h: Host, p: Plan) returns (r: Io<()>)
    modifies h`timers
    ensures old(h.timers) <= h.timers <= old(h.timers) + Stems(p)
    ensures r.Ok? ==> h.timers == old(h.timers) + Stems(p)
    ensures h.calm && (forall i | 0 <= i < |p.tasks| :: TaskTimer(p.tasks[i].stem) in h.files) ==> r.Ok?
    ensures h.calm ==> !r.Crash?
  {
    for i := 0 to |p.tasks|
      invariant old(h.timers) <= h.timers <= old(h.timers) + Stems(p)
      invariant forall k | 0 <= k < i :: p.tasks[k].stem in h.timers
    {
      assert p.tasks[i].stem in Stems(p);
      var _ :- h.EnableNow(p.tasks[i].stem);
    }
    return Ok(());
  }

  /** Creating the directories and writing the unit file. */
  method WriteUnit(h: Host, p: Plan) returns (r: Io<()>)
    requires h.Valid() && GoodPlan(p)
    requires UnitFile(p.slug) in h.files ==> Marked(h.files[UnitFile(p.slug)])
    modifies h`files, h`dirs
    ensures h.Valid()
    ensures h.files == old(h.files) || h.files == old(h.files)[UnitFile(p.slug) := p.unit]
    ensures Guarded(old(h.files), h.files, Units(p.slug))
    ensures r.Ok? ==> h.files == old(h.files)[UnitFile(p.slug) := p.unit]
    ensures r.Ok? && p.tasks != [] ==> Quadlet in h.dirs && Systemd in h.dirs
    ensures h.calm ==> r.Ok?
  {
    var _ :- h.CreateDirAll(Quadlet);
    if p.tasks != [] {
      var _ :- h.CreateDirAll(Systemd);
    }
    GuardedWrite(h.files, UnitFile(p.slug), p.unit, Units(p.slug));
    var _ :- h.WriteFile(UnitFile(p.slug), p.unit);
    return Ok(());
  }

  /** Write the unit and task files and prune the rest: the file half of `apply`. */
  method WriteAll(h: Host, p: Plan) returns (r: Io<()>)
    requires h.Valid() && GoodPlan(p) && TasksOwned(h.files, p)
    requires UnitFile(p.slug) in h.files ==> Marked(h.files[UnitFile(p.slug)])
    modifies h`files, h`dirs, h`timers
    ensures h.Valid()
    ensures Guarded(old(h.files), h.files, Units(p.slug))
    ensures h.timers <= old(h.timers)
    ensures forall t | t in old(h.timers) && t !in h.timers :: InTaskNamespace(p.slug, t) && t !in Stems(p)
    ensures TimersBacked(old(h.files), old(h.timers), p.slug) ==> TimersBacked(h.files, h.timers, p.slug)
    ensures Lookup(h.files, UnitFile(p.slug)) == Lookup(old(h.files), UnitFile(p.slug))
              || HasFile(h.files, UnitFile(p.slug), p.unit)
    ensures r.Ok? ==> FilesAgree(h.files, p.slug, Some(p))
    ensures h.calm && NoForeign(old(h.files), p.slug) ==> r.Ok?
    ensures h.calm ==> !r.Crash?
  {
    hide NoForeign;
    hide GoodPlan;
    UnitStemIsNoTaskStem(p.slug);
    var _ :- WriteUnit(h, p);
    label unitWritten:
    assert TasksOwned(h.files, p);
    var tasks := WriteTasks(h, p);
    OnlyTasksIsGuarded(old@unitWritten(h.files), h.files, p);
    GuardedChain(old(h.files), old@unitWritten(h.files), h.files, Units(p.slug));
    var _ :- tasks;
    StaysOwn(old(h.files), h.files, Units(p.slug), p.slug);
    label written:
    var pruned := PruneTasks(h, p.slug, Stems(p));
    PrunedIsGuarded(p.slug, Stems(p), old@written(h.files), old@written(h.timers), h.files, h.timers);
    GuardedChain(old(h.files), old@written(h.files), h.files, Units(p.slug));
    var _ :- pruned;
    PrunedAgrees(p, old@written(h.files), old@written(h.timers), h.files, h.timers);
    return Ok(());
  }

  /** With the plan's files written, pruning the rest leaves exactly the plan. */
  lemma PrunedAgrees(p: Plan, f0: map<File, string>, t0: set<string>, f1: map<File, string>, t1: set<string>)
    requires HasFile(f0, UnitFile(p.slug), p.unit)
    requires forall i | 0 <= i < |p.tasks| :: HasFile(f0, TaskContainer(p.tasks[i].stem), p.tasks[i].container)
    requires forall i | 0 <= i < |p.tasks| :: HasFile(f0, TaskTimer(p.tasks[i].stem), p.tasks[i].timer)
    requires Pruned(p.slug, Stems(p), f0, t0, f1, t1)
    requires forall f | f in f1 :: !Stale(p.slug, Stems(p), f)
    ensures FilesAgree(f1, p.slug, Some(p))
  {
    UnitStemIsNoTaskStem(p.slug);
    forall i | 0 <= i < |p.tasks|
      ensures HasFile(f1, TaskContainer(p.tasks[i].stem), p.tasks[i].container)
      ensures HasFile(f1, TaskTimer(p.tasks[i].stem), p.tasks[i].timer)
    {
      assert p.tasks[i].stem in Stems(p);
    }
  }

  /** What the unit is running after `apply` chose between start and restart by comparing texts. */
  function RunningAfter(unit: string, before: Option<string>, onDisk: Option<string>): string {
    if before.Some? && (onDisk.None? || onDisk.value == unit) then before.value else unit
  }

  lemma TimersEnabled(p: Plan, files: map<File, string>, before: set<string>, after: set<string>)
    requires GoodPlan(p) && FilesAgree(files, p.slug, Some(p))
    requires before <= after <= before + Stems(p)
    ensures TimersBacked(files, before, p.slug) ==> TimersBacked(files, after, p.slug)
    ensures forall t | !InTaskNamespace(p.slug, t) :: t in before <==> t in after
  {
    forall t | t in Stems(p) ensures InTaskNamespace(p.slug, t) && TaskTimer(t) in files {
      var i :| 0 <= i < |p.tasks| && p.tasks[i].stem == t;
      assert HasFile(files, TaskTimer(p.tasks[i].stem), p.tasks[i].timer);
    }
  }

  /** Reload systemd, start or restart the unit, enable the timers: the live half of `apply`. */
  method Activate(h: Host, p: Plan, changed: bool) returns (r: Io<()>)
    requires h.Valid() && GoodPlan(p) && FilesAgree(h.files, p.slug, Some(p))
    modifies h`loaded, h`running, h`timers
    ensures OthersUntouched(p.slug, old(h.running), old(h.timers), h.running, h.timers)
    ensures || h.running == old(h.running)
            || h.running == old(h.running) - {UnitName(p.slug)}
            || h.running == old(h.running)[UnitName(p.slug) := p.unit]
    ensures TimersBacked(h.files, old(h.timers), p.slug) ==> TimersBacked(h.files, h.timers, p.slug)
    ensures r.Ok? ==> Stems(p) <= h.timers
    ensures r.Ok? ==> Lookup(h.running, UnitName(p.slug))
                      == if changed || UnitName(p.slug) !in old(h.running) then Some(p.unit)
                          else Lookup(old(h.running), UnitName(p.slug))
    ensures r.Ok? ==> h.LoadedIsCurrent()
    ensures h.calm ==> r.Ok?
  {
    var _ :- h.DaemonReload();
    assert TaskContainer(UnitName(p.slug)) == UnitFile(p.slug);
    if changed {
      var _ :- h.Restart(UnitName(p.slug));
    } else {
      var _ :- h.Start(UnitName(p.slug));
    }
    label started:
    var enabled := EnableTimers(h, p);
    TimersEnabled(p, h.files, old@started(h.timers), h.timers);
    var _ :- enabled;
    return Ok(());
  }

  /**
   * What any call of `apply` leaves behind, however it ends: the unit file is the old one or the new
   * one; the workload runs what it ran, nothing, or the new unit, and the last two only once the new
   * unit is on disk.
   */
  ghost predicate UnitLeft(p: Plan, files0: map<File, string>, running0: map<string, string>,
      files1: map<File, string>, running1: map<string, string>) {
    && (|| Lookup(files1, UnitFile(p.slug)) == Lookup(files0, UnitFile(p.slug))
        || HasFile(files1, UnitFile(p.slug), p.unit))
    && (|| running1 == running0
        || (&& HasFile(files1, UnitFile(p.slug), p.unit)
            && (|| running1 == running0 - {UnitName(p.slug)}
                || running1 == running0[UnitName(p.slug) := p.unit])))
  }

  /** After a success, files, workload and timers are the plan's. */
  ghost predicate PlanInstalled(p: Plan, files0: map<File, string>, running0: map<string, string>, h: Host)
    reads h
  {
    && FilesAgree(h.files, p.slug, Some(p))
    && Stems(p) <= h.timers
    && Lookup(h.running, UnitName(p.slug)) ==
        Some(RunningAfter(p.unit, Lookup(running0, UnitName(p.slug)), Lookup(files0, UnitFile(p.slug))))
  }

  /** `apply` once everything is rendered and the schedules are known to parse. */
  method ApplyPlan(h: Host, p: Plan) returns (r: Io<()>)
    requires h.Valid() && GoodPlan(p)
    modifies h`files, h`dirs, h`loaded, h`running, h`timers
    ensures h.Valid()
    ensures Guarded(old(h.files), h.files, Units(p.slug))
    ensures OthersUntouched(p.slug, old(h.running), old(h.timers), h.running, h.timers)
    ensures UnitLeft(p, old(h.files), old(h.running), h.files, h.running)
    ensures TimersBacked(old(h.files), old(h.timers), p.slug) ==> TimersBacked(h.files, h.timers, p.slug)
    ensures r.Ok? ==> PlanInstalled(p, old(h.files), old(h.running), h)
    ensures r.Ok? ==> h.LoadedIsCurrent()
    // One foreign file in the way, and nothing at all is written.
    ensures !TargetsOwned(old(h.files), p) ==> !r.Ok? && Untouched(h)
    ensures h.calm && NoForeign(old(h.files), p.slug) ==> r.Ok?
    ensures h.calm ==> !r.Crash?
  {
    var _ :- EnsureOwned(h, UnitFile(p.slug));
    var _ :- EnsureTasksOwned(h, p);
    var previous: Option<string> := None;
    var present :- h.Exists(UnitFile(p.slug));
    if present {
      var text :- h.ReadFile(UnitFile(p.slug));
      previous := Some(text);
    }
    var _ :- WriteAll(h, p);
    var changed := previous.Some? && previous.value != p.unit;
    var _ :- Activate(h, p, changed);
    return Ok(());
  }

  /**
   * Bring the host to what `spec` says. Success settles every file of the app; what is running
   * afterwards is the new unit, unless a container was up whose unit file was missing or already
   * byte-identical to the new one, which is then left running from whatever it was started from.
   */
  method Apply(h: Host, spec: WorkloadSpec) returns (r: Io<()>)
    requires h.Valid()
    modifies h`files, h`dirs, h`loaded, h`running, h`timers
    ensures h.Valid()
    ensures Guarded(old(h.files), h.files, Units(Slug(spec.name)))
    ensures OthersUntouched(Slug(spec.name), old(h.running), old(h.timers), h.running, h.timers)
    ensures UnitLeft(PlanOf(spec), old(h.files), old(h.running), h.files, h.running)
    ensures TimersBacked(old(h.files), old(h.timers), Slug(spec.name)) ==>
              TimersBacked(h.files, h.timers, Slug(spec.name))
    ensures r.Ok? ==> ValidSpec(spec) && PlanInstalled(PlanOf(spec), old(h.files), old(h.running), h)
    ensures r.Ok? ==> h.LoadedIsCurrent()
    // Refused before anything is written: an invalid spec, a schedule that does not parse, a foreign file.
    ensures !(Applicable(h, spec) && TargetsOwned(old(h.files), PlanOf(spec))) ==> !r.Ok? && Untouched(h)
    ensures h.calm && NoForeign(old(h.files), Slug(spec.name)) ==> if Applicable(h, spec) then r.Ok? else r.Err?
    ensures h.calm ==> !r.Crash?
  {
    hide FilesAgree;
    hide TimersBacked;
    hide NoForeign;
    hide TargetsOwned;
    hide ValidSpec;
    hide GoodPlan;
    var rendered := RenderWorkload(spec);
    if rendered.Failure? {
      return Err;
    }
    PlanIsGood(spec);
    var _ :- Preflight(h, spec.tasks);
    var tasks := RenderTasks(spec);
    var p := Plan(Slug(spec.name), rendered.value, tasks);
    assert p == PlanOf(spec);
    r := ApplyPlan(h, p);
  }

  /** A valid spec, with schedules this host's systemd parses. */
  predicate Applicable(h: Host, spec: WorkloadSpec) {
    ValidSpec(spec) && forall i | 0 <= i < |spec.tasks| :: spec.tasks[i].schedule !in h.badSchedules
  }

  /**
   * What runs after `apply` is the new unit, exactly unless a container was up that the choice between
   * start and restart left alone: its unit file was gone, or already said what the new one says.
   */
  lemma RunsTheNewUnit(unit: string, before: Option<string>, onDisk: Option<string>)
    ensures RunningAfter(unit, before, onDisk) == unit <==>
              before.None? || before.value == unit || (onDisk.Some? && onDisk.value != unit)
    ensures before.None? || before == onDisk ==> RunningAfter(unit, before, onDisk) == unit
  {
  }

  /** With every timer backed by its file, file agreement makes the enabled timers exactly the plan's. */
  lemma TimersAreThePlans(files: map<File, string>, timers: set<string>, slug: string, plan: Option<Plan>, t: string)
    requires FilesAgree(files, slug, plan) && TimersBacked(files, timers, slug)
    requires plan.Some? ==> Stems(plan.value) <= timers
    requires InTaskNamespace(slug, t)
    ensures t in timers <==> plan.Some? && t in Stems(plan.value)
  {
    if t in timers {
      assert IsTaskFile(slug, TaskTimer(t));
    }
  }

  // ---- when isolation fails ----------------------------------------------------------------

  /**
   * The run behind the side condition: deploying an app without tasks whose slug shadows another's
   * deletes a file the other app owns.
   */
  method ApplyOverShadowed(h: Host, spec: WorkloadSpec, other: string) returns (r: Io<()>, ghost lost: File)
    requires h.Valid() && spec.tasks == [] && Slug(spec.name) != other && Shadows(Slug(spec.name), other)
    modifies h`files, h`dirs, h`loaded, h`running, h`timers
    ensures CanOwn(other, lost)
    ensures r.Ok? ==> lost !in h.files
    ensures h.calm && ValidSpec(spec) && NoForeign(old(h.files), Slug(spec.name)) ==> r.Ok?
  {
    lost := ShadowedFile(Slug(spec.name), other);
    r := Apply(h, spec);
    assert IsTaskFile(Slug(spec.name), lost);
  }
}
