/** The two files of a scheduled task read back as what they were rendered from. */
module TaskText {
  import opened Wrappers
  import opened Slugs
  import opened Specs
  import opened Paths
  import opened UnitText
  import opened Quoting
  import opened Render

  // ---- every value stays on its line -------------------------------------------------------

  lemma SlugSingleLine(name: string)
    ensures SingleLine(Slug(name))
  {
    SlugIsWellFormed(name);
    var s := Slug(name);
    assert forall i | 0 <= i < |s| :: IsSlugLetter(s[i]) || s[i] == '-';
  }

  lemma JoinedSingleLine(a: string, b: string)
    requires SingleLine(a) && SingleLine(b)
    ensures SingleLine(a + b)
  {
  }

  lemma TitleSingleLine(kind: string, slug: string, name: string)
    requires SingleLine(kind) && SingleLine(slug) && SingleLine(name)
    ensures SingleLine(kind + slug + " for " + name)
  {
    JoinedSingleLine(kind, slug);
    JoinedSingleLine(kind + slug, " for ");
    JoinedSingleLine(kind + slug + " for ", name);
  }

  lemma TaskUnitNameSingleLine(slug: string, taskSlug: string)
    requires SingleLine(slug) && SingleLine(taskSlug)
    ensures SingleLine(TaskUnitName(slug, taskSlug))
  {
    JoinedSingleLine(UNIT_PREFIX, slug);
    JoinedSingleLine(UNIT_PREFIX + slug, TASK_INFIX);
    JoinedSingleLine(UNIT_PREFIX + slug + TASK_INFIX, taskSlug);
  }

  lemma OneLineGroup(key: string, value: string)
    requires IsKey(key) && SingleLine(value)
    ensures WritableGroup(Group(key, [value]))
  {
  }

  lemma KeyWords()
    ensures IsKey("Description") && IsKey("Type") && IsKey("OnCalendar") && IsKey("Persistent") && IsKey("WantedBy")
  {
  }

  lemma SectionNames()
    ensures SingleLine("Unit") && SingleLine("Container") && SingleLine("Service") && SingleLine("Timer")
              && SingleLine("Install")
  {
  }

  lemma FixedTexts()
    ensures SingleLine("kuadrat task ") && SingleLine("kuadrat timer ")
    ensures SingleLine("oneshot") && SingleLine("true") && SingleLine("timers.target")
  {
  }

  /** The fixed words of the two files. */
  lemma TaskKeys()
    ensures IsKey("Description") && IsKey("Type") && IsKey("OnCalendar") && IsKey("Persistent") && IsKey("WantedBy")
    ensures SingleLine("Unit") && SingleLine("Container") && SingleLine("Service") && SingleLine("Timer")
              && SingleLine("Install")
    ensures SingleLine("kuadrat task ") && SingleLine("kuadrat timer ")
    ensures SingleLine("oneshot") && SingleLine("true") && SingleLine("timers.target")
  {
    hide *;
    KeyWords();
    SectionNames();
    FixedTexts();
  }

  lemma PartOfOne(name: string, g: Group)
    requires SingleLine(name) && WritableGroup(g)
    ensures WritablePart(Part(name, [g]))
  {
  }

  lemma TaskGroupsWritable(spec: WorkloadSpec, task: ScheduledTask)
    requires ValidSpec(spec) && ValidTask(task)
    ensures WritablePart(Part("Container", TaskGroups(spec, task)))
  {
    ContainerKeys();
    TaskKeys();
    EnvSingleLine(spec.env);
    SlugSingleLine(spec.name);
    SlugSingleLine(task.name);
    TaskUnitNameSingleLine(Slug(spec.name), Slug(task.name));
    ExecSingleLine(task.command);
    hide SingleLine;
    hide IsKey;
    hide Slug;
    hide TaskUnitName;
    hide ExecValue;
    hide EnvValues;
    hide ValidTask;
    hide ValidTasks;
  }

  lemma TaskDocWritable(spec: WorkloadSpec, task: ScheduledTask)
    requires ValidSpec(spec) && ValidTask(task)
    ensures AllWritable(TaskDoc(spec, task))
  {
    hide WritablePart;
    hide WritableGroup;
    hide Writable;
    hide IsKey;
    hide SingleLine;
    hide TaskGroups;
    hide Layout;
    hide ValidTask;
    hide Slug;
    var title := "kuadrat task " + Slug(task.name) + " for " + spec.name;
    NamesAreLines(spec, task);
    TaskKeys();
    TaskGroupsWritable(spec, task);
    OneLineGroup("Description", title);
    PartOfOne("Unit", Group("Description", [title]));
    OneLineGroup("Type", "oneshot");
    PartOfOne("Service", Group("Type", ["oneshot"]));
    MarkerWritable();
    LayoutWritable(TaskParts(spec, task));
  }

  lemma NamesAreLines(spec: WorkloadSpec, task: ScheduledTask)
    requires ValidSpec(spec)
    ensures SingleLine("kuadrat task " + Slug(task.name) + " for " + spec.name)
    ensures SingleLine("kuadrat timer " + Slug(task.name) + " for " + spec.name)
  {
    TaskKeys();
    SlugSingleLine(task.name);
    TitleSingleLine("kuadrat task ", Slug(task.name), spec.name);
    TitleSingleLine("kuadrat timer ", Slug(task.name), spec.name);
  }

  lemma TimerDocWritable(spec: WorkloadSpec, task: ScheduledTask)
    requires ValidSpec(spec) && ValidTask(task)
    ensures AllWritable(TimerDoc(spec, task))
  {
    QuoteSingleLine(task.schedule);
    hide WritablePart;
    hide Writable;
    hide IsKey;
    hide SingleLine;
    hide Layout;
    hide Slug;
    hide EscapePercent;
    var title := "kuadrat timer " + Slug(task.name) + " for " + spec.name;
    NamesAreLines(spec, task);
    TaskKeys();
    TimerGroupsWritable(task);
    OneLineGroup("Description", title);
    PartOfOne("Unit", Group("Description", [title]));
    OneLineGroup("WantedBy", "timers.target");
    PartOfOne("Install", Group("WantedBy", ["timers.target"]));
    MarkerWritable();
    LayoutWritable(TimerParts(spec, task));
  }

  lemma TimerGroupsWritable(task: ScheduledTask)
    requires ValidTask(task)
    ensures WritablePart(Part("Timer", TimerGroups(task)))
  {
    QuoteSingleLine(task.schedule);
    TaskKeys();
    OneLineGroup("OnCalendar", EscapePercent(task.schedule));
    OneLineGroup("Persistent", "true");
    hide WritableGroup;
    hide IsKey;
    hide EscapePercent;
  }

  // ---- lookups -----------------------------------------------------------------------------

  lemma TaskPartsDistinct(spec: WorkloadSpec, task: ScheduledTask)
    ensures DistinctParts(TaskParts(spec, task)) && DistinctParts(TimerParts(spec, task))
  {
    assert DistinctKeys(TaskGroups(spec, task)) && DistinctKeys(TimerGroups(task));
    assert "Unit"[0] != "Container"[0] && "Service"[0] != "Timer"[0];
  }

  lemma TaskLookup(spec: WorkloadSpec, task: ScheduledTask, i: nat, j: nat)
    requires i < |TaskParts(spec, task)| && j < |TaskParts(spec, task)[i].groups|
    ensures var p := TaskParts(spec, task)[i];
            Values(TaskDoc(spec, task), "", p.name, p.groups[j].key) == p.groups[j].values
  {
    hide DistinctParts;
    hide Layout;
    TaskPartsDistinct(spec, task);
    Lookup(TaskParts(spec, task), i, j);
    assert TaskDoc(spec, task)[1..] == Layout(TaskParts(spec, task));
  }

  lemma TimerLookup(spec: WorkloadSpec, task: ScheduledTask, i: nat, j: nat)
    requires i < |TimerParts(spec, task)| && j < |TimerParts(spec, task)[i].groups|
    ensures var p := TimerParts(spec, task)[i];
            Values(TimerDoc(spec, task), "", p.name, p.groups[j].key) == p.groups[j].values
  {
    hide DistinctParts;
    hide Layout;
    TaskPartsDistinct(spec, task);
    Lookup(TimerParts(spec, task), i, j);
    assert TimerDoc(spec, task)[1..] == Layout(TimerParts(spec, task));
  }

  // ---- the round trips ---------------------------------------------------------------------

  /** What a task's container file says: image, name, environment, secrets and the exact argument vector. */
  ghost predicate SaysTask(doc: seq<Line>, spec: WorkloadSpec, task: ScheduledTask) {
    && Values(doc, "", "Container", "Image") == [spec.image]
    && Values(doc, "", "Container", "ContainerName") == [TaskUnitName(Slug(spec.name), Slug(task.name))]
    && ReadEnv(Values(doc, "", "Container", "Environment")) == Some(Assignments(spec.env))
    && Values(doc, "", "Container", "Secret") == spec.secrets
    && |Values(doc, "", "Container", "Exec")| == 1
        && Values(doc, "", "Container", "Exec")[0] != ""
        && ReadExec(Values(doc, "", "Container", "Exec")[0]) == Some(task.command)
    && Values(doc, "", "Service", "Type") == ["oneshot"]
    && Values(doc, "", "Unit", "Description") == ["kuadrat task " + Slug(task.name) + " for " + spec.name]
  }

  ghost predicate SaysTimer(doc: seq<Line>, task: ScheduledTask) {
    && |Values(doc, "", "Timer", "OnCalendar")| == 1
        && !IsBlank(Values(doc, "", "Timer", "OnCalendar")[0])
        && Collapse(Values(doc, "", "Timer", "OnCalendar")[0]) == Some(task.schedule)
    && Values(doc, "", "Timer", "Persistent") == ["true"]
    && Values(doc, "", "Install", "WantedBy") == ["timers.target"]
  }

  /** A command with a program in it is never written as an empty `Exec=`, which would mean the image's own. */
  lemma ExecIsNotEmpty(argv: seq<string>)
    requires argv != []
    ensures ExecValue(argv) != ""
  {
    assert QuoteAll(argv)[0] == QuoteWord(EscapePercent(argv[0])) != "";
  }

  lemma {:induction false} EscapeKeeps(s: string, c: char)
    requires c in s
    ensures c in EscapePercent(s)
  {
    if s[0] != c {
      assert c in s[1..];
      EscapeKeeps(s[1..], c);
    } else {
      assert c in if s[0] == '%' then "%%" else [s[0]];
    }
  }

  /** A schedule that is not blank is not written as a blank one. */
  lemma EscapedIsNotBlank(s: string)
    requires !IsBlank(s)
    ensures !IsBlank(EscapePercent(s))
  {
    var i :| 0 <= i < |s| && !IsWhitespace(s[i]);
    EscapeKeeps(s, s[i]);
    assert s[i] in EscapePercent(s);
  }

  lemma TaskDocSays(spec: WorkloadSpec, task: ScheduledTask)
    requires ValidTask(task)
    ensures SaysTask(TaskDoc(spec, task), spec, task)
  {
    hide Values;
    hide ReadEnv;
    hide ReadExec;
    hide TaskDoc;
    hide Slug;
    hide TaskUnitName;
    hide ExecValue;
    hide EnvValues;
    TaskLookup(spec, task, 1, 0);
    TaskLookup(spec, task, 1, 1);
    TaskLookup(spec, task, 1, 2);
    TaskLookup(spec, task, 1, 3);
    TaskLookup(spec, task, 1, 4);
    TaskLookup(spec, task, 2, 0);
    TaskLookup(spec, task, 0, 0);
    ReadEnvInverts(spec.env);
    ExecRoundTrip(task.command);
    ExecIsNotEmpty(task.command);
  }

  lemma TimerDocSays(spec: WorkloadSpec, task: ScheduledTask)
    requires ValidTask(task)
    ensures SaysTimer(TimerDoc(spec, task), task)
  {
    hide Values;
    hide Collapse;
    hide TimerDoc;
    hide EscapePercent;
    TimerLookup(spec, task, 1, 0);
    TimerLookup(spec, task, 1, 1);
    TimerLookup(spec, task, 2, 0);
    CollapseInvertsEscape(task.schedule);
    TrimIsBlank(task.schedule);
    EscapedIsNotBlank(task.schedule);
  }

  /**
   * Read back line by line, a task's files are the documents they were written from, and say exactly
   * the task.
   */
  lemma TaskRoundTrip(spec: WorkloadSpec, task: ScheduledTask)
    requires ValidSpec(spec) && task in spec.tasks
    ensures Read(RenderTask(spec, task)) == TaskDoc(spec, task) && SaysTask(Read(RenderTask(spec, task)), spec, task)
    ensures Read(RenderTimer(spec, task)) == TimerDoc(spec, task) && SaysTimer(Read(RenderTimer(spec, task)), task)
  {
    assert ValidTask(task);
    hide Read;
    hide AllWritable;
    hide SaysTask;
    hide SaysTimer;
    hide TaskDoc;
    hide TimerDoc;
    hide ValidSpec;
    hide ValidTask;
    TaskDocWritable(spec, task);
    TimerDocWritable(spec, task);
    ReadInvertsWrite(TaskDoc(spec, task));
    ReadInvertsWrite(TimerDoc(spec, task));
    TaskDocSays(spec, task);
    TimerDocSays(spec, task);
  }
}
