/**
 * Rendering a spec to unit text. Each renderer is a sequence of pushes onto one string; what it
 * writes is a list of lines, and reading those lines back recovers the workload.
 */
module Render {
  import opened Wrappers
  import opened Slugs
  import opened Specs
  import opened Paths
  import opened Decimals
  import opened UnitText
  import opened Quoting

  const MANAGED_MARKER: string := "# kuadrat-managed: true"
  const WORKLOAD_TITLE: string := "kuadrat workload "
  /** What one health attempt may take, in milliseconds: the limit podman is given and the poll's own. */
  const HEALTH_ATTEMPT_TIMEOUT: nat := 5_000

  /** The text carries the marker that makes a file kuadrat's own. */
  predicate Marked(text: string) {
    MANAGED_MARKER <= text
  }

  function Optional(value: Option<string>): seq<string> {
    if value.Some? then [value.value] else []
  }

  function Seconds(milliseconds: nat): string {
    Decimal(milliseconds / 1000) + "s"
  }

  // ---- what is written ---------------------------------------------------------------------

  const MARKER_LINE: Line := Comment(" kuadrat-managed: true")

  function EscapeEach(values: seq<string>): (r: seq<string>) {
    EscapeAll(values)
  }

  function Assignment(pair: (string, string)): string {
    pair.0 + "=" + pair.1
  }

  function EnvValues(env: seq<(string, string)>): (r: seq<string>)
    ensures |r| == |env|
    ensures forall i | 0 <= i < |env| :: r[i] == QuoteWord(EscapePercent(env[i].0) + "=" + EscapePercent(env[i].1))
  {
    seq(|env|, i requires 0 <= i < |env| => QuoteWord(EscapePercent(env[i].0) + "=" + EscapePercent(env[i].1)))
  }

  function ContainerGroups(spec: WorkloadSpec): seq<Group> {
    [ Group("Image", [spec.image]),
      Group("ContainerName", [UnitName(Slug(spec.name))]),
      Group("PublishPort", spec.ports),
      Group("Volume", EscapeEach(spec.volumes)),
      Group("Environment", EnvValues(spec.env)),
      Group("Secret", spec.secrets),
      Group("HealthCmd", Optional(spec.healthCmd)),
      Group("HealthTimeout", if spec.healthCmd.Some? then [Seconds(HEALTH_ATTEMPT_TIMEOUT)] else []),
      Group("Exec", if spec.command.Some? then [ExecValue(spec.command.value)] else []) ]
  }

  function ServiceGroups(spec: WorkloadSpec): seq<Group> {
    [ Group("Restart", [spec.restartPolicy.AsSystemd()]),
      Group("MemoryMax", Optional(spec.memoryMax)) ]
  }

  function UnitParts(spec: WorkloadSpec): seq<Part> {
    [ Part("Unit", [Group("Description", [WORKLOAD_TITLE + spec.name])]),
      Part("Container", ContainerGroups(spec)),
      Part("Service", ServiceGroups(spec)),
      Part("Install", [Group("WantedBy", ["multi-user.target"])]) ]
  }

  function UnitDoc(spec: WorkloadSpec): seq<Line> {
    [MARKER_LINE] + Layout(UnitParts(spec))
  }

  function RenderUnit(spec: WorkloadSpec): string {
    Write(UnitDoc(spec))
  }

  function TaskGroups(spec: WorkloadSpec, task: ScheduledTask): seq<Group> {
    [ Group("Image", [spec.image]),
      Group("ContainerName", [TaskUnitName(Slug(spec.name), Slug(task.name))]),
      Group("Environment", EnvValues(spec.env)),
      Group("Secret", spec.secrets),
      Group("Exec", [ExecValue(task.command)]) ]
  }

  function TaskParts(spec: WorkloadSpec, task: ScheduledTask): seq<Part> {
    [ Part("Unit", [Group("Description", ["kuadrat task " + Slug(task.name) + " for " + spec.name])]),
      Part("Container", TaskGroups(spec, task)),
      Part("Service", [Group("Type", ["oneshot"])]) ]
  }

  function TaskDoc(spec: WorkloadSpec, task: ScheduledTask): seq<Line> {
    [MARKER_LINE] + Layout(TaskParts(spec, task))
  }

  function RenderTask(spec: WorkloadSpec, task: ScheduledTask): string {
    Write(TaskDoc(spec, task))
  }

  function TimerGroups(task: ScheduledTask): seq<Group> {
    [ Group("OnCalendar", [EscapePercent(task.schedule)]),
      Group("Persistent", ["true"]) ]
  }

  function TimerParts(spec: WorkloadSpec, task: ScheduledTask): seq<Part> {
    [ Part("Unit", [Group("Description", ["kuadrat timer " + Slug(task.name) + " for " + spec.name])]),
      Part("Timer", TimerGroups(task)),
      Part("Install", [Group("WantedBy", ["timers.target"])]) ]
  }

  function TimerDoc(spec: WorkloadSpec, task: ScheduledTask): seq<Line> {
    [MARKER_LINE] + Layout(TimerParts(spec, task))
  }

  function RenderTimer(spec: WorkloadSpec, task: ScheduledTask): string {
    Write(TimerDoc(spec, task))
  }

  /** Everything written starts with the marker. */
  lemma MarkedWhenWritten(rest: seq<Line>)
    ensures Marked(Write([MARKER_LINE] + rest))
  {
    var doc := [MARKER_LINE] + rest;
    assert doc[1..] == rest;
    assert Show(MARKER_LINE) == MANAGED_MARKER;
    assert Write(doc) == MANAGED_MARKER + ("\n" + Write(rest));
  }

  lemma RenderedIsMarked(spec: WorkloadSpec, task: ScheduledTask)
    ensures Marked(RenderUnit(spec)) && Marked(RenderTask(spec, task)) && Marked(RenderTimer(spec, task))
  {
    MarkedWhenWritten(Layout(UnitParts(spec)));
    MarkedWhenWritten(Layout(TaskParts(spec, task)));
    MarkedWhenWritten(Layout(TimerParts(spec, task)));
  }

  // ---- reading it back ---------------------------------------------------------------------

  /** What a unit file says about a workload. */
  datatype Workload = Workload(
    name: string,
    image: string,
    container: string,
    ports: seq<string>,
    volumes: seq<string>,
    env: seq<string>,
    secrets: seq<string>,
    healthCmd: Option<string>,
    healthTimeout: Option<nat>,
    command: Option<seq<string>>,
    restartPolicy: RestartPolicy,
    memoryMax: Option<string>,
    wantedBy: string
  )

  function Assignments(env: seq<(string, string)>): (r: seq<string>)
    ensures |r| == |env|
    ensures forall i | 0 <= i < |env| :: r[i] == Assignment(env[i])
  {
    seq(|env|, i requires 0 <= i < |env| => Assignment(env[i]))
  }

  function WorkloadOf(spec: WorkloadSpec): Workload {
    Workload(
      spec.name, spec.image, UnitName(Slug(spec.name)), spec.ports, spec.volumes, Assignments(spec.env),
      spec.secrets, spec.healthCmd,
      if spec.healthCmd.Some? then Some(HEALTH_ATTEMPT_TIMEOUT) else None,
      spec.command, spec.restartPolicy, spec.memoryMax, "multi-user.target")
  }

  function ReadRestart(value: string): Option<RestartPolicy> {
    if value == "always" then Some(Always)
    else if value == "on-failure" then Some(OnFailure)
    else if value == "no" then Some(No)
    else None
  }

  /** Each `Environment=` value must be exactly one word. */
  function ReadEnv(values: seq<string>): Option<seq<string>> {
    if values == [] then Some([])
    else
      var first, rest := ReadExec(values[0]), ReadEnv(values[1..]);
      if first.Some? && |first.value| == 1 && rest.Some? then Some(first.value + rest.value) else None
  }

  function AtMostOne(values: seq<string>): Option<string> {
    if values == [] then None else Some(values[0])
  }

  /** A whole number of seconds, in milliseconds. */
  function ReadSeconds(value: string): Option<nat> {
    if value == "" || value[|value| - 1] != 's' || ReadDecimal(value[..|value| - 1]).None? then None
    else Some(ReadDecimal(value[..|value| - 1]).value * 1000)
  }

  function ReadDoc(doc: seq<Line>): Option<Workload> {
    var description := Values(doc, "", "Unit", "Description");
    var image := Values(doc, "", "Container", "Image");
    var container := Values(doc, "", "Container", "ContainerName");
    var volumes := CollapseAll(Values(doc, "", "Container", "Volume"));
    var env := ReadEnv(Values(doc, "", "Container", "Environment"));
    var timeout := Values(doc, "", "Container", "HealthTimeout");
    var exec := Values(doc, "", "Container", "Exec");
    var wantedBy := Values(doc, "", "Install", "WantedBy");
    var restart := Values(doc, "", "Service", "Restart");
    if |description| != 1 || !(WORKLOAD_TITLE <= description[0]) || |image| != 1 || |container| != 1 || volumes.None?
        || env.None? || |restart| != 1 || ReadRestart(restart[0]).None? || |wantedBy| != 1 then None
    else if timeout != [] && ReadSeconds(timeout[0]).None? then None
    else if exec != [] && ReadExec(exec[0]).None? then None
    else Some(Workload(
      description[0][|WORKLOAD_TITLE|..],
      image[0],
      container[0],
      Values(doc, "", "Container", "PublishPort"),
      volumes.value,
      env.value,
      Values(doc, "", "Container", "Secret"),
      AtMostOne(Values(doc, "", "Container", "HealthCmd")),
      if timeout == [] then None else ReadSeconds(timeout[0]),
      if exec == [] then None else ReadExec(exec[0]),
      ReadRestart(restart[0]).value,
      AtMostOne(Values(doc, "", "Service", "MemoryMax")),
      wantedBy[0]))
  }

  function ReadUnit(text: string): Option<Workload> {
    ReadDoc(Read(text))
  }

  // ---- the reader inverts the renderer -----------------------------------------------------

  lemma {:induction false} ReplaceAppend(a: string, b: string, c: char, text: string)
    ensures Replace(a + b, c, text) == Replace(a, c, text) + Replace(b, c, text)
  {
    if a == "" {
      assert a + b == b;
    } else {
      assert (a + b)[1..] == a[1..] + b;
      ReplaceAppend(a[1..], b, c, text);
    }
  }

  lemma EnvironmentValue(pair: (string, string))
    ensures EscapePercent(pair.0) + "=" + EscapePercent(pair.1) == EscapePercent(Assignment(pair))
  {
    ReplaceAppend(pair.0 + "=", pair.1, '%', "%%");
    ReplaceAppend(pair.0, "=", '%', "%%");
    assert EscapePercent("=") == "=";
  }

  lemma ReadEnvStep(values: seq<string>)
    requires values != [] && ReadExec(values[0]).Some? && |ReadExec(values[0]).value| == 1 && ReadEnv(values[1..]).Some?
    ensures ReadEnv(values) == Some(ReadExec(values[0]).value + ReadEnv(values[1..]).value)
  {
  }

  lemma NothingReads()
    ensures ReadEnv(EnvValues([])) == Some(Assignments([]))
  {
  }

  lemma {:induction false} ReadEnvInverts(env: seq<(string, string)>)
    ensures ReadEnv(EnvValues(env)) == Some(Assignments(env))
  {
    hide *;
    if env == [] {
      NothingReads();
    } else {
      var rest := env[1..];
      EnvironmentValue(env[0]);
      EnvironmentRoundTrip(Assignment(env[0]));
      assert EnvValues(env)[1..] == EnvValues(rest);
      ReadEnvInverts(rest);
      ReadEnvStep(EnvValues(env));
      assert Assignments(env) == [Assignment(env[0])] + Assignments(rest);
    }
  }

  lemma UnitPartsDistinct(spec: WorkloadSpec)
    ensures DistinctParts(UnitParts(spec))
  {
    assert "Secret"[0] != "Volume"[0];
    assert "ContainerName"[0] != "HealthTimeout"[0];
    assert "Environment"[0] != "PublishPort"[0];
    assert "Install"[0] != "Service"[0];
    assert DistinctKeys(ContainerGroups(spec));
    assert DistinctKeys(ServiceGroups(spec));
  }

  /** In the rendered document, a key has exactly the values of its group. */
  lemma UnitLookup(spec: WorkloadSpec, i: nat, j: nat)
    requires i < |UnitParts(spec)| && j < |UnitParts(spec)[i].groups|
    ensures var p := UnitParts(spec)[i]; Values(UnitDoc(spec), "", p.name, p.groups[j].key) == p.groups[j].values
  {
    UnitPartsDistinct(spec);
    Lookup(UnitParts(spec), i, j);
    assert UnitDoc(spec)[1..] == Layout(UnitParts(spec));
  }

  lemma RestartRoundTrip(policy: RestartPolicy)
    ensures ReadRestart(policy.AsSystemd()) == Some(policy)
  {
  }

  lemma SecondsRoundTrip(milliseconds: nat)
    ensures ReadSeconds(Seconds(milliseconds)) == Some(milliseconds / 1000 * 1000) && SingleLine(Seconds(milliseconds))
  {
    var digits := Decimal(milliseconds / 1000);
    DecimalRoundTrip(milliseconds / 1000);
    assert (digits + "s")[..|digits|] == digits;
  }

  lemma DocReadsBack(spec: WorkloadSpec)
    ensures ReadDoc(UnitDoc(spec)) == Some(WorkloadOf(spec))
  {
    hide Values;
    hide UnitDoc;
    hide ReadEnv;
    hide ReadExec;
    hide ExecValue;
    hide EnvValues;
    hide Slug;
    hide ReadSeconds;
    hide Seconds;
    hide ReadRestart;
    hide CollapseAll;
    UnitLookup(spec, 0, 0);
    UnitLookup(spec, 1, 0);
    UnitLookup(spec, 1, 1);
    UnitLookup(spec, 1, 2);
    UnitLookup(spec, 1, 3);
    UnitLookup(spec, 1, 4);
    UnitLookup(spec, 1, 5);
    UnitLookup(spec, 1, 6);
    UnitLookup(spec, 1, 7);
    UnitLookup(spec, 1, 8);
    UnitLookup(spec, 2, 0);
    UnitLookup(spec, 2, 1);
    UnitLookup(spec, 3, 0);
    SecondsRoundTrip(HEALTH_ATTEMPT_TIMEOUT);
    CollapseInvertsEscapeAll(spec.volumes);
    ReadEnvInverts(spec.env);
    RestartRoundTrip(spec.restartPolicy);
    if spec.command.Some? {
      ExecRoundTrip(spec.command.value);
    }
    assert (WORKLOAD_TITLE + spec.name)[|WORKLOAD_TITLE|..] == spec.name;
  }

  lemma EnvSingleLine(env: seq<(string, string)>)
    requires ValidEnv(env)
    ensures AllSingleLine(EnvValues(env))
  {
    forall i | 0 <= i < |env| ensures SingleLine(EnvValues(env)[i]) {
      EnvironmentValue(env[i]);
      QuoteSingleLine(Assignment(env[i]));
    }
  }

  lemma EscapedSingleLine(values: seq<string>)
    requires AllSingleLine(values)
    ensures AllSingleLine(EscapeEach(values))
  {
    forall i | 0 <= i < |values| ensures SingleLine(EscapeEach(values)[i]) {
      QuoteSingleLine(values[i]);
    }
  }

  lemma UnitNameSingleLine(name: string)
    ensures SingleLine(UnitName(Slug(name)))
  {
    SlugIsWellFormed(name);
    var u, s := UnitName(Slug(name)), Slug(name);
    forall i | 0 <= i < |u| ensures u[i] != '\n' && u[i] != '\r' {
      if i >= |UNIT_PREFIX| { assert u[i] == s[i - |UNIT_PREFIX|]; }
    }
  }

  lemma ContainerKeys()
    ensures IsKey("Image") && IsKey("ContainerName") && IsKey("PublishPort") && IsKey("Volume") && IsKey("Environment")
    ensures IsKey("Secret") && IsKey("HealthCmd") && IsKey("HealthTimeout") && IsKey("Exec")
  {
  }

  lemma ContainerValues(spec: WorkloadSpec, i: nat)
    requires ValidSpec(spec) && i < |ContainerGroups(spec)|
    ensures AllSingleLine(ContainerGroups(spec)[i].values)
  {
    EnvSingleLine(spec.env);
    EscapedSingleLine(spec.volumes);
    UnitNameSingleLine(spec.name);
    SecondsRoundTrip(HEALTH_ATTEMPT_TIMEOUT);
    if spec.command.Some? {
      ExecSingleLine(spec.command.value);
    }
  }

  lemma ContainerWritable(spec: WorkloadSpec)
    requires ValidSpec(spec)
    ensures WritablePart(Part("Container", ContainerGroups(spec)))
  {
    ContainerKeys();
    var groups := ContainerGroups(spec);
    forall i | 0 <= i < |groups| ensures WritableGroup(groups[i]) {
      ContainerValues(spec, i);
    }
  }

  lemma ServiceWritable(spec: WorkloadSpec)
    requires ValidSpec(spec)
    ensures WritablePart(Part("Service", ServiceGroups(spec)))
  {
    assert IsKey("Restart") && IsKey("MemoryMax");
    assert SingleLine(spec.restartPolicy.AsSystemd());
  }

  lemma TitleWritable(spec: WorkloadSpec)
    requires ValidSpec(spec)
    ensures WritablePart(Part("Unit", [Group("Description", [WORKLOAD_TITLE + spec.name])]))
  {
    assert IsKey("Description");
  }

  lemma InstallWritable()
    ensures WritablePart(Part("Install", [Group("WantedBy", ["multi-user.target"])]))
  {
    assert IsKey("WantedBy");
    assert SingleLine("multi-user.target");
  }

  lemma UnitDocWritable(spec: WorkloadSpec)
    requires ValidSpec(spec)
    ensures AllWritable(UnitDoc(spec))
  {
    hide WritablePart;
    hide Writable;
    hide ContainerGroups;
    hide ServiceGroups;
    hide ValidSpec;
    hide Layout;
    ContainerWritable(spec);
    TitleWritable(spec);
    ServiceWritable(spec);
    InstallWritable();
    MarkerWritable();
    LayoutWritable(UnitParts(spec));
  }

  lemma MarkerWritable()
    ensures Writable(MARKER_LINE)
  {
  }

  /** A valid spec's unit text reads back as that workload and as nothing more. */
  lemma UnitRoundTrip(spec: WorkloadSpec)
    requires ValidSpec(spec)
    ensures Read(RenderUnit(spec)) == UnitDoc(spec)
    ensures ReadUnit(RenderUnit(spec)) == Some(WorkloadOf(spec))
  {
    UnitDocWritable(spec);
    ReadInvertsWrite(UnitDoc(spec));
    DocReadsBack(spec);
  }

  /** Byte-identical unit text means an identical workload, which is what `apply` relies on. */
  lemma EqualTextEqualWorkload(a: WorkloadSpec, b: WorkloadSpec)
    requires ValidSpec(a) && ValidSpec(b)
    requires RenderUnit(a) == RenderUnit(b)
    ensures WorkloadOf(a) == WorkloadOf(b)
  {
    UnitRoundTrip(a);
    UnitRoundTrip(b);
  }

  // ---- the renderers -----------------------------------------------------------------------

  /** The `[Container]` directives of a workload; volumes and assignments are escaped as they are pushed. */
  method PushContainer(text: string, ghost base: seq<Line>, spec: WorkloadSpec) returns (out: string)
    requires text == Write(base)
    ensures out == Write(base + Flatten(ContainerGroups(spec)))
  {
    hide Write;
    hide Flatten;
    hide Slug;
    hide UnitName;
    hide EscapeEach;
    hide EnvValues;
    hide ExecValue;
    hide Optional;
    ghost var groups := ContainerGroups(spec);
    Nothing(base, groups);
    out := PushGroup(text, base, groups, 0, "Image", [spec.image]);
    out := PushGroup(out, base, groups, 1, "ContainerName", [UnitName(Slug(spec.name))]);
    out := PushGroup(out, base, groups, 2, "PublishPort", spec.ports);
    out := PushGroup(out, base, groups, 3, "Volume", EscapeEach(spec.volumes));
    out := PushGroup(out, base, groups, 4, "Environment", EnvValues(spec.env));
    out := PushContainerTail(out, base, spec);
  }

  method PushContainerTail(text: string, ghost base: seq<Line>, spec: WorkloadSpec) returns (out: string)
    requires text == Write(base + Flatten(ContainerGroups(spec)[..5]))
    ensures out == Write(base + Flatten(ContainerGroups(spec)))
  {
    hide Write;
    hide Flatten;
    hide Slug;
    hide UnitName;
    hide EscapeEach;
    hide EnvValues;
    hide ExecValue;
    hide Optional;
    ghost var groups := ContainerGroups(spec);
    Nothing(base, groups);
    out := PushGroup(text, base, groups, 5, "Secret", spec.secrets);
    out := PushGroup(out, base, groups, 6, "HealthCmd", Optional(spec.healthCmd));
    out := PushGroup(out, base, groups, 7, "HealthTimeout", if spec.healthCmd.Some?
        then [Seconds(HEALTH_ATTEMPT_TIMEOUT)] else []);
    out := PushGroup(out, base, groups, 8, "Exec", if spec.command.Some? then [ExecValue(spec.command.value)] else []);
  }

  method PushService(text: string, ghost base: seq<Line>, spec: WorkloadSpec) returns (out: string)
    requires text == Write(base)
    ensures out == Write(base + Flatten(ServiceGroups(spec)))
  {
    hide Write;
    hide Flatten;
    hide Slug;
    hide UnitName;
    hide EscapeEach;
    hide EnvValues;
    hide ExecValue;
    hide Optional;
    ghost var groups := ServiceGroups(spec);
    Nothing(base, groups);
    out := PushGroup(text, base, groups, 0, "Restart", [spec.restartPolicy.AsSystemd()]);
    out := PushGroup(out, base, groups, 1, "MemoryMax", Optional(spec.memoryMax));
  }

  method PushTask(text: string, ghost base: seq<Line>, spec: WorkloadSpec, task: ScheduledTask) returns (out: string)
    requires text == Write(base)
    ensures out == Write(base + Flatten(TaskGroups(spec, task)))
  {
    hide Write;
    hide Flatten;
    hide Slug;
    hide TaskUnitName;
    hide EscapeEach;
    hide EnvValues;
    hide ExecValue;
    hide Optional;
    ghost var groups := TaskGroups(spec, task);
    Nothing(base, groups);
    out := PushGroup(text, base, groups, 0, "Image", [spec.image]);
    out := PushGroup(out, base, groups, 1, "ContainerName", [TaskUnitName(Slug(spec.name), Slug(task.name))]);
    out := PushGroup(out, base, groups, 2, "Environment", EnvValues(spec.env));
    out := PushGroup(out, base, groups, 3, "Secret", spec.secrets);
    out := PushGroup(out, base, groups, 4, "Exec", [ExecValue(task.command)]);
  }

  method PushTimer(text: string, ghost base: seq<Line>, task: ScheduledTask) returns (out: string)
    requires text == Write(base)
    ensures out == Write(base + Flatten(TimerGroups(task)))
  {
    ghost var groups := TimerGroups(task);
    Nothing(base, groups);
    out := PushGroup(text, base, groups, 0, "OnCalendar", [EscapePercent(task.schedule)]);
    out := PushGroup(out, base, groups, 1, "Persistent", ["true"]);
  }

  method PushOne(text: string, ghost base: seq<Line>, key: string, value: string) returns (out: string)
    requires text == Write(base)
    ensures out == Write(base + Flatten([Group(key, [value])]))
  {
    Nothing(base, [Group(key, [value])]);
    out := PushGroup(text, base, [Group(key, [value])], 0, key, [value]);
  }

  /** The marker and the `[Unit]` section every file opens with. */
  method Preamble(title: string, ghost parts: seq<Part>) returns (out: string)
    requires |parts| > 0 && parts[0] == Part("Unit", [Group("Description", [title])])
    ensures Finished(out, MARKER_LINE, parts, 1)
  {
    ghost var base;
    out, base := OpenFirst(MARKER_LINE, "Unit");
    out := PushOne(out, base, "Description", title);
    CloseFirst(out, MARKER_LINE, parts);
  }

  /** The `[Install]` section a unit or a timer closes with. */
  method Install(text: string, target: string, ghost parts: seq<Part>, ghost k: nat) returns (out: string)
    requires 0 < k < |parts| && parts[k] == Part("Install", [Group("WantedBy", [target])])
    requires Finished(text, MARKER_LINE, parts, k)
    ensures Finished(out, MARKER_LINE, parts, k + 1)
  {
    ghost var base;
    out, base := OpenNext(text, MARKER_LINE, parts, k, "Install");
    out := PushOne(out, base, "WantedBy", target);
    CloseNext(out, MARKER_LINE, parts, k);
  }

  /** Render a workload. An invalid spec is never rendered. */
  method RenderWorkload(spec: WorkloadSpec) returns (r: Result<string>)
    ensures r == if ValidSpec(spec) then Success(RenderUnit(spec)) else Failure
  {
    hide Write;
    hide Flatten;
    hide Layout;
    hide Finished;
    hide ValidSpec;
    hide Slug;
    hide ContainerGroups;
    hide ServiceGroups;
    var _ :- Validate(spec);
    ghost var parts, base := UnitParts(spec), [];
    var out := Preamble(WORKLOAD_TITLE + spec.name, parts);
    out, base := OpenNext(out, MARKER_LINE, parts, 1, "Container");
    out := PushContainer(out, base, spec);
    CloseNext(out, MARKER_LINE, parts, 1);
    out, base := OpenNext(out, MARKER_LINE, parts, 2, "Service");
    out := PushService(out, base, spec);
    CloseNext(out, MARKER_LINE, parts, 2);
    out := Install(out, "multi-user.target", parts, 3);
    AllFinished(out, MARKER_LINE, parts);
    return Success(out);
  }

  /** Render a scheduled task's container. */
  method RenderTaskContainer(spec: WorkloadSpec, task: ScheduledTask) returns (r: Result<string>)
    ensures r == if ValidSpec(spec) then Success(RenderTask(spec, task)) else Failure
  {
    hide Write;
    hide Flatten;
    hide Layout;
    hide Finished;
    hide ValidSpec;
    hide Slug;
    hide TaskGroups;
    var _ :- Validate(spec);
    ghost var parts, base := TaskParts(spec, task), [];
    var out := Preamble("kuadrat task " + Slug(task.name) + " for " + spec.name, parts);
    out, base := OpenNext(out, MARKER_LINE, parts, 1, "Container");
    out := PushTask(out, base, spec, task);
    CloseNext(out, MARKER_LINE, parts, 1);
    out, base := OpenNext(out, MARKER_LINE, parts, 2, "Service");
    out := PushOne(out, base, "Type", "oneshot");
    CloseNext(out, MARKER_LINE, parts, 2);
    AllFinished(out, MARKER_LINE, parts);
    return Success(out);
  }

  /** Render a scheduled task's timer. */
  method RenderTaskTimer(spec: WorkloadSpec, task: ScheduledTask) returns (r: Result<string>)
    ensures r == if ValidSpec(spec) then Success(RenderTimer(spec, task)) else Failure
  {
    hide Write;
    hide Flatten;
    hide Layout;
    hide Finished;
    hide ValidSpec;
    hide Slug;
    hide TimerGroups;
    var _ :- Validate(spec);
    ghost var parts, base := TimerParts(spec, task), [];
    var out := Preamble("kuadrat timer " + Slug(task.name) + " for " + spec.name, parts);
    out, base := OpenNext(out, MARKER_LINE, parts, 1, "Timer");
    out := PushTimer(out, base, task);
    CloseNext(out, MARKER_LINE, parts, 1);
    out := Install(out, "timers.target", parts, 2);
    AllFinished(out, MARKER_LINE, parts);
    return Success(out);
  }
}
