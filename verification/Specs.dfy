/** The declarative workload and the checks that stand between it and a unit file. */
module Specs {
  import opened Wrappers
  import opened Slugs

  newtype Port = x: int | 0 <= x < 0x1_0000

  datatype Route = Route(domain: string, port: Port)

  datatype RestartPolicy = Always | OnFailure | No {
    function AsSystemd(): string {
      match this
      case Always => "always"
      case OnFailure => "on-failure"
      case No => "no"
    }
  }

  datatype ScheduledTask = ScheduledTask(name: string, schedule: string, command: seq<string>)

  datatype WorkloadSpec = WorkloadSpec(
    name: string,
    image: string,
    command: Option<seq<string>>,
    env: seq<(string, string)>,
    ports: seq<string>,
    volumes: seq<string>,
    secrets: seq<string>,
    memoryMax: Option<string>,
    healthCmd: Option<string>,
    restartPolicy: RestartPolicy,
    route: Option<Route>,
    tasks: seq<ScheduledTask>
  )

  /** No line break: the value stays on the physical line it is rendered on. */
  predicate SingleLine(s: string) {
    '\n' !in s && '\r' !in s
  }

  predicate AllSingleLine(values: seq<string>) {
    forall i | 0 <= i < |values| :: SingleLine(values[i])
  }

  predicate OptionalSingleLine(value: Option<string>) {
    value.Some? ==> SingleLine(value.value)
  }

  predicate ValidEnv(env: seq<(string, string)>) {
    forall i | 0 <= i < |env| :: SingleLine(env[i].0) && SingleLine(env[i].1)
  }

  predicate ValidTask(task: ScheduledTask) {
    && Slug(task.name) != ""
    && SingleLine(task.name)
    && Trim(task.schedule) != ""
    && SingleLine(task.schedule)
    && task.command != []
    && AllSingleLine(task.command)
  }

  predicate DistinctTaskSlugs(tasks: seq<ScheduledTask>) {
    forall i, j | 0 <= i < j < |tasks| :: Slug(tasks[i].name) != Slug(tasks[j].name)
  }

  predicate ValidTasks(tasks: seq<ScheduledTask>) {
    && (forall i | 0 <= i < |tasks| :: ValidTask(tasks[i]))
    && DistinctTaskSlugs(tasks)
  }

  predicate ValidSpec(spec: WorkloadSpec) {
    && Slug(spec.name) != ""
    && SingleLine(spec.name)
    && SingleLine(spec.image)
    && AllSingleLine(spec.ports)
    && AllSingleLine(spec.volumes)
    && ValidEnv(spec.env)
    && AllSingleLine(spec.secrets)
    && OptionalSingleLine(spec.memoryMax)
    && OptionalSingleLine(spec.healthCmd)
    && (spec.command.Some? ==> AllSingleLine(spec.command.value))
    && (spec.route.Some? ==> spec.healthCmd.Some?)
    && (spec.route.Some? ==> SingleLine(spec.route.value.domain))
    && ValidTasks(spec.tasks)
  }

  method CheckLines(values: seq<string>) returns (ok: bool)
    ensures ok <==> AllSingleLine(values)
  {
    for i := 0 to |values|
      invariant forall k | 0 <= k < i :: SingleLine(values[k])
    {
      if !SingleLine(values[i]) {
        return false;
      }
    }
    return true;
  }

  method CheckEnv(env: seq<(string, string)>) returns (ok: bool)
    ensures ok <==> ValidEnv(env)
  {
    for i := 0 to |env|
      invariant forall k | 0 <= k < i :: SingleLine(env[k].0) && SingleLine(env[k].1)
    {
      if !SingleLine(env[i].0) || !SingleLine(env[i].1) {
        return false;
      }
    }
    return true;
  }

  method CheckTask(task: ScheduledTask) returns (ok: bool)
    ensures ok <==> ValidTask(task)
  {
    var s := ComputeSlug(task.name);
    if s == "" || !SingleLine(task.name) || Trim(task.schedule) == "" || !SingleLine(task.schedule)
        || task.command == [] {
      return false;
    }
    ok := CheckLines(task.command);
  }

  /** The slugs of a list of tasks, in order. */
  function TaskSlugs(tasks: seq<ScheduledTask>): (slugs: seq<string>)
    ensures |slugs| == |tasks|
  {
    seq(|tasks|, i requires 0 <= i < |tasks| => Slug(tasks[i].name))
  }

  predicate AllDistinct(slugs: seq<string>) {
    forall i, j | 0 <= i < j < |slugs| :: slugs[i] != slugs[j]
  }

  lemma DistinctSlugs(tasks: seq<ScheduledTask>)
    ensures DistinctTaskSlugs(tasks) <==> AllDistinct(TaskSlugs(tasks))
  {
    var slugs := TaskSlugs(tasks);
    assert forall i | 0 <= i < |tasks| :: slugs[i] == Slug(tasks[i].name);
  }

  /** One set of slugs, filled as the tasks are walked; a slug already in it is a duplicate. */
  method CheckDistinct(slugs: seq<string>) returns (ok: bool)
    ensures ok <==> AllDistinct(slugs)
  {
    var seen: set<string> := {};
    for i := 0 to |slugs|
      invariant forall j, k | 0 <= j < k < i :: slugs[j] != slugs[k]
      invariant seen == set k | 0 <= k < i :: slugs[k]
    {
      if slugs[i] in seen {
        return false;
      }
      seen := seen + {slugs[i]};
    }
    return true;
  }

  method CheckTasks(tasks: seq<ScheduledTask>) returns (ok: bool)
    ensures ok <==> ValidTasks(tasks)
  {
    for i := 0 to |tasks|
      invariant forall k | 0 <= k < i :: ValidTask(tasks[k])
    {
      var good := CheckTask(tasks[i]);
      if !good {
        return false;
      }
    }
    DistinctSlugs(tasks);
    ok := CheckDistinct(TaskSlugs(tasks));
  }

  /** The checks in the order they are made; a spec passes exactly when it is valid. */
  method Validate(spec: WorkloadSpec) returns (r: Result<()>)
    ensures r.Success? <==> ValidSpec(spec)
  {
    var s := ComputeSlug(spec.name);
    if s == "" || !SingleLine(spec.name) || !SingleLine(spec.image) {
      return Failure;
    }
    var ports := CheckLines(spec.ports);
    var volumes := CheckLines(spec.volumes);
    var env := CheckEnv(spec.env);
    var secrets := CheckLines(spec.secrets);
    if !ports || !volumes || !env || !secrets {
      return Failure;
    }
    if !OptionalSingleLine(spec.memoryMax) || !OptionalSingleLine(spec.healthCmd) {
      return Failure;
    }
    if spec.command.Some? {
      var command := CheckLines(spec.command.value);
      if !command {
        return Failure;
      }
    }
    if spec.route.Some? && spec.healthCmd.None? {
      return Failure;
    }
    if spec.route.Some? && !SingleLine(spec.route.value.domain) {
      return Failure;
    }
    var tasks := CheckTasks(spec.tasks);
    return if tasks then Success(()) else Failure;
  }
}
