/** How values are spelled in the tables, and that reading a row back gives the value that was written. */
module Rows {
  import opened Wrappers
  import Slugs
  import opened Specs
  import opened Tables

  // ---- events ------------------------------------------------------------------------------

  const DEPLOY_ROW: string := "deploy"

  function StageName(stage: Stage): string {
    match stage
    case Detect => "detect"
    case Build => "build"
    case Secrets => "secrets"
    case Apply => "apply"
    case Route => "route"
    case Healthcheck => "healthcheck"
  }

  function ReadStage(s: string): Option<Stage> {
    if s == "detect" then Some(Detect)
    else if s == "build" then Some(Build)
    else if s == "secrets" then Some(Secrets)
    else if s == "apply" then Some(Stage.Apply)
    else if s == "route" then Some(Stage.Route)
    else if s == "healthcheck" then Some(Healthcheck)
    else None
  }

  function StatusName(status: Status): string {
    match status
    case InProgress => "in_progress"
    case Done => "done"
    case RolledBack => "rolled_back"
    case Failed => "failed"
  }

  function ReadStatus(s: string): Option<Status> {
    if s == "in_progress" then Some(InProgress)
    else if s == "done" then Some(Done)
    else if s == "rolled_back" then Some(RolledBack)
    else if s == "failed" then Some(Failed)
    else None
  }

  function EventStatusName(status: EventStatus): string {
    match status
    case Started => "started"
    case Succeeded => "succeeded"
    case Broken => "failed"
  }

  function ReadEventStatus(s: string): Option<EventStatus> {
    if s == "started" then Some(Started)
    else if s == "succeeded" then Some(Succeeded)
    else if s == "failed" then Some(Broken)
    else None
  }

  function Columns(kind: EventKind): (string, string) {
    match kind
    case StageEvent(stage, status) => (StageName(stage), EventStatusName(status))
    case Finished(status) => (DEPLOY_ROW, StatusName(status))
  }

  /** The deploy-level marker is looked for first; a deploy-level row that is not terminal is refused. */
  function BuildKind(stage: string, status: string): Result<EventKind> {
    if stage == DEPLOY_ROW then
      if ReadStatus(status).None? || ReadStatus(status).value == InProgress then Failure
      else Success(Finished(ReadStatus(status).value))
    else if ReadStage(stage).None? || ReadEventStatus(status).None? then Failure
    else Success(StageEvent(ReadStage(stage).value, ReadEventStatus(status).value))
  }

  /** Every event reads back as itself, except an ending that is not one. */
  lemma ColumnsRoundTrip(kind: EventKind)
    ensures BuildKind(Columns(kind).0, Columns(kind).1) == if kind == Finished(InProgress) then Failure
              else Success(kind)
  {
    match kind {
      case Finished(status) => StatusReads(status);
      case StageEvent(stage, status) =>
        StageReads(stage);
        EventStatusReads(status);
    }
  }

  lemma StageReads(stage: Stage)
    ensures ReadStage(StageName(stage)) == Some(stage) && StageName(stage) != DEPLOY_ROW
  {
    assert "detect"[2] != DEPLOY_ROW[2] && "build"[0] != DEPLOY_ROW[0];
  }

  lemma StatusReads(status: Status)
    ensures ReadStatus(StatusName(status)) == Some(status)
  {
  }

  lemma EventStatusReads(status: EventStatus)
    ensures ReadEventStatus(EventStatusName(status)) == Some(status)
  {
  }

  /** So no two kinds of event are spelled alike, in the tables or on the wire. */
  lemma ColumnsInjective(a: EventKind, b: EventKind)
    requires Columns(a) == Columns(b)
    ensures a == b
  {
    if a != Finished(InProgress) {
      ColumnsRoundTrip(a);
    }
    if b != Finished(InProgress) {
      ColumnsRoundTrip(b);
    }
  }

  // ---- registrations -----------------------------------------------------------------------

  datatype ConfigRow = ConfigRow(name: string, repoPath: string, domain: Option<string>, port: Option<int>)

  function ConfigColumns(config: AppConfig): ConfigRow {
    match config.route
    case Some(route) => ConfigRow(config.name, config.repoPath, Some(route.domain), Some(route.port as int))
    case None => ConfigRow(config.name, config.repoPath, None, None)
  }

  /** Half a route, a port out of range, and port zero are refused. */
  function BuildConfig(row: ConfigRow): Result<AppConfig> {
    if row.domain.Some? && row.port.Some? then
      if row.port.value < 0 || row.port.value >= 0x1_0000 || row.port.value == 0 then Failure
      else Success(AppConfig(row.name, row.repoPath, Some(Specs.Route(row.domain.value, row.port.value as Port))))
    else if row.domain.None? && row.port.None? then Success(AppConfig(row.name, row.repoPath, None))
    else Failure
  }

  /**
   * A registration reads back as itself exactly when its port is not zero, which registering does not
   * check.
   */
  lemma ConfigRoundTrip(config: AppConfig)
    ensures BuildConfig(ConfigColumns(config)) == Success(config) <==>
              (config.route.Some? ==> config.route.value.port != 0)
    ensures BuildConfig(ConfigColumns(config)).Failure? <==> config.route.Some? && config.route.value.port == 0
  {
  }

  /** A registration that the store accepts and then cannot read. */
  lemma AcceptedButUnreadable(t: Tables) returns (config: AppConfig)
    requires !NameCollides(t, "a")
    ensures RegisterApp(t, config).Some? && BuildConfig(ConfigColumns(config)).Failure?
  {
    config := AppConfig("a", "/srv/a", Some(Specs.Route("a.example", 0)));
    Slugs.SlugOfLetter();
  }
}
