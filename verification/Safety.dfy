/** What the machine of Protocol guarantees over whole runs, and the runs that break it. */
module Safety {
  import opened Wrappers
  import opened Specs
  import opened Tables
  import opened Timelines
  import opened Slugs
  import opened Protocol
  import opened Locks

  // ---- runs --------------------------------------------------------------------------------

  function Empty(): State {
    State(Tables(map[], 1, map[], [], 1, map[], map[]), map[], multiset{})
  }

  /** The state after the steps, if each can be taken. */
  function After(s: State, steps: seq<Step>): Option<State>
    decreases |steps|
  {
    if steps == [] then Some(s)
    else
      var front := After(s, steps[..|steps| - 1]);
      if front.Some? then Do(front.value, steps[|steps| - 1]) else None
  }

  /** Every step is taken in a state where it is fine. */
  ghost predicate Along(fine: (State, Step) -> bool, s: State, steps: seq<Step>)
    decreases |steps|
  {
    steps != [] ==>
      && Along(fine, s, steps[..|steps| - 1])
      && (After(s, steps[..|steps| - 1]).Some? ==> fine(After(s, steps[..|steps| - 1]).value, steps[|steps| - 1]))
  }

  /** A run from the empty store, of fine steps only, leads here. */
  ghost predicate Reachable(fine: (State, Step) -> bool, s: State) {
    exists steps :: Along(fine, Empty(), steps) && After(Empty(), steps) == Some(s)
  }

  lemma {:induction false} RunKeepsRows(s: State, steps: seq<Step>)
    requires RowsAgree(s) && Along(Timely, s, steps) && After(s, steps).Some?
    ensures RowsAgree(After(s, steps).value)
    decreases |steps|
  {
    hide RowsAgree;
    hide Do;
    hide Timely;
    if steps != [] {
      RunKeepsRows(s, steps[..|steps| - 1]);
      RowsStep(After(s, steps[..|steps| - 1]).value, steps[|steps| - 1]);
    }
  }

  lemma {:induction false} RunKeepsLocks(s: State, steps: seq<Step>)
    requires LocksAgree(s) && Along(Clean, s, steps) && After(s, steps).Some?
    ensures LocksAgree(After(s, steps).value)
    decreases |steps|
  {
    hide LocksAgree;
    hide Do;
    hide Clean;
    if steps != [] {
      RunKeepsLocks(s, steps[..|steps| - 1]);
      StepKeepsLocks(After(s, steps[..|steps| - 1]).value, steps[|steps| - 1]);
    }
  }

  lemma ReachableRows(s: State)
    requires Reachable(Timely, s)
    ensures RowsAgree(s)
  {
    var steps :| Along(Timely, Empty(), steps) && After(Empty(), steps) == Some(s);
    RunKeepsRows(Empty(), steps);
  }

  lemma ReachableLocks(s: State)
    requires Reachable(Clean, s)
    ensures LocksAgree(s)
  {
    var steps :| Along(Clean, Empty(), steps) && After(Empty(), steps) == Some(s);
    RunKeepsLocks(Empty(), steps);
  }

  // ---- lock safety -------------------------------------------------------------------------

  /** Two deploys of one app inside their stages at once. */
  ghost predicate Overlap(s: State, i: int, j: int) {
    && i != j && i in s.procs && j in s.procs && Executing(s.procs[i]) && Executing(s.procs[j])
    && i in s.t.deploys && j in s.t.deploys && s.t.deploys[i].app == s.t.deploys[j].app
  }

  /**
   * In every state of every clean run, at most one deploy of an app is between its reservation and its
   * release, on a row in progress: queued, inside a stage, between two stages, or leaving early.
   */
  lemma OneActivePerApp(s: State, i: int, j: int)
    requires Reachable(Clean, s) && Active(s, i) && Active(s, j) && s.t.deploys[i].app == s.t.deploys[j].app
    ensures i == j
  {
    ReachableLocks(s);
  }

  /** So at most one is inside its stages. */
  lemma OneDeployPerApp(s: State, i: int, j: int)
    requires Reachable(Clean, s)
    ensures !Overlap(s, i, j)
  {
    hide Reachable;
    ReachableLocks(s);
    assert forall id | id in s.procs && Executing(s.procs[id]) :: Active(s, id) && Holds(s.t, id);
  }

  /** Stages are executed on a row in progress, under the app's lock. */
  lemma StagesRunUnderTheLock(s: State, id: int)
    requires Reachable(Clean, s) && id in s.procs && Executing(s.procs[id])
    ensures Live(s.t, id) && Holds(s.t, id)
  {
    hide Reachable;
    ReachableLocks(s);
    assert Active(s, id);
  }

  /**
   * Work happens only on a row in progress, at the stage the row durably records, after its Started
   * event.
   */
  lemma WriteAhead(s: State, id: int)
    requires Reachable(Timely, s) && id in s.procs && s.procs[id].Working?
    ensures Within(s.t, id, s.procs[id].stage, Open(s.procs[id].stage.Rank()))
  {
    hide Timeline;
    hide Reachable;
    ReachableRows(s);
    assert RowAgrees(s, id);
  }

  // ---- timelines ---------------------------------------------------------------------------

  /** In every state of every timely run, each deploy's timeline follows the grammar and fits its row. */
  lemma TimelineGrammar(s: State, id: int)
    requires Reachable(Timely, s) && id in s.t.deploys
    ensures var row, shape := s.t.deploys[id], Timeline(s.t, id);
            && Consistent(s.t) && Told(s.t, id)
            && Grammatical(Kinds(EventsFor(s.t.events, id)), shape)
            && (row.status != InProgress <==> shape.Closed? || TurnedAway(row, shape))
  {
    hide Reachable;
    ReachableRows(s);
    assert RowAgrees(s, id);
    AgreesMeans(s.t.deploys[id], PcOf(s, id), Timeline(s.t, id), Refused(s, id));
    ShapeIsGrammar(EventsFor(s.t.events, id));
  }

  lemma AgreesMeans(row: DeployRow, pc: Option<Pc>, shape: Shape, refused: bool)
    requires Agrees(row, pc, shape, refused)
    ensures shape != Malformed
    ensures shape.Closed? ==> row.status == shape.outcome && row.status != InProgress
    ensures row.status != InProgress <==> shape.Closed? || TurnedAway(row, shape)
    ensures if row.status == InProgress then Stranded(row, shape) else Over(row, shape)
  {
  }

  // ---- stale runs: any interleaving, clean or not ------------------------------------------

  /**
   * The row has finished, and its process is inside the stage of this rank or an earlier one, or
   * between stages, or gone.
   */
  predicate Stale(s: State, id: int, rank: nat) {
    && id in s.t.deploys && s.t.deploys[id].status != InProgress
    && (id in s.procs ==> NoFurther(s.procs[id], rank))
  }

  predicate NoFurther(pc: Pc, rank: nat) {
    match pc
    case Locking => false
    case Rejecting => false
    case Rejected => true
    case Refusing => true
    case Queued => true
    case Advancing(_) => true
    case Starting(stage) => stage.Rank() <= rank
    case Working(stage) => stage.Rank() <= rank
    case Succeeding(stage) => stage.Rank() <= rank
    case Breaking(stage) => stage.Rank() <= rank
    case Undoing(stage) => stage.Rank() <= rank
    case Storing => 5 <= rank
    case Finishing(stage, status) => stage.Rank() <= rank && status != InProgress
    case Releasing => true
  }

  lemma OwnStaysStale(s: State, id: int, act: Act, rank: nat)
    requires Stale(s, id, rank) && id in s.procs && DoOwn(s, id, act).Some?
    ensures Stale(DoOwn(s, id, act).value, id, rank)
  {
    hide SlugTaken;
  }

  lemma StepStaysStale(s: State, step: Step, id: int, rank: nat)
    requires Stale(s, id, rank) && Do(s, step).Some? && Consistent(s.t)
    ensures Stale(Do(s, step).value, id, rank)
  {
    match step {
      case Own(k, act) =>
        if k == id {
          OwnStaysStale(s, id, act, rank);
        } else {
          hide DoOwn;
          OwnLog(s, k, act);
          OwnProcs(s, k, act);
        }
      case _ =>
    }
  }

  /**
   * A run whose row someone else has finished does no work in any later stage, whatever happens around
   * it.
   */
  lemma {:induction false} StaleRunsStop(s: State, steps: seq<Step>, id: int, rank: nat)
    requires Consistent(s.t) && Stale(s, id, rank) && After(s, steps).Some?
    ensures Consistent(After(s, steps).value.t) && Stale(After(s, steps).value, id, rank)
    decreases |steps|
  {
    hide Stale;
    hide Do;
    hide Consistent;
    if steps != [] {
      var front := steps[..|steps| - 1];
      StaleRunsStop(s, front, id, rank);
      StepStaysStale(After(s, front).value, steps[|steps| - 1], id, rank);
      StepStaysConsistent(After(s, front).value, steps[|steps| - 1]);
    }
  }

  /** The row has finished and its run is between stages, leaving, or gone. */
  predicate Silenced(s: State, id: int) {
    && id in s.t.deploys && s.t.deploys[id].status != InProgress
    && (id in s.procs ==> s.procs[id].Advancing? || s.procs[id] == Releasing)
  }

  lemma SilencedOwn(s: State, act: Act, id: int)
    requires Silenced(s, id) && id in s.procs && DoOwn(s, id, act).Some?
    ensures Silenced(DoOwn(s, id, act).value, id) && Timeline(DoOwn(s, id, act).value.t, id) == Timeline(s.t, id)
  {
    hide Timeline;
    hide SlugTaken;
    EventTimelines(s, id, act, id);
  }

  /** A run that has reached its next stage on a finished row stores no event, until a reconciler does. */
  lemma SilencedStep(s: State, step: Step, id: int)
    requires Consistent(s.t) && Silenced(s, id) && Do(s, step).Some?
    requires step.RecFinish? ==> step.id != id
    ensures Silenced(Do(s, step).value, id) && Timeline(Do(s, step).value.t, id) == Timeline(s.t, id)
  {
    match step {
      case Own(k, act) =>
        if k == id {
          SilencedOwn(s, act, id);
        } else {
          hide DoOwn;
          hide Timeline;
          OthersUnmoved(s, k, act, id);
        }
      case RecFinish(k, status) =>
        hide Timeline;
        FinishTimeline(s.t, k, status, id);
      case _ =>
    }
  }

  lemma {:induction false} SilencedRunsSayNothing(s: State, steps: seq<Step>, id: int)
    requires Consistent(s.t) && Silenced(s, id) && After(s, steps).Some?
    requires forall i | 0 <= i < |steps| && steps[i].RecFinish? :: steps[i].id != id
    ensures Consistent(After(s, steps).value.t) && Silenced(After(s, steps).value, id)
    ensures Timeline(After(s, steps).value.t, id) == Timeline(s.t, id)
    decreases |steps|
  {
    hide Silenced;
    hide Do;
    hide Consistent;
    hide Timeline;
    if steps != [] {
      var front, last := steps[..|steps| - 1], steps[|steps| - 1];
      assert forall i | 0 <= i < |front| :: front[i] == steps[i];
      SilencedRunsSayNothing(s, front, id);
      SilencedStep(After(s, front).value, last, id);
      StepStaysConsistent(After(s, front).value, last);
    }
  }

  // ---- continuations -----------------------------------------------------------------------

  /** One more step of a run. */
  lemma Take(from: State, s: State, steps: seq<Step>, step: Step) returns (u: State, more: seq<Step>)
    requires After(from, steps) == Some(s) && Do(s, step).Some?
    ensures more == steps + [step] && After(from, more) == Some(u) && Do(s, step) == Some(u)
  {
    u, more := Do(s, step).value, steps + [step];
    assert more[..|more| - 1] == steps;
  }

  lemma NothingYet(s: State)
    ensures After(s, []) == Some(s)
  {
  }

  /** Ids of processes are ids of rows, and the next id is new. */
  ghost predicate Numbered(s: State) {
    Consistent(s.t) && s.procs.Keys <= s.t.deploys.Keys
  }

  /** A new deploy of the app, reserved while the lock is free. */
  lemma TakeReservation(from: State, s: State, steps: seq<Step>, app: string) returns (u: State, more: seq<Step>)
    requires After(from, steps) == Some(s) && app !in s.t.locks && Numbered(s)
    ensures steps <= more && After(from, more) == Some(u) && Numbered(u)
    ensures u == State(CreateDeploy(s.t, app).(locks := s.t.locks[app := s.t.nextDeploy]),
                       s.procs[s.t.nextDeploy := Queued], s.releases)
  {
    hide After;
    u, more := Take(from, s, steps, Reserve(app));
    u, more := Take(from, u, more, Own(s.t.nextDeploy, TryLock));
    assert s.procs[s.t.nextDeploy := Locking][s.t.nextDeploy := Queued] == s.procs[s.t.nextDeploy := Queued];
  }

  /** A deploy on its way to a stage that begins it, or is inside one already. */
  predicate Startable(s: State, id: int) {
    && id in s.procs && id in s.t.deploys
    && (Executing(s.procs[id]) || (Live(s.t, id) && (s.procs[id] == Queued || s.procs[id].Advancing?)))
  }

  /** It gets into a stage; nothing else moves. */
  lemma TakeStart(from: State, s: State, steps: seq<Step>, id: int) returns (u: State, more: seq<Step>)
    requires After(from, steps) == Some(s) && Startable(s, id)
    ensures steps <= more && After(from, more) == Some(u)
    ensures id in u.procs && Executing(u.procs[id]) && u.procs == s.procs[id := u.procs[id]]
    ensures id in u.t.deploys && u.t.deploys == s.t.deploys[id := u.t.deploys[id]]
              && u.t.deploys[id].app == s.t.deploys[id].app
  {
    hide After;
    u, more := s, steps;
    if u.procs[id] == Queued {
      u, more := Take(from, u, more, Own(id, Go));
    }
    if u.procs[id].Advancing? {
      u, more := Take(from, u, more, Own(id, Advance));
    }
  }

  /** While the app's lock is free, a second deploy starts beside one that is or will be in its stages. */
  lemma TakeBeside(from: State, s: State, steps: seq<Step>, i: int) returns (u: State, more: seq<Step>, j: int)
    requires After(from, steps) == Some(s) && Numbered(s) && Startable(s, i) && s.t.deploys[i].app !in s.t.locks
    ensures steps <= more && After(from, more) == Some(u) && Overlap(u, i, j)
  {
    hide After;
    j := s.t.nextDeploy;
    u, more := TakeReservation(from, s, steps, s.t.deploys[i].app);
    u, more := TakeStart(from, u, more, i);
    u, more := TakeStart(from, u, more, j);
  }

  /** A process whose row has finished leaves, and releases the app's lock whoever holds it. */
  lemma TakeDoomed(from: State, s: State, steps: seq<Step>, id: int) returns (u: State, more: seq<Step>)
    requires After(from, steps) == Some(s) && Numbered(s) && Doomed(s, id)
    ensures steps <= more && After(from, more) == Some(u)
    ensures u == State(ReleaseLock(s.t, s.t.deploys[id].app), s.procs - {id}, s.releases)
  {
    hide After;
    u, more := s, steps;
    if u.procs[id] == Queued {
      u, more := Take(from, u, more, Own(id, Go));
    }
    if u.procs[id].Advancing? {
      u, more := Take(from, u, more, Own(id, Advance));
    }
    u, more := Take(from, u, more, Own(id, Release));
    assert u.procs == s.procs - {id};
  }

  // ---- lock safety, the other way ----------------------------------------------------------

  /** A live deploy is granted the lock while somebody is still going to release it. */
  lemma LostInTheWindow(from: State, s: State, steps: seq<Step>, id: int) returns (u: State, more: seq<Step>, j: int)
    requires After(from, steps) == Some(s) && LocksAgree(s)
    requires Do(s, Own(id, TryLock)).Some? && !Clean(s, Own(id, TryLock))
    ensures steps + [Own(id, TryLock)] <= more && After(from, more) == Some(u) && Overlap(u, id, j)
  {
    hide After;
    var app := s.t.deploys[id].app;
    u, more := Take(from, s, steps, Own(id, TryLock));
    if app in s.releases {
      u, more := Take(from, u, more, RecRelease(app));
    } else {
      var k :| Doomed(s, k) && s.t.deploys[k].app == app;
      u, more := TakeDoomed(from, u, more, k);
    }
    u, more, j := TakeBeside(from, u, more, id);
  }

  /** A reconciler finishes the row of a deploy that is executing its stages. */
  lemma LostUnderWay(from: State, s: State, steps: seq<Step>, id: int, status: Status)
    returns (u: State, more: seq<Step>, j: int)
    requires After(from, steps) == Some(s) && LocksAgree(s)
    requires Do(s, RecFinish(id, status)).Some? && id in s.procs && Executing(s.procs[id])
    ensures steps + [RecFinish(id, status)] <= more && After(from, more) == Some(u) && Overlap(u, id, j)
  {
    hide After;
    assert Active(s, id) && Holds(s.t, id);
    u, more := Take(from, s, steps, RecFinish(id, status));
    u, more, j := TakeBeside(from, u, more, id);
  }

  /** Once the app's lock has been taken from a process that relies on it. */
  lemma LostOnceDropped(from: State, s: State, steps: seq<Step>, k: int)
    returns (u: State, more: seq<Step>, i: int, j: int)
    requires After(from, steps) == Some(s) && Numbered(s) && Active(s, k) && s.t.deploys[k].app !in s.t.locks
    ensures steps <= more && After(from, more) == Some(u) && Overlap(u, i, j)
  {
    hide After;
    u, more, i := s, steps, k;
    if s.procs[k] == Releasing {
      i := s.t.nextDeploy;
      u, more := TakeReservation(from, u, more, s.t.deploys[k].app);
      u, more := Take(from, u, more, Own(k, Release));
    }
    u, more, j := TakeBeside(from, u, more, i);
  }

  /** A reconciler finishes one row of an app while another deploy of the app relies on the lock. */
  lemma LostToReconcile(from: State, s: State, steps: seq<Step>, id: int, status: Status)
    returns (u: State, more: seq<Step>, i: int, j: int)
    requires After(from, steps) == Some(s) && LocksAgree(s)
    requires Do(s, RecFinish(id, status)).Some? && s.t.deploys[id].app in s.t.locks
    requires s.t.locks[s.t.deploys[id].app] != id && Active(s, s.t.locks[s.t.deploys[id].app])
    ensures steps + [RecFinish(id, status)] <= more && After(from, more) == Some(u) && Overlap(u, i, j)
  {
    hide After;
    hide HoldersHold;
    hide WindowsClear;
    hide ExecutingIsLive;
    var app := s.t.deploys[id].app;
    var k := s.t.locks[app];
    u, more := Take(from, s, steps, RecFinish(id, status));
    u, more := Take(from, u, more, RecRelease(app));
    u, more, i, j := LostOnceDropped(from, u, more, k);
  }

  /**
   * The conditions of clean runs are the exact ones: where the locks are in order, every step that is
   * not clean can be followed by steps that bring two deploys of one app into their stages at once.
   */
  lemma UncleanStepsOverlap(from: State, s: State, steps: seq<Step>, step: Step)
    returns (u: State, more: seq<Step>, i: int, j: int)
    requires After(from, steps) == Some(s) && LocksAgree(s) && Do(s, step).Some? && !Clean(s, step)
    ensures steps + [step] <= more && After(from, more) == Some(u) && Overlap(u, i, j)
  {
    hide After;
    hide LocksAgree;
    match step {
      case Own(id, act) =>
        i := id;
        u, more, j := LostInTheWindow(from, s, steps, id);
      case RecFinish(id, status) =>
        if id in s.procs && Executing(s.procs[id]) {
          i := id;
          u, more, j := LostUnderWay(from, s, steps, id, status);
        } else {
          u, more, i, j := LostToReconcile(from, s, steps, id, status);
        }
    }
  }

  // ---- timelines, the other way ------------------------------------------------------------

  /** What a process that will still store an event does next on its way to it. */
  function NextAct(pc: Pc): Act {
    match pc
    case Locking => TryLock
    case Rejecting => Reject
    case Starting(_) => Start
    case Working(_) => Work(true)
    case Succeeding(_) => Succeed
    case Breaking(_) => Break
    case Undoing(_) => Undo(true)
    case Storing => Put(WorkloadSpec("", "", None, [], [], [], [], None, None, No, None, []))
    case Finishing(_, _) => Act.Finish
    case _ => HookFinish
  }

  /** How many more steps it takes before the event. */
  function Quietly(pc: Pc): nat {
    match pc
    case Locking => 3
    case Rejecting => 2
    case Working(_) => 1
    case Undoing(_) => 1
    case Storing => 1
    case _ => 0
  }

  lemma SpeakingStep(s: State, id: int)
    requires Speaking(s, id) && Timeline(s.t, id).Closed?
    ensures var act := NextAct(s.procs[id]);
            && DoOwn(s, id, act).Some?
            && var u := DoOwn(s, id, act).value;
               || Timeline(u.t, id) == Malformed
               || (Speaking(u, id) && Timeline(u.t, id) == Timeline(s.t, id)
                   && Quietly(u.procs[id]) < Quietly(s.procs[id]))
  {
    hide Timeline;
    EventTimelines(s, id, NextAct(s.procs[id]), id);
  }

  lemma {:induction false} SpeaksAfterItsEnd(from: State, s: State, steps: seq<Step>, id: int)
    returns (u: State, more: seq<Step>)
    requires After(from, steps) == Some(s) && Speaking(s, id) && Timeline(s.t, id).Closed?
    ensures steps <= more && After(from, more) == Some(u) && Timeline(u.t, id) == Malformed
    decreases Quietly(s.procs[id])
  {
    hide After;
    hide Timeline;
    hide DoOwn;
    SpeakingStep(s, id);
    u, more := Take(from, s, steps, Own(id, NextAct(s.procs[id])));
    if Timeline(u.t, id) != Malformed {
      u, more := SpeaksAfterItsEnd(from, u, more, id);
    }
  }

  /**
   * The condition of timely runs is the exact one: where rows and timelines agree, every step that is
   * not timely can be followed by steps that leave its deploy with a timeline outside the grammar.
   */
  lemma UntimelyStepsMalform(from: State, s: State, steps: seq<Step>, id: int, status: Status)
    returns (u: State, more: seq<Step>)
    requires After(from, steps) == Some(s) && RowsAgree(s) && Do(s, RecFinish(id, status)).Some?
    requires !Timely(s, RecFinish(id, status))
    ensures steps + [RecFinish(id, status)] <= more && After(from, more) == Some(u) && Timeline(u.t, id) == Malformed
  {
    hide After;
    hide Timeline;
    FinishTimeline(s.t, id, status, id);
    assert RowAgrees(s, id);
    AgreesMeans(s.t.deploys[id], PcOf(s, id), Timeline(s.t, id), Refused(s, id));
    u, more := Take(from, s, steps, RecFinish(id, status));
    if Timeline(u.t, id) != Malformed {
      u, more := SpeaksAfterItsEnd(from, u, more, id);
    }
  }

  // ---- the shortest runs that break it -----------------------------------------------------

  lemma TakeFirst() returns (s: State, steps: seq<Step>)
    ensures After(Empty(), steps) == Some(s)
    ensures s == State(Tables(map[1 := DeployRow(1, "web", Detect, InProgress)], 2, map["web" := 1], [], 1, map[],
              map[]),
                       map[1 := Queued], multiset{})
  {
    NothingYet(Empty());
    s, steps := TakeReservation(Empty(), Empty(), [], "web");
  }

  /** The first deploy fails in Detect. */
  lemma TakeFirstToItsFailure() returns (s: State, steps: seq<Step>)
    ensures After(Empty(), steps) == Some(s) && Consistent(s.t)
    ensures s.t.deploys == map[1 := DeployRow(1, "web", Detect, InProgress)] && s.t.locks == map["web" := 1]
    ensures s.procs == map[1 := Breaking(Detect)] && s.releases == multiset{}
  {
    hide After;
    s, steps := TakeFirst();
    s, steps := Take(Empty(), s, steps, Own(1, Go));
    s, steps := Take(Empty(), s, steps, Own(1, Advance));
    s, steps := Take(Empty(), s, steps, Own(1, Start));
    s, steps := Take(Empty(), s, steps, Own(1, Work(false)));
  }

  /** It is undone, and has just committed its end. */
  lemma TakeFirstToItsEnd() returns (s: State, steps: seq<Step>)
    ensures After(Empty(), steps) == Some(s) && Consistent(s.t)
    ensures s.t.deploys == map[1 := DeployRow(1, "web", Detect, Status.RolledBack)] && s.t.locks == map[]
    ensures s.procs == map[1 := Releasing] && s.releases == multiset{}
  {
    hide After;
    s, steps := TakeFirstToItsFailure();
    s, steps := Take(Empty(), s, steps, Own(1, Break));
    s, steps := Take(Empty(), s, steps, Own(1, Undo(true)));
    s, steps := Take(Empty(), s, steps, Own(1, Act.Finish));
  }

  /** The first deploy hits a store error at its first stage: its row stays in progress, its lock is gone. */
  lemma TakeFirstAstray() returns (s: State, steps: seq<Step>)
    ensures After(Empty(), steps) == Some(s)
    ensures s == State(Tables(map[1 := DeployRow(1, "web", Detect, InProgress)], 2, map[], [], 1, map[], map[]),
              map[], multiset{})
  {
    hide After;
    s, steps := TakeFirst();
    s, steps := Take(Empty(), s, steps, Own(1, Go));
    s, steps := Take(Empty(), s, steps, Own(1, Fault));
    s, steps := Take(Empty(), s, steps, Own(1, Release));
  }

  /**
   * A reservation in the window loses its lock to the earlier run's release, and another deploy then
   * runs beside it.
   */
  lemma LockLostInTheWindow() returns (s: State, steps: seq<Step>, i: int, j: int)
    ensures After(Empty(), steps) == Some(s) && Overlap(s, i, j)
  {
    hide After;
    s, steps := TakeFirstToItsEnd();
    i := s.t.nextDeploy;
    assert LocksAgree(s);
    CreateKeepsLocks(s, "web", Locking);
    s, steps := Take(Empty(), s, steps, Reserve("web"));
    assert Doomed(s, 1);
    s, steps, j := LostInTheWindow(Empty(), s, steps, i);
  }

  /**
   * A run that hits a store error leaves a row in progress with no lock. A reconcile that finds it
   * while the next deploy of the app is queued releases that deploy's lock.
   */
  lemma LockLostToReconcile() returns (s: State, steps: seq<Step>, i: int, j: int)
    ensures After(Empty(), steps) == Some(s) && Overlap(s, i, j)
  {
    hide After;
    s, steps := TakeFirstAstray();
    s, steps := TakeReservation(Empty(), s, steps, "web");
    assert LocksAgree(s) && Active(s, 2);
    s, steps, i, j := LostToReconcile(Empty(), s, steps, 1, Status.RolledBack);
  }

  /** A reconcile that overlaps a hook still working on its reservation ends the deploy twice. */
  lemma EndedTwice() returns (s: State, steps: seq<Step>)
    ensures After(Empty(), steps) == Some(s) && Timeline(s.t, 1) == Malformed
  {
    hide After;
    s, steps := TakeFirst();
    assert RowAgrees(s, 1);
    s, steps := UntimelyStepsMalform(Empty(), s, steps, 1, Status.RolledBack);
  }
}
