/**
 * What the stored events of one deploy amount to, read one by one, and how that fits the deploy's row.
 */
module Timelines {
  import opened Tables

  /**
   * What a deploy's events so far amount to: `done` finished stages, then perhaps an open or broken
   * one, then the end.
   */
  datatype Shape = Between(done: nat) | Open(done: nat) | Halted(done: nat) | Closed(body: Shape,
      outcome: Status) | Malformed

  function Extend(shape: Shape, kind: EventKind): Shape {
    match kind
    case Finished(outcome) => if shape.Closed? || shape.Malformed? then Malformed else Closed(shape, outcome)
    case StageEvent(stage, status) =>
      match status
      case Started => if shape == Between(stage.Rank()) then Open(stage.Rank()) else Malformed
      case Succeeded => if shape == Open(stage.Rank()) then Between(stage.Rank() + 1) else Malformed
      case Broken => if shape == Open(stage.Rank()) then Halted(stage.Rank()) else Malformed
  }

  function ShapeOf(events: seq<StoredEvent>): Shape {
    if events == [] then Between(0) else Extend(ShapeOf(events[..|events| - 1]), events[|events| - 1].event.kind)
  }

  function Timeline(t: Tables, id: int): Shape {
    ShapeOf(EventsFor(t.events, id))
  }

  lemma TimelinePush(t: Tables, event: Event, id: int)
    ensures Timeline(Append(t, event), id) == if event.deployId == id then Extend(Timeline(t, id), event.kind)
              else Timeline(t, id)
  {
    var e := StoredEvent(t.nextEvent, event);
    EventsForPush(t.events, e, id);
    assert (EventsFor(t.events, id) + [e])[..|EventsFor(t.events, id)|] == EventsFor(t.events, id);
    assert EventsFor(t.events, id) + [] == EventsFor(t.events, id);
  }

  function StageAt(rank: nat): Stage
    requires rank < 6
  {
    [Detect, Build, Secrets, Stage.Apply, Stage.Route, Healthcheck][rank]
  }

  /** The started and succeeded pairs of the first `n` stages. */
  function Pairs(n: nat): seq<EventKind>
    requires n <= 6
  {
    if n == 0 then [] else Pairs(n - 1) + [StageEvent(StageAt(n - 1), Started), StageEvent(StageAt(n - 1), Succeeded)]
  }

  predicate Proper(shape: Shape) {
    (shape.Between? && shape.done <= 6) || (shape.Open? && shape.done < 6) || (shape.Halted? && shape.done < 6)
  }

  /** A timeline without its end. */
  function Body(shape: Shape): seq<EventKind>
    requires Proper(shape)
  {
    match shape
    case Between(n) => Pairs(n)
    case Open(n) => Pairs(n) + [StageEvent(StageAt(n), Started)]
    case Halted(n) => Pairs(n) + [StageEvent(StageAt(n), Started), StageEvent(StageAt(n), Broken)]
  }

  function Kinds(events: seq<StoredEvent>): (kinds: seq<EventKind>)
    ensures |kinds| == |events|
  {
    seq(|events|, i requires 0 <= i < |events| => events[i].event.kind)
  }

  /**
   * Pairs in stage order, then at most one open or failed stage, then at most one end and nothing
   * after it.
   */
  ghost predicate Grammatical(kinds: seq<EventKind>, shape: Shape) {
    if shape.Malformed? then false
    else if shape.Closed? then Proper(shape.body) && kinds == Body(shape.body) + [Finished(shape.outcome)]
    else Proper(shape) && kinds == Body(shape)
  }

  lemma ExtendIsGrammar(kinds: seq<EventKind>, shape: Shape, kind: EventKind)
    requires Grammatical(kinds, shape) && Extend(shape, kind) != Malformed
    ensures Grammatical(kinds + [kind], Extend(shape, kind))
  {
    match kind {
      case Finished(o) =>
        assert Proper(shape) && kinds + [kind] == Body(shape) + [Finished(o)];
      case StageEvent(stage, status) =>
        var r := stage.Rank();
        assert StageAt(r) == stage;
        match status {
          case Started =>
          case Succeeded => assert Pairs(r) + [StageEvent(stage, Started)] + [kind] == Pairs(r + 1);
          case Broken => assert Pairs(r) + [StageEvent(stage, Started)] + [kind] == Body(Halted(r));
        }
    }
  }

  lemma KindsPush(events: seq<StoredEvent>)
    requires events != []
    ensures Kinds(events) == Kinds(events[..|events| - 1]) + [events[|events| - 1].event.kind]
  {
  }

  /** A timeline whose shape is not malformed follows the grammar. */
  lemma {:induction false} ShapeIsGrammar(events: seq<StoredEvent>)
    requires ShapeOf(events) != Malformed
    ensures Grammatical(Kinds(events), ShapeOf(events))
  {
    if events == [] {
      assert Kinds(events) == Body(Between(0));
    } else {
      hide Grammatical;
      hide Extend;
      var n := |events| - 1;
      ShapeIsGrammar(events[..n]);
      ExtendIsGrammar(Kinds(events[..n]), ShapeOf(events[..n]), events[n].event.kind);
      KindsPush(events);
    }
  }

  // ---- the row beside the timeline ---------------------------------------------------------

  /** A row no process is working on: the stage is the last one advanced to. */
  predicate Stranded(row: DeployRow, shape: Shape) {
    match shape
    case Between(n) => n == row.stage.Rank() || n == row.stage.Rank() + 1
    case Open(n) => n == row.stage.Rank()
    case Halted(n) => n == row.stage.Rank()
    case _ => false
  }

  /**
   * The row has finished and its one end is stored: its stage is the last one advanced to, and it is
   * done only after all six stages.
   */
  predicate Concluded(row: DeployRow, shape: Shape) {
    && shape.Closed? && shape.outcome == row.status
    && Stranded(row, shape.body) && (row.status == Done ==> shape.body == Between(6))
  }

  /** A finished row has its one terminal event, except a row `reserve` turned away. */
  predicate Over(row: DeployRow, shape: Shape) {
    Concluded(row, shape) || TurnedAway(row, shape)
  }

  predicate TurnedAway(row: DeployRow, shape: Shape) {
    row.status == Status.Failed && row.stage == Detect && shape == Between(0)
  }

  predicate Fresh(row: DeployRow, shape: Shape) {
    row.status == InProgress && row.stage == Detect && shape == Between(0)
  }

  // ---- steps -------------------------------------------------------------------------------

  lemma FinishTimeline(t: Tables, id: int, status: Status, k: int)
    requires id in t.deploys
    ensures Timeline(FinishWithEvent(t, id, status).value, k) == if k == id
              then Extend(Timeline(t, id), Finished(status)) else Timeline(t, k)
  {
    TimelinePush(SetStatus(t, id, status).(locks := DropLocksOf(t.locks, id)), Event(id, Finished(status)), k);
  }

  lemma {:induction false} NoEvents(events: seq<StoredEvent>, id: int)
    requires forall i | 0 <= i < |events| :: events[i].event.deployId != id
    ensures EventsFor(events, id) == []
  {
    if events != [] {
      NoEvents(events[..|events| - 1], id);
    }
  }

  /** A deploy's row and timeline fit together, with no process at work on it. */
  predicate Told(t: Tables, id: int) {
    && id in t.deploys
    && if t.deploys[id].status == InProgress then Stranded(t.deploys[id], Timeline(t, id))
        else Over(t.deploys[id], Timeline(t, id))
  }

  /** Everything before `next` is done, and `next` has yet to begin. */
  predicate Due(t: Tables, id: int, next: Stage) {
    && Live(t, id) && Timeline(t, id) == Between(next.Rank())
    && (t.deploys[id].stage.Rank() == next.Rank() || t.deploys[id].stage.Rank() + 1 == next.Rank())
  }

  /** In progress at `stage`, with this timeline. */
  predicate Within(t: Tables, id: int, stage: Stage, shape: Shape) {
    Live(t, id) && t.deploys[id].stage == stage && Timeline(t, id) == shape
  }

  lemma WithinIsTold(t: Tables, id: int, stage: Stage)
    ensures Due(t, id, stage) ==> Told(t, id)
    ensures Within(t, id, stage, Between(stage.Rank())) ==> Told(t, id)
    ensures Within(t, id, stage, Open(stage.Rank())) ==> Told(t, id)
    ensures Within(t, id, stage, Halted(stage.Rank())) ==> Told(t, id)
    ensures Within(t, id, stage, Between(stage.Rank() + 1)) ==> Told(t, id)
  {
  }

  lemma NextIsDue(t: Tables, id: int, stage: Stage, next: Stage)
    requires stage.Rank() + 1 == next.Rank()
    ensures Within(t, id, stage, Between(stage.Rank() + 1)) ==> Due(t, id, next)
  {
  }

  /** Only locks and specs differ: the same rows and the same log. */
  lemma SameLogSameTale(t: Tables, u: Tables, id: int)
    requires u.deploys == t.deploys && u.events == t.events
    ensures Timeline(u, id) == Timeline(t, id)
    ensures Told(u, id) == Told(t, id)
  {
  }
}
