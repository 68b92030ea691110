/** Whole calls on the controlled scheduler, made of its critical sections with the workers running
    in between: `advance`, the enabled query, and the replay of a decision prefix. In a calm world the
    workers are disciplined, nothing is late and the evidence fits; in any other anything may happen. */
module SyncDriver {
  import opened Schedules
  import opened ControlledSync
  import opened SyncSafety
  import opened SyncTheorems
  import opened Coordinators
  import opened SyncMisuse
  import opened SyncDeterminism
  import opened ExploredRuns
  import opened SyncReplays
  import opened SyncReached
  import ChoiceTree

  predicate Outside(l: Label) {
    l.DoRequest? || l.DoWake? || l.DoUnwind? || l.DoThrow? || l.DoExit? || l.DoForeignCall?
  }

  /** What the workers leave alone while the controller waits; a failure, once there, stays. */
  ghost predicate Meanwhile(s: State, t: State) {
    && |t.actors| == |s.actors| && (forall i :: 0 <= i < |s.actors| ==> t.actors[i].id == s.actors[i].id)
    && t.decisions == s.decisions && t.finished == s.finished && t.observations == s.observations
    && t.controller == s.controller && (s.cancelled ==> t.cancelled)
    && Decisions(t.events) == Decisions(s.events) && t.maxDecisions == s.maxDecisions
    && Kept(s, t)
  }

  /** Cancellation comes with a failure, and the first failure stays. */
  ghost predicate Kept(s: State, t: State) {
    && (s.cancelled ==> t.cancelled) && (t.cancelled ==> s.cancelled || t.outcome != Completed)
    && (t.outcome != Completed ==> t.cancelled || s.outcome != Completed)
    && (s.outcome != Completed ==> t.outcome == s.outcome && t.graph == s.graph)
  }

  lemma {:induction false} RequestIsMeanwhile(s: State, i: nat, op: Op, resource: string, value: int)
    requires i < |s.actors|
    ensures Meanwhile(s, Request(s, i, op, resource, value))
  {
    hide GraphOf, Misused, Decisions;
  }

  lemma {:induction false} WakeIsMeanwhile(s: State, i: nat, bytes: nat)
    requires i < |s.actors|
    ensures Meanwhile(s, Wake(s, i, bytes))
  {
    hide Decisions, Wake;
    WakeDecidesNothing(s, i, bytes);
    WakeFrame(s, i, bytes);
  }

  lemma {:induction false} WakeFrame(s: State, i: nat, bytes: nat)
    requires i < |s.actors|
    ensures var t := Wake(s, i, bytes);
            && |t.actors| == |s.actors| && (forall j :: 0 <= j < |s.actors| ==> t.actors[j].id == s.actors[j].id)
            && t.decisions == s.decisions && t.finished == s.finished && t.observations == s.observations
            && t.controller == s.controller && t.maxDecisions == s.maxDecisions && Kept(s, t)
  {
    hide GraphOf, Fits, Delivered, Effect;
  }

  lemma {:induction false} ExitIsMeanwhile(s: State, i: nat)
    requires i < |s.actors|
    ensures Meanwhile(s, Exit(s, i))
  {
    hide GraphOf, Holds, Released, Decisions;
  }

  lemma {:induction false} OutsideIsMeanwhile(s: State, l: Label)
    requires CanTake(s, l) && Outside(l)
    ensures Meanwhile(s, Take(s, l))
  {
    hide GraphOf, Request, Wake, Exit, Released, Decisions;
    match l
    case DoRequest(i, op, resource, value) => RequestIsMeanwhile(s, i, op, resource, value);
    case DoWake(i, bytes) => WakeIsMeanwhile(s, i, bytes);
    case DoExit(i) => ExitIsMeanwhile(s, i);
    case _ =>
  }

  /** One section of a worker. */
  method TakeOutside(c: Coordinator, l: Label)
    requires c.Valid() && Outside(l) && CanTake(c.Snapshot(), l)
    modifies c
    ensures c.Valid() && Meanwhile(old(c.Snapshot()), c.Snapshot()) && c.labels == old(c.labels) + [l]
    ensures c.Snapshot() == Take(old(c.Snapshot()), l)
  {
    OutsideIsMeanwhile(c.Snapshot(), l);
    hide Initial, Runs, CanTake, Take, Meanwhile;
    match l {
      case DoRequest(i, op, resource, value) => var refused := c.BeginRequest(i, op, resource, value);
      case DoWake(i, bytes) => var delivered := c.CompleteRequest(i, bytes);
      case DoUnwind(i, resource) => c.ReleaseOnUnwind(i, resource);
      case DoThrow(i) => c.CrashWorker(i);
      case DoExit(i) => c.FinishWorker(i);
      case DoForeignCall => c.ForeignCall();
    }
  }

  /** Any number of sections of the workers, in any order. */
  method Others(c: Coordinator)
    requires c.Valid()
    modifies c
    ensures c.Valid() && Meanwhile(old(c.Snapshot()), c.Snapshot())
  {
    hide Initial, Runs, CanTake, Take, Decisions;
    var n: int := *;
    while n > 0
      invariant c.Valid() && Meanwhile(old(c.Snapshot()), c.Snapshot())
    {
      var l: Label := *;
      if Outside(l) && CanTake(c.Snapshot(), l) { TakeOutside(c, l); }
      n := n - 1;
    }
  }

  // ----- where each section leaves the controller -------------------------------------------------------

  lemma {:induction false} AfterBarrier(s: State, late: bool)
    requires CanTake(s, DoBarrierEnd(late))
    ensures var t := Take(s, DoBarrierEnd(late)); Kept(s, t) && t.controller == Idle && t.decisions == s.decisions
  {
    hide GraphOf, AllParked;
  }

  lemma {:induction false} AfterGrant(s: State, k: Option<nat>, late: bool, bytes: nat)
    requires CanTake(s, DoAdvance(k, late, bytes))
    ensures var t := Take(s, DoAdvance(k, late, bytes));
            && Kept(s, t)
            && if t.controller.Waiting? then t.controller.actor < |t.actors| && !t.cancelled && t.decisions == s.decisions + 1
               else t.controller == Idle && t.cancelled && t.decisions == s.decisions
  {
    hide GraphOf, Enabled, Fits;
  }

  lemma {:induction false} AfterWait(s: State, late: bool, lateJoin: bool)
    requires CanTake(s, DoAdvanceEnd(late, lateJoin))
    ensures var t := Take(s, DoAdvanceEnd(late, lateJoin)); Kept(s, t) && t.controller == Idle && t.decisions == s.decisions
  {
    hide GraphOf, AllFinished;
  }

  lemma {:induction false} AfterObservation(s: State, late: bool, answer: Answer, bytes: nat)
    requires CanTake(s, DoObserve(late, answer, bytes))
    ensures var t := Take(s, DoObserve(late, answer, bytes)); Kept(s, t) && t.controller == Idle && t.decisions == s.decisions
  {
    hide GraphOf, Fits;
  }

  lemma {:induction false} AfterQuery(s: State, late: bool)
    requires CanTake(s, DoQuery(late))
    ensures var t := Take(s, DoQuery(late));
            Kept(s, t) && t.controller == Idle && t.decisions == s.decisions && (t.outcome == Completed ==> t == s && !late)
  {
    hide GraphOf, NoneEnabled, AllFinished, AllParked;
  }

  // ----- whole calls ----------------------------------------------------------------------------------------

  /** A calm world: workers of a given behaviour, with nothing late and rows of a given size. */
  datatype Calm = Calm(behaviour: Behaviour, shape: Shape, size: nat)

  /** The coordinator has come to rest after `path`, with room for `rows` more rows. */
  ghost predicate RestsAt(calm: Calm, c: Coordinator, path: seq<string>, rows: nat)
    reads c
  {
    Rests(calm.behaviour, calm.shape, c.start, c.Snapshot(), path, calm.size, rows)
  }

  ghost predicate MovesAt(calm: Calm, c: Coordinator, path: seq<string>, rows: nat, k: nat)
    reads c
  {
    Moves(calm.behaviour, calm.shape, c.start, c.Snapshot(), path, calm.size, rows, k)
  }

  /** The observation after a boundary, skipped once the run is cancelled. */
  method ObserveBoundary(c: Coordinator, calm: Option<Calm>, ghost path: seq<string>, ghost rows: nat)
    requires c.Valid() && c.controller == Idle && (calm.Some? ==> rows > 0 && RestsAt(calm.value, c, path, rows))
    modifies c
    ensures c.Valid() && Kept(old(c.Snapshot()), c.Snapshot()) && c.controller == Idle && c.decisions == old(c.decisions)
    ensures c.events == old(c.events)
    ensures calm.Some? ==> RestsAt(calm.value, c, path, rows - 1)
  {
    hide Initial, Runs, Take, Rests;
    if calm.Some? { AtRestThere(calm.value.behaviour, calm.value.shape, c.start, c.Snapshot(), path, calm.value.size, rows); }
    if c.cancelled { return; }
    var late, answer, size := *, *, *;
    var bytes: nat := if size < 0 then 0 else size;
    if calm.Some? {
      late, answer, bytes := false, Sound, calm.value.size;
      ghost var t := ObserveStage(calm.value.behaviour, calm.value.shape, c.start, c.Snapshot(), path, calm.value.size, rows);
    }
    AfterObservation(c.Snapshot(), late, answer, bytes);
    OnlyTwoLog(c.Snapshot(), DoObserve(late, answer, bytes));
    c.RetainObservation(late, answer, bytes);
  }

  /** In a calm world the granted worker takes its result and comes to its next boundary. */
  method LetMove(c: Coordinator, calm: Calm, k: nat, ghost path: seq<string>, ghost rows: nat)
    requires c.Valid() && rows > 0 && MovesAt(calm, c, path, rows, k) && k < |c.actors|
    requires c.controller == Waiting(k, c.actors[k].version) && c.actors[k].where == InRequest && c.actors[k].grant
    modifies c
    ensures c.Valid() && MovesAt(calm, c, path, rows - 1, k) && k < |c.actors| && c.controller.Waiting? && c.actors[k].version != c.controller.version
    ensures Meanwhile(old(c.Snapshot()), c.Snapshot())
  {
    hide Initial, Runs, Take, CanTake, Reaches, Fair, Has, Meanwhile;
    ghost var s := c.Snapshot();
    ghost var t := WakeStage(calm.behaviour, calm.shape, c.start, c.Snapshot(), path, calm.size, rows, k);
    TakeOutside(c, DoWake(k, calm.size));
    var l := Next(calm.behaviour, c.Snapshot(), k);
    ghost var u := BoundaryStage(calm.behaviour, calm.shape, c.start, c.Snapshot(), path, calm.size, rows - 1, k);
    ghost var m := c.Snapshot();
    TakeOutside(c, l);
    MeanwhileTwice(s, m, c.Snapshot());
  }

  lemma {:induction false} MeanwhileTwice(s: State, t: State, u: State)
    requires Meanwhile(s, t) && Meanwhile(t, u)
    ensures Meanwhile(s, u)
  {
  }

  /** `advance`: grant, wait for the boundary, observe. Not cancelled, it has taken exactly the decision it
      was asked for; in a calm world it comes to rest after any choice that is offered. */
  method AdvanceBy(c: Coordinator, id: string, calm: Option<Calm>, ghost path: seq<string>, ghost rows: nat)
    requires c.Valid() && c.controller == Idle
    requires calm.Some? ==> rows >= 3 && RestsAt(calm.value, c, path, rows) && |path| < c.maxDecisions
                            && Offers(calm.value.behaviour, calm.value.shape, path, id)
    modifies c
    ensures c.Valid() && c.controller == Idle && Kept(old(c.Snapshot()), c.Snapshot())
    ensures !c.cancelled ==> c.decisions == old(c.decisions) + 1 && Decisions(c.events) == Decisions(old(c.events)) + [id]
    ensures calm.Some? ==> RestsAt(calm.value, c, path + [id], rows - 3)
  {
    hide Initial, Runs, Take, CanTake, Rests, Moves, Decisions, Offers, Meanwhile;
    ghost var s := c.Snapshot();
    var late, size := *, *;
    var bytes: nat := if size < 0 then 0 else size;
    if calm.Some? {
      late, bytes := false, calm.value.size;
      ghost var t, j := GrantStage(calm.value.behaviour, calm.value.shape, c.start, s, path, id, calm.value.size, rows);
    }
    CanAsk(s, IndexOf(c.actors, id, 0), late, bytes);
    AfterGrant(s, IndexOf(c.actors, id, 0), late, bytes);
    if !s.cancelled { GrantDecides(s, IndexOf(c.actors, id, 0), late, bytes); }
    c.GrantActor(id, late, bytes);
    if c.controller.Waiting? {
      ghost var m := c.Snapshot();
      if calm.Some? { LetMove(c, calm.value, c.controller.actor, path + [id], rows - 1); } else { Others(c); }
      MeanwhileKeeps(m, c.Snapshot());
      FinishAdvance(c, calm, path + [id], if calm.Some? then rows - 2 else 0);
    }
  }

  lemma {:induction false} CanAsk(s: State, k: Option<nat>, late: bool, bytes: nat)
    requires s.controller == Idle && (k.Some? ==> k.value < |s.actors|)
    ensures CanTake(s, DoAdvance(k, late, bytes))
  {
  }

  /** A grant decides for its actor; a refusal cancels. */
  lemma {:induction false} GrantDecides(s: State, k: Option<nat>, late: bool, bytes: nat)
    requires CanTake(s, DoAdvance(k, late, bytes)) && !s.cancelled
    ensures var t := Take(s, DoAdvance(k, late, bytes));
            t.cancelled || (k.Some? && Decisions(t.events) == Decisions(s.events) + [s.actors[k.value].id])
  {
    hide GraphOf, Enabled, Fits, Decisions;
    if k.Some? {
      var a := s.actors[k.value];
      OneMoreRow(s.events, Granted(a.id, a.pending.op, a.pending.resource, bytes));
    }
  }

  /** The end of an advance: the wait is over, or the deadline is; then the boundary is observed. */
  method FinishAdvance(c: Coordinator, calm: Option<Calm>, ghost path: seq<string>, ghost rows: nat)
    requires c.Valid() && c.controller.Waiting? && c.controller.actor < |c.actors|
    requires calm.Some? ==> rows > 0 && MovesAt(calm.value, c, path, rows, c.controller.actor)
                            && c.actors[c.controller.actor].version != c.controller.version
    modifies c
    ensures c.Valid() && c.controller == Idle && Kept(old(c.Snapshot()), c.Snapshot())
    ensures c.decisions == old(c.decisions) && c.events == old(c.events)
    ensures calm.Some? ==> RestsAt(calm.value, c, path, rows - 1)
  {
    hide Initial, Runs, Take, Rests, Moves;
    var late, lateJoin := *, *;
    var k := c.controller.actor;
    if calm.Some? {
      late, lateJoin := false, false;
      ghost var t := RestStage(calm.value.behaviour, calm.value.shape, c.start, c.Snapshot(), path, calm.value.size, rows, k);
    } else if !(c.cancelled || c.actors[k].version != c.controller.version) {
      late := true;
    }
    assert CanTake(c.Snapshot(), DoAdvanceEnd(late, lateJoin));
    AfterWait(c.Snapshot(), late, lateJoin);
    OnlyTwoLog(c.Snapshot(), DoAdvanceEnd(late, lateJoin));
    c.EndWait(late, lateJoin);
    ObserveBoundary(c, calm, path, rows);
  }

  /** In a calm world every worker asks to start. */
  method StartEveryone(c: Coordinator, calm: Calm)
    requires c.Valid() && c.labels == [] && Initial(c.start) && StartsUp(calm.behaviour) && Begins(c.start, calm.shape)
    requires Disciplined(calm.behaviour, Kinds(c.start))
    modifies c
    ensures c.Valid() && Reaches(calm.behaviour, calm.shape, c.start, c.Snapshot()) && Fair(calm.behaviour, calm.shape, c.Snapshot())
    ensures Asked(c.start, c.Snapshot(), |c.start.actors|) && Kept(old(c.Snapshot()), c.Snapshot()) && c.controller == old(c.controller)
    ensures c.decisions == old(c.decisions)
  {
    Beginning(c, calm);
    hide Initial, Runs, Take, CanTake, Reaches, Fair, Disciplined, StartsUp, Begins, Meanwhile;
    MeanwhileNothing(c.Snapshot());
    for i := 0 to |c.actors|
      invariant c.Valid() && |c.actors| == |c.start.actors| == |old(c.actors)|
      invariant Reaches(calm.behaviour, calm.shape, c.start, c.Snapshot()) && Fair(calm.behaviour, calm.shape, c.Snapshot())
      invariant Asked(c.start, c.Snapshot(), i) && Meanwhile(old(c.Snapshot()), c.Snapshot())
    {
      ghost var m := c.Snapshot();
      AsksNext(calm.behaviour, calm.shape, c.start, c.Snapshot(), i);
      GoOn(calm.behaviour, calm.shape, c.start, c.Snapshot(), DoRequest(i, Start, "", 0));
      TakeOutside(c, DoRequest(i, Start, "", 0));
      MeanwhileTwice(old(c.Snapshot()), m, c.Snapshot());
    }
    MeanwhileKeeps(old(c.Snapshot()), c.Snapshot());
  }

  lemma {:induction false} Beginning(c: Coordinator, calm: Calm)
    requires c.Valid() && c.labels == [] && Initial(c.start) && StartsUp(calm.behaviour) && Begins(c.start, calm.shape)
    requires Disciplined(calm.behaviour, Kinds(c.start))
    ensures Reaches(calm.behaviour, calm.shape, c.start, c.Snapshot()) && Fair(calm.behaviour, calm.shape, c.Snapshot())
    ensures Asked(c.start, c.Snapshot(), 0)
  {
    assert c.Snapshot() == c.start;
    InitialFair(calm.behaviour, calm.shape, c.start);
    Nowhere(calm.behaviour, calm.shape, c.start);
    hide Reaches, Fair, Disciplined, StartsUp, Begins;
  }

  lemma {:induction false} MeanwhileNothing(s: State)
    ensures Meanwhile(s, s)
  {
  }

  lemma {:induction false} MeanwhileKeeps(s: State, t: State)
    requires Meanwhile(s, t)
    ensures Kept(s, t) && t.decisions == s.decisions && t.controller == s.controller
    ensures |t.actors| == |s.actors| && Decisions(t.events) == Decisions(s.events)
  {
    hide Decisions;
  }

  /** A calm world for replaying `prefix`: a path of the tree that decisions and evidence have room for. */
  ghost predicate CanReplay(calm: Calm, start: State, prefix: seq<string>) {
    && StartsUp(calm.behaviour) && Begins(start, calm.shape) && Disciplined(calm.behaviour, Kinds(start))
    && ChoiceTree.InTree(ProgramOf(calm.behaviour, calm.shape), prefix) && |prefix| <= start.maxDecisions
    && 4 + (3 * |prefix| + 1) * (calm.size + 1) <= start.maxEvidenceBytes
  }

  /** Waits at the initial barrier, for everybody or for the deadline. */
  method Gather(c: Coordinator, calm: Option<Calm>, ghost rows: nat) returns (late: bool)
    requires c.Valid() && c.labels == []
    requires calm.Some? ==> StartsUp(calm.value.behaviour) && Begins(c.start, calm.value.shape)
                            && Disciplined(calm.value.behaviour, Kinds(c.start)) && 4 + rows * (calm.value.size + 1) <= c.start.maxEvidenceBytes
    modifies c
    ensures c.Valid() && CanTake(c.Snapshot(), DoBarrierEnd(late)) && (c.cancelled <==> c.outcome != Completed)
    ensures c.decisions == 0 && Decisions(c.events) == []
    ensures calm.Some? ==> !late && Rests(calm.value.behaviour, calm.value.shape, c.start, Take(c.Snapshot(), DoBarrierEnd(late)), [], calm.value.size, rows)
  {
    JustBegun(c);
    hide Initial, Runs, Take, Rests, Disciplined, StartsUp, Begins, Reaches, Fair, Decisions, Kinds, Meanwhile;
    late := *;
    ghost var s := c.Snapshot();
    if calm.Some? {
      StartEveryone(c, calm.value);
      late := false;
      ghost var t := PassesBarrier(calm.value.behaviour, calm.value.shape, c.start, c.Snapshot(), calm.value.size, rows);
      NothingDecided(c.start, c.Snapshot());
    } else {
      Others(c);
      MeanwhileKeeps(s, c.Snapshot());
      if !(c.cancelled || AllParked(c.Snapshot())) { late := true; }
    }
  }

  lemma {:induction false} NothingDecided(start: State, s: State)
    requires Asked(start, s, |start.actors|)
    ensures Decisions(s.events) == [] && s.decisions == 0
  {
  }

  /** The initial barrier. */
  method Begin(c: Coordinator, calm: Option<Calm>, ghost rows: nat)
    requires c.Valid() && c.labels == []
    requires calm.Some? ==> rows > 0 && StartsUp(calm.value.behaviour) && Begins(c.start, calm.value.shape)
                            && Disciplined(calm.value.behaviour, Kinds(c.start)) && 4 + rows * (calm.value.size + 1) <= c.start.maxEvidenceBytes
    modifies c
    ensures c.Valid() && c.controller == Idle && (c.cancelled <==> c.outcome != Completed)
    ensures !c.cancelled ==> c.decisions == 0 && Decisions(c.events) == []
    ensures calm.Some? ==> RestsAt(calm.value, c, [], rows - 1)
  {
    hide Initial, Runs, Take, CanTake, Rests, Disciplined, StartsUp, Begins, Decisions, Kinds;
    var late := Gather(c, calm, rows);
    AfterBarrier(c.Snapshot(), late);
    OnlyTwoLog(c.Snapshot(), DoBarrierEnd(late));
    c.PassBarrier(late);
    ObserveBoundary(c, calm, [], rows);
  }

  lemma {:induction false} JustBegun(c: Coordinator)
    requires c.Valid() && c.labels == []
    ensures c.controller == AtBarrier && !c.cancelled && c.outcome == Completed && c.decisions == 0
    ensures c.events == [] && Decisions(c.events) == [] && Initial(c.start) && c.Snapshot() == c.start
  {
  }

  /** One advance per decision, until the run fails. */
  method Decide(c: Coordinator, prefix: seq<string>, calm: Option<Calm>)
    requires c.Valid() && c.labels == [] && (calm.Some? ==> CanReplay(calm.value, c.start, prefix))
    modifies c
    ensures c.Valid() && c.controller == Idle && (c.cancelled <==> c.outcome != Completed)
    ensures !c.cancelled ==> c.decisions == |prefix| && Decisions(c.events) == prefix
    ensures calm.Some? ==> RestsAt(calm.value, c, prefix, 0)
  {
    hide Initial, Runs, Take, Rests, Disciplined, StartsUp, Begins, Decisions, Offers, Kinds, CanReplay, ProgramOf;
    if calm.Some? { CanBegin(calm.value, c.start, prefix); }
    Begin(c, calm, 3 * |prefix| + 1);
    assert prefix[..0] == [];
    for i := 0 to |prefix|
      invariant c.Valid() && c.controller == Idle && (c.cancelled <==> c.outcome != Completed)
      invariant !c.cancelled ==> c.decisions == i && Decisions(c.events) == prefix[..i]
      invariant calm.Some? ==> RestsAt(calm.value, c, prefix[..i], 3 * (|prefix| - i))
    {
      assert prefix[..i + 1] == prefix[..i] + [prefix[i]];
      if calm.Some? { Onward(calm.value, c, prefix, i); }
      if c.outcome == Completed { AdvanceBy(c, prefix[i], calm, prefix[..i], 3 * (|prefix| - i)); }
    }
    assert prefix[..|prefix|] == prefix;
  }

  lemma {:induction false} CanBegin(calm: Calm, start: State, prefix: seq<string>)
    requires CanReplay(calm, start, prefix)
    ensures StartsUp(calm.behaviour) && Begins(start, calm.shape) && Disciplined(calm.behaviour, Kinds(start))
    ensures 4 + (3 * |prefix| + 1) * (calm.size + 1) <= start.maxEvidenceBytes
  {
    hide StartsUp, Begins, Disciplined, ProgramOf;
  }

  lemma {:induction false} Onward(calm: Calm, c: Coordinator, prefix: seq<string>, i: nat)
    requires i < |prefix| && c.Valid() && CanReplay(calm, c.start, prefix) && RestsAt(calm, c, prefix[..i], 3 * (|prefix| - i))
    ensures !c.cancelled && c.outcome == Completed && i < c.maxDecisions && Offers(calm.behaviour, calm.shape, prefix[..i], prefix[i])
  {
    var program := ProgramOf(calm.behaviour, calm.shape);
    Reachable(c.start, c.labels, c.Snapshot());
    AtRestThere(calm.behaviour, calm.shape, c.start, c.Snapshot(), prefix[..i], calm.size, 3 * (|prefix| - i));
    NotYetFailed(c.Snapshot());
    hide Initial, Runs, Rests, ProgramOf, Disciplined, StartsUp, Begins, Inv;
    ChoiceTree.Ancestor(program, prefix, i);
  }

  /** Replays a prefix of decisions, asks what is enabled, and cancels what is left. What it
      reports is the first failure if there is one. Without one, exactly these decisions were taken, the
      answer is exactly the enabled actors, and there is one unless all have finished. A deadlock
      leaves a stuck graph behind. In a calm world it reports the node of the prefix. */
  method Replay(c: Coordinator, prefix: seq<string>, calm: Option<Calm>) returns (report: Outcome, enabled: seq<string>, ghost at: State)
    requires c.Valid() && c.labels == [] && (calm.Some? ==> CanReplay(calm.value, c.start, prefix))
    modifies c
    ensures c.Valid() && c.cancelled && (report != Completed ==> c.outcome == report)
    ensures report == Completed ==>
              && at.decisions == |prefix| && Decisions(at.events) == prefix
              && enabled == EnabledIds(at, 0) && (enabled == [] <==> AllFinished(at))
    ensures report == ControlledDeadlock ==> c.graph.Some? && Stuck(c.resources, c.graph.value)
    ensures calm.Some? ==>
              match ProgramOf(calm.value.behaviour, calm.value.shape)(prefix)
              case Deadlocked => report == ControlledDeadlock
              case Finished => report == Completed && enabled == []
              case Open(choices) => report == Completed && enabled == choices && AllFinished(at) == false
  {
    hide Initial, Runs, Take, Stuck, CanReplay, Decisions, ProgramOf;
    Decide(c, prefix, calm);
    var late := *;
    at := c.Snapshot();
    if calm.Some? {
      late := false;
      ShowsItsNode(calm.value, c, prefix);
    }
    AfterQuery(at, late);
    if !late && !at.cancelled && Query(at, false).outcome == Completed { NobodyForgotten(c.start, c.labels, at); }
    assert Take(at, DoQuery(late)) == Query(at, late) by { TakeQuery(at, late); }
    enabled := c.QueryEnabled(late);
    report := c.outcome;
    AfterCancel(c.Snapshot());
    c.CancelRun();
    if report == ControlledDeadlock { DeadlockVerdict(c.start, c.labels, c.Snapshot()); }
  }

  /** A calm replay has come to rest where the program shows the node of its prefix. */
  lemma {:induction false} ShowsItsNode(calm: Calm, c: Coordinator, prefix: seq<string>)
    requires c.Valid() && CanReplay(calm, c.start, prefix) && RestsAt(calm, c, prefix, 0)
    ensures !c.cancelled && c.outcome == Completed
    ensures var node, at := ProgramOf(calm.behaviour, calm.shape)(prefix), c.Snapshot();
            && (node == ChoiceTree.Finished <==> AllFinished(at))
            && (node.Open? ==> EnabledIds(at, 0) == node.enabled)
            && (node == ChoiceTree.Deadlocked <==> Query(at, false).outcome == ControlledDeadlock)
            && (Query(at, false).outcome == Completed || Query(at, false).outcome == ControlledDeadlock)
  {
    var s := c.Snapshot();
    Reachable(c.start, c.labels, s);
    AtRestThere(calm.behaviour, calm.shape, c.start, s, prefix, calm.size, 0);
    NotYetFailed(s);
    QueryAnswers(s);
    hide Rests, ProgramOf, Disciplined, Inv, Query, AllFinished, EnabledIds, SmoothRuns, ChoiceTree.InTree, Decisions;
    var labels :| SmoothRuns(calm.behaviour, calm.shape, c.start, labels, s);
    SmoothBehaves(calm.behaviour, calm.shape, c.start, labels, s);
    ReplayShowsItsNode(calm.behaviour, calm.shape, c.start, labels, s);
  }

  lemma {:induction false} QueryAnswers(s: State)
    requires !s.cancelled && s.outcome == Completed
    ensures Query(s, false).outcome == Completed || Query(s, false).outcome == ControlledDeadlock
  {
    hide GraphOf, NoneEnabled, AllFinished, AllParked;
  }

  /** At rest and undisturbed, nothing is enabled only when everybody has finished: otherwise the
      query would have declared a deadlock. */
  lemma {:induction false} NobodyForgotten(start: State, labels: seq<Label>, s: State)
    requires Initial(start) && Runs(start, labels, s) && s.controller == Idle && !s.cancelled
    requires Query(s, false).outcome == Completed
    ensures EnabledIds(s, 0) == [] <==> AllFinished(s)
  {
    DeadlockExactly(start, labels, s);
    hide Initial, Runs, Query, Enabled;
    EnabledIdsEmpty(s, 0);
    if AllFinished(s) {
      forall i | 0 <= i < |s.actors| ensures !Enabled(s, i) { FinishedIsDisabled(s, i); }
    }
  }

  lemma {:induction false} FinishedIsDisabled(s: State, i: nat)
    requires i < |s.actors| && s.actors[i].finished
    ensures !Enabled(s, i)
  {
  }

  lemma {:induction false} TakeQuery(s: State, late: bool)
    requires CanTake(s, DoQuery(late))
    ensures Take(s, DoQuery(late)) == Query(s, late)
  {
  }

  lemma {:induction false} AfterCancel(s: State)
    requires CanTake(s, DoCancel)
    ensures var t := Take(s, DoCancel);
            t.cancelled && (s.outcome != Completed ==> t.outcome == s.outcome && t.graph == s.graph)
  {
    hide GraphOf;
  }
}
