/** What a well-behaved run comes to: with cooperative workers, a patient clock and sound observations
    the scheduler never fails a run, every such run through the plan completes, and there is one for
    every plan. What a failure says is what went wrong. */
module CheckpointCooperation {
  import opened Schedules
  import opened Admission
  import opened CheckpointMachine
  import opened CheckpointSafety
  import opened CheckpointCompletion
  import opened CheckpointTheorems

  // ----- what a failure says ----------------------------------------------------------------------

  /** The clock was found past the deadline in this section. */
  predicate Late(l: Label) {
    match l
    case DoBarrier(late, _, _, lateAgain) => late || lateAgain
    case DoAdvance(_, late) => late
    case DoWoken(late) => late
    case DoSettle(_, _, late) => late
    case _ => false
  }

  ghost predicate Unobserved(l: Label, text: string) {
    match l
    case DoBarrier(_, sound, what, _) => !sound && text == Clip(what, MAX_DETAIL)
    case DoSettle(sound, what, _) => !sound && text == Clip(what, MAX_DETAIL)
    case _ => false
  }

  /** The step that the plan has next. */
  predicate IsNext(s: State, step: Step) {
    s.progress.nextStep < |s.plan.steps| && s.plan.steps[s.progress.nextStep] == step
  }

  /** What the section `l` of `s`, the first one to fail, did wrong. */
  ghost predicate Blames(s: State, l: Label, failure: Failure) {
    match failure.detail
    case NoDetail => false
    case ExecutionCancelled => failure.outcome == Cancelled && s.life.cancelled
    case DeadlineExceeded => failure.outcome == TimedOut && Late(l)
    case OutsideOwnedActor => failure.outcome == UncontrolledActor && (l.DoForeignArrive? || (l.DoArrive? && s.life.stopping))
    case UndeclaredCheckpoint(seen) =>
      failure.outcome == UnexpectedCheckpoint && l.DoArrive? && seen == Clip(l.checkpoint, 128)
      && (!Identifier(l.checkpoint) || l.checkpoint !in s.plan.checkpoints)
    case IntervalDiffers => failure.outcome == InvalidSchedule && l.DoAdvance? && !IsNext(s, l.requested)
    case ActorNotParked => false
    case ArrivedElsewhere =>
      failure.outcome == UnexpectedCheckpoint && l.DoWoken? && s.controller.Waiting? && s.controller.k < |s.actors|
      && s.actors[s.controller.k].arrival.Some? && IsNextActor(s, s.actors[s.controller.k].name)
      && !IsNext(s, Step(s.actors[s.controller.k].name, s.actors[s.controller.k].arrival.value))
    case ScheduleIncomplete => failure.outcome == InvalidSchedule && l.DoFinish? && !s.progress.scheduleCompleted
    case Said(text) =>
      || (failure.outcome == ApplicationFailed && l.DoCrash? && text == Clip(l.what, MAX_DETAIL))
      || (failure.outcome == ObservationFailed && Unobserved(l, text))
  }

  ghost predicate IsNextActor(s: State, name: string) {
    s.progress.nextStep < |s.plan.steps| && s.plan.steps[s.progress.nextStep].actor == name
  }

  // ----- the actor of the next step is parked ----------------------------------------------------------

  /** An actor that has come to its completion has no further step in the plan. */
  lemma {:induction false} NoStepAfterDone(actors: set<string>, checkpoints: set<string>, steps: seq<Step>, n: nat)
    requires Plan(actors, checkpoints, steps) && n < |steps| && COMPLETION !in checkpoints
    ensures LastCheckpoint(steps, n, steps[n].actor) != COMPLETION
  {
    var actor := steps[n].actor;
    var before, all := Projection(steps[..n], actor), Projection(steps, actor);
    hide Projection;
    LastIsProjected(steps, n, actor);
    assert Terminated(all, checkpoints);
    assert steps[..n + 1] == steps[..n] + [steps[n]];
    ProjectionAppend(steps[..n], steps[n], actor);
    ProjectionPrefix(steps, n + 1, actor);
    if before != [] {
      var k := |before| - 1;
      assert all[k] == (before + [steps[n].checkpoint])[k] == before[k];
      assert before[k] in checkpoints;
    } else {
      assert START[1] != COMPLETION[1];
    }
  }

  /** A planned checkpoint that is not the completion was declared. */
  lemma {:induction false} PlannedIsDeclared(actors: set<string>, checkpoints: set<string>, steps: seq<Step>, n: nat)
    requires Plan(actors, checkpoints, steps) && n < |steps|
    ensures steps[n].checkpoint == COMPLETION || steps[n].checkpoint in checkpoints
  {
    hide Projection, Terminated;
    assert Terminated(Projection(steps, steps[n].actor), checkpoints);
    if steps[n].checkpoint != COMPLETION && steps[n].checkpoint !in checkpoints { Undeclared(steps, n, checkpoints); }
  }

  /** Names of checkpoints are identifiers, as admission demands, and somebody is to run. */
  ghost predicate WellDeclared(s: State) {
    s.actors != [] && forall c :: c in s.plan.checkpoints ==> Identifier(c)
  }

  lemma {:induction false} DoneIsNotDeclared(s: State)
    requires WellDeclared(s)
    ensures COMPLETION !in s.plan.checkpoints
  {
    CompletionIsReserved();
  }

  lemma {:induction false} SomeoneOf(actors: seq<Actor>, name: string)
    requires name in Cast(actors)
    ensures Find(actors, name, 0).Some?
  {
    var i :| 0 <= i < |actors| && actors[i].name == name;
  }

  /** Between steps, the actor of the next step is there and parked. */
  lemma {:induction false} NextIsParked(s: State)
    requires Inv(s) && Conclusive(s) && Live(s) && s.controller == Idle && s.progress.nextStep < |s.plan.steps| && WellDeclared(s)
    ensures var k := Find(s.actors, s.plan.steps[s.progress.nextStep].actor, 0);
            k.Some? && s.actors[k.value].phase == Parked && s.actors[k.value].where == Blocked
  {
    var n := s.progress.nextStep;
    assert InStep(s);
    hide Identities, Threads, Lifecycle, InStep, LoggedSteps, ObservedSteps, LastCheckpoint, Terminated, Projection, DoneLog;
    DoneIsNotDeclared(s);
    NoStepAfterDone(Cast(s.actors), s.plan.checkpoints, s.plan.steps, n);
    SomeoneOf(s.actors, s.plan.steps[n].actor);
    var k := Find(s.actors, s.plan.steps[n].actor, 0).value;
    RestingAt(s, k);
    assert BeforeDone(s.actors[k]);
  }

  lemma {:induction false} RestingAt(s: State, k: nat)
    requires InStep(s) && s.controller == Idle && k < |s.actors|
    ensures s.progress.nextStep <= |s.plan.steps| && AtRest(s.actors[k], s.plan.steps, s.progress.nextStep)
  {
    hide LoggedSteps, ObservedSteps, AtRest;
  }

  // ----- every first failure is blamed on what it says ------------------------------------------------------

  lemma {:induction false} PollBlames(s: State, l: Label, late: bool)
    requires !s.failure.failed && Poll(s, late).failure.failed && (late ==> Late(l))
    ensures Blames(s, l, Poll(s, late).failure)
  {
  }

  lemma {:induction false} ArriveBlames(s: State, i: nat, checkpoint: string)
    requires Inv(s) && At(s, i, InUser) && !s.failure.failed && Arrive(s, i, checkpoint).failure.failed
    ensures Blames(s, DoArrive(i, checkpoint), Arrive(s, i, checkpoint).failure)
  {
    assert s.life.constructed;
    if !s.life.stopping { OnlyPermitted(s, i); }
    hide Inv, Identifier, Clip;
  }

  lemma {:induction false} BarrierBlames(s: State, l: Label)
    requires l.DoBarrier? && !s.failure.failed && Barrier(s, l.late, l.sound, l.what, l.lateAgain).failure.failed
    ensures Blames(s, l, Barrier(s, l.late, l.sound, l.what, l.lateAgain).failure)
  {
    hide Clip;
  }

  lemma {:induction false} SettleBlames(s: State, l: Label)
    requires l.DoSettle? && !s.failure.failed && Settle(s, l.sound, l.what, l.late).failure.failed
    ensures Blames(s, l, Settle(s, l.sound, l.what, l.late).failure)
  {
    hide Clip;
  }

  lemma {:induction false} AdvanceBlames(s: State, l: Label)
    requires Inv(s) && Conclusive(s) && WellDeclared(s) && l.DoAdvance? && s.controller == Idle
    requires !s.failure.failed && Advance(s, l.requested, l.late).failure.failed
    ensures Blames(s, l, Advance(s, l.requested, l.late).failure)
  {
    hide Inv, Conclusive, WellDeclared, Find, Log, With;
    if CanAdvance(s) && IsNext(s, l.requested) {
      IdleIsLive(s);
      NextIsParked(s);
      NextIsGranted(s, l.requested, l.late);
    } else {
      NotNext(s, l.requested, l.late);
    }
  }

  /** Asked for in time, the step that is next is granted. */
  lemma {:induction false} NextIsGranted(s: State, step: Step, late: bool)
    requires CanAdvance(s) && IsNext(s, step)
    requires var k := Find(s.actors, step.actor, 0); k.Some? && s.actors[k.value].phase == Parked
    ensures var t := Advance(s, step, late);
            if late || s.life.cancelled then t.failure == Poll(s, late).failure
            else t.failure == s.failure && t.controller == Waiting(Find(s.actors, step.actor, 0).value)
  {
    hide Find;
  }

  lemma {:induction false} NotNext(s: State, step: Step, late: bool)
    requires !s.failure.failed && !(CanAdvance(s) && IsNext(s, step)) && Advance(s, step, late).failure.failed
    ensures Blames(s, DoAdvance(step, late), Advance(s, step, late).failure)
  {
    hide Find, Log, With;
  }

  lemma {:induction false} WokenBlames(s: State, l: Label)
    requires Inv(s) && l.DoWoken? && CanTake(s, l) && !s.failure.failed && Woken(s, l.late).failure.failed
    ensures Blames(s, l, Woken(s, l.late).failure)
  {
    WaitingIsLive(s);
    assert InStep(s);
    hide Inv, LoggedSteps, ObservedSteps, OthersAtRest, Log, With, PermitOf;
  }

  /** A run fails first in a section that did what the failure says. */
  lemma {:induction false} FailureIsBlamed(s: State, l: Label)
    requires Inv(s) && Conclusive(s) && WellDeclared(s) && CanTake(s, l)
    requires !s.failure.failed && Take(s, l).failure.failed
    ensures Blames(s, l, Take(s, l).failure)
  {
    hide Inv, Conclusive, WellDeclared, Arrive, Barrier, Advance, Woken, Settle, Blames, Clip;
    match l
    case DoArrive(i, checkpoint) => ArriveBlames(s, i, checkpoint);
    case DoBarrier(_, _, _, _) => BarrierBlames(s, l);
    case DoAdvance(_, _) => AdvanceBlames(s, l);
    case DoWoken(_) => WokenBlames(s, l);
    case DoSettle(_, _, _) => SettleBlames(s, l);
    case _ =>
      if s.progress.scheduleCompleted { PastTheLastStep(s); }
      PlainBlames(s, l);
  }

  lemma {:induction false} PlainBlames(s: State, l: Label)
    requires CanTake(s, l) && !l.DoArrive? && !l.DoBarrier? && !l.DoAdvance? && !l.DoWoken? && !l.DoSettle?
    requires !s.failure.failed && Take(s, l).failure.failed && (s.progress.scheduleCompleted ==> s.life.initialized)
    ensures Blames(s, l, Take(s, l).failure)
  {
    hide Clip, JoinFinished, Unjoined, Arrive, Barrier, Advance, Woken, Settle;
  }

  lemma {:induction false} DeclaredStays(s: State, l: Label)
    requires CanTake(s, l) && Threads(s) && WellDeclared(s)
    ensures WellDeclared(Take(s, l))
  {
    hide Take, CanTake, CarriesActor, Identifier;
    StepCarries(s, l);
  }

  ghost predicate BlamedAt(s: State, labels: seq<Label>, k: nat, u: State, failure: Failure) {
    k < |labels| && Runs(s, labels[..k], u) && !u.failure.failed && Blames(u, labels[k], failure)
  }

  /** In every run, the failure that is reported is the fault of one section of it. */
  lemma {:induction false} EveryFailureIsBlamed(s: State, labels: seq<Label>, t: State)
    requires Inv(s) && Conclusive(s) && WellDeclared(s) && !s.failure.failed && Runs(s, labels, t) && t.failure.failed
    ensures exists k: nat, u :: BlamedAt(s, labels, k, u, t.failure)
    decreases |labels|
  {
    hide Inv, Conclusive, WellDeclared, Take, Blames, Final;
    var u, rest := Take(s, labels[0]), labels[1..];
    StepInv(s, labels[0]);
    StepConclusive(s, labels[0]);
    assert WellDeclared(u) by { ThreadsOf(s); DeclaredStays(s, labels[0]); }
    if u.failure.failed {
      FailureIsBlamed(s, labels[0]);
      FinalRun(u, rest, t);
      FinalFailure(u, t);
      assert labels[..0] == [];
      assert BlamedAt(s, labels, 0, s, t.failure);
    } else {
      EveryFailureIsBlamed(u, rest, t);
      var k: nat, v :| BlamedAt(u, rest, k, v, t.failure);
      assert labels[..k + 1][1..] == rest[..k];
      assert BlamedAt(s, labels, k + 1, v, t.failure);
    }
  }

  lemma {:induction false} ThreadsOf(s: State)
    requires Inv(s)
    ensures Threads(s)
  {
    hide Identities, Progress, Lifecycle;
  }

  lemma {:induction false} FinalFailure(s: State, t: State)
    requires Final(s, t) && s.failure.failed
    ensures t.failure == s.failure
  {
  }

  // ----- the log of a stray arrival ------------------------------------------------------------------------------

  /** A run that failed because an actor arrived elsewhere has that arrival as its last event, and it
      is not the one that the plan had for that step. */
  ghost predicate StrayLogged(s: State) {
    s.failure.failed && s.failure.detail == ArrivedElsewhere ==>
      && !s.controller.Waiting? && s.journal.events != []
      && (var e := s.journal.events[|s.journal.events| - 1];
          && e.kind == Arrival && e.step < |s.plan.steps|
          && e.actor == s.plan.steps[e.step].actor && e.checkpoint != s.plan.steps[e.step].checkpoint)
  }

  lemma {:induction false} WokenStray(s: State, late: bool)
    requires Inv(s) && CanTake(s, DoWoken(late)) && !s.failure.failed
    ensures StrayLogged(Woken(s, late))
  {
    WaitingIsLive(s);
    assert InStep(s);
    hide Inv, LoggedSteps, ObservedSteps, OthersAtRest, With, PermitOf;
  }

  lemma {:induction false} OthersDoNotStray(s: State, l: Label)
    requires CanTake(s, l) && !l.DoWoken? && !s.failure.failed
    ensures !(Take(s, l).failure.failed && Take(s, l).failure.detail == ArrivedElsewhere)
  {
    hide Clip, Identifier, JoinFinished, Unjoined, Find, Log, With, Woken;
  }

  lemma {:induction false} StrayStays(s: State, l: Label)
    requires CanTake(s, l) && s.failure.failed && !s.controller.Waiting?
    ensures var t := Take(s, l);
            t.failure == s.failure && !t.controller.Waiting? && t.journal.events == s.journal.events && t.plan == s.plan
  {
    hide Clip, Identifier, JoinFinished, Unjoined, Find, Log, With, Woken;
  }

  lemma {:induction false} StepStray(s: State, l: Label)
    requires Inv(s) && CanTake(s, l) && StrayLogged(s)
    ensures StrayLogged(Take(s, l))
  {
    hide Inv, Take, CanTake;
    if s.failure.failed {
      if s.failure.detail == ArrivedElsewhere { StrayStays(s, l); } else { OtherFailureStays(s, l); }
    } else if l.DoWoken? {
      WokenStray(s, l.late);
      TakeWoken(s, l.late);
    } else {
      OthersDoNotStray(s, l);
    }
  }

  lemma {:induction false} OtherFailureStays(s: State, l: Label)
    requires Inv(s) && CanTake(s, l) && s.failure.failed
    ensures Take(s, l).failure.failed && Take(s, l).failure.detail == s.failure.detail
  {
    hide Inv, Take, CanTake, NoNewPermit;
    NothingIsTakenBack(s, l);
  }

  lemma {:induction false} TakeWoken(s: State, late: bool)
    requires CanTake(s, DoWoken(late))
    ensures Take(s, DoWoken(late)) == Woken(s, late)
  {
    hide Woken;
  }

  lemma {:induction false} StrayRun(s: State, labels: seq<Label>, t: State)
    requires Inv(s) && StrayLogged(s) && Runs(s, labels, t)
    ensures StrayLogged(t)
    decreases |labels|
  {
    hide Inv, Take, StrayLogged;
    if labels != [] {
      StepInv(s, labels[0]);
      StepStray(s, labels[0]);
      StrayRun(Take(s, labels[0]), labels[1..], t);
    }
  }

  /** In every run: an actor is said to have arrived elsewhere only if the log ends with its arrival
      at a checkpoint other than the planned one. */
  lemma {:induction false} StrayArrivalIsLogged(s: State, labels: seq<Label>, t: State)
    requires Initial(s) && !s.failure.failed && Runs(s, labels, t)
    ensures StrayLogged(t)
  {
    hide Inv, Initial, Runs;
    InitialInv(s);
    StrayRun(s, labels, t);
  }

  // ----- cooperation ------------------------------------------------------------------------------------------------

  /** A section of a cooperative run: the worker under permit goes where the plan says, the controller
      asks for the plan's steps and ends the run when they are done, the clock is patient, observations
      are sound, and nobody interferes. */
  predicate Cooperates(s: State, l: Label) {
    CanTake(s, l) &&
    match l
    case DoBoot(_) => true
    case DoResume(_) => true
    case DoArrive(i, checkpoint) => checkpoint != COMPLETION && IsNext(s, Step(s.actors[i].name, checkpoint))
    case DoExit(i) => IsNext(s, Step(s.actors[i].name, COMPLETION))
    case DoForeignArrive(_) => false
    case DoCrash(_, _) => false
    case DoStopToken => false
    case DoBarrier(_, sound, _, _) => !Late(l) && sound
    case DoAdvance(requested, _) => !Late(l) && (IsNext(s, requested) || s.progress.nextStep == |s.plan.steps|)
    case DoWoken(_) => !Late(l)
    case DoSettle(sound, _, _) => !Late(l) && sound
    case DoCleanupEnd(_) => true
    case DoDestroyEnd => true
    case _ => s.progress.scheduleCompleted
  }

  ghost predicate CoopRuns(s: State, labels: seq<Label>, t: State)
    decreases |labels|
  {
    if labels == [] then s == t else Cooperates(s, labels[0]) && CoopRuns(Take(s, labels[0]), labels[1..], t)
  }

  /** What a cooperative run keeps: no failure, nothing stopping before completion, completion with the
      last step, and an arrived actor standing where the plan wants it. */
  ghost predicate OnTrack(s: State) {
    && !s.failure.failed && s.life.constructed
    && (!s.progress.scheduleCompleted ==> !s.life.cancelled && !s.life.stopping && !s.life.closed)
    && (s.progress.nextStep == |s.plan.steps| <==> s.progress.scheduleCompleted)
    && (s.controller.Waiting? ==> Expected(s, s.controller.k))
  }

  ghost predicate Expected(s: State, k: nat) {
    k < |s.actors| && s.progress.nextStep < |s.plan.steps|
    && (s.actors[k].phase != Running ==> s.actors[k].checkpoint == s.plan.steps[s.progress.nextStep].checkpoint)
  }

  lemma {:induction false} StepsForSomeone(s: State)
    requires Conclusive(s) && s.actors != []
    ensures s.plan.steps != []
  {
    assert s.actors[0].name in Cast(s.actors);
    assert Terminated(Projection(s.plan.steps, s.actors[0].name), s.plan.checkpoints);
  }

  lemma {:induction false} InitialOnTrack(s: State)
    requires Initial(s) && !s.failure.failed && WellDeclared(s)
    ensures OnTrack(s)
  {
    InitialConclusive(s);
    StepsForSomeone(s);
    hide Conclusive, WellDeclared, Plan;
  }

  /** The arrival that is compared is where the actor stands. */
  lemma {:induction false} ArrivalIsPlace(s: State)
    requires Inv(s) && s.controller.Waiting? && !s.failure.failed
    ensures s.controller.k < |s.actors|
    ensures var a := s.actors[s.controller.k]; a.phase != Running ==> a.arrival == Some(a.checkpoint)
  {
    WaitingIsLive(s);
    assert InStep(s);
    hide Inv, LoggedSteps, ObservedSteps, OthersAtRest, PermitOf;
  }

  /** A cooperative section has nothing to be blamed for. */
  lemma {:induction false} CoopIsBlameless(s: State, l: Label, failure: Failure)
    requires Inv(s) && Conclusive(s) && WellDeclared(s) && OnTrack(s) && !s.progress.scheduleCompleted && Cooperates(s, l)
    ensures !Blames(s, l, failure)
  {
    hide Inv, Conclusive, WellDeclared, Identifier, Clip, CanTake;
    Cooperating(s, l);
    if l.DoArrive? {
      PlannedIsWellDeclared(s);
    } else if l.DoWoken? {
      AwaitedMoved(s, l.late);
      ArrivalIsPlace(s);
    }
  }

  lemma {:induction false} AwaitedMoved(s: State, late: bool)
    requires CanTake(s, DoWoken(late)) && !late && !s.failure.failed && !s.life.cancelled
    ensures s.controller.Waiting? && s.controller.k < |s.actors| && s.actors[s.controller.k].phase != Running
  {
  }

  lemma {:induction false} PlannedIsWellDeclared(s: State)
    requires Conclusive(s) && WellDeclared(s) && s.progress.nextStep < |s.plan.steps|
    ensures var c := s.plan.steps[s.progress.nextStep].checkpoint; c == COMPLETION || (c in s.plan.checkpoints && Identifier(c))
  {
    hide Plan, BeforeDone, Identifier;
    PlannedIsDeclared(Cast(s.actors), s.plan.checkpoints, s.plan.steps, s.progress.nextStep);
  }

  lemma {:induction false} CoopDoesNotFail(s: State, l: Label)
    requires Inv(s) && Conclusive(s) && WellDeclared(s) && OnTrack(s) && Cooperates(s, l)
    ensures !Take(s, l).failure.failed
  {
    hide Inv, Take, CanTake, Blames, WellDeclared;
    if s.progress.scheduleCompleted {
      CompletedIsEnded(s);
      QuietWhenOver(s, l);
    } else if Take(s, l).failure.failed {
      FailureIsBlamed(s, l);
      CoopIsBlameless(s, l, Take(s, l).failure);
      assert false;
    }
  }

  lemma {:induction false} CompletedIsEnded(s: State)
    requires Conclusive(s) && s.progress.scheduleCompleted
    ensures Ended(s)
  {
    hide Plan, BeforeDone, Over;
  }

  // ----- staying on track, section by section -----------------------------------------------------------------------------

  /** After completion nothing that matters changes. */
  lemma {:induction false} CompletedStaysOnTrack(s: State, l: Label)
    requires Inv(s) && Conclusive(s) && OnTrack(s) && s.progress.scheduleCompleted && CanTake(s, l)
    ensures OnTrack(Take(s, l))
  {
    CompletedIsEnded(s);
    QuietWhenOver(s, l);
    StepInv(s, l);
    PastTheLastStep(Take(s, l));
    LifeStays(s, l);
    hide Inv, Conclusive, Take;
  }

  lemma {:induction false} LifeStays(s: State, l: Label)
    requires CanTake(s, l)
    ensures Take(s, l).life.constructed == s.life.constructed && Take(s, l).plan == s.plan
  {
    hide Clip, Identifier, JoinFinished, Unjoined, Find, Fail, Poll, Observe, Log, With;
  }

  lemma {:induction false} WorkerOnTrack(s: State, l: Label)
    requires Inv(s) && OnTrack(s) && !s.progress.scheduleCompleted && Cooperates(s, l) && !Take(s, l).failure.failed
    requires l.DoBoot? || l.DoResume? || l.DoArrive? || l.DoExit?
    ensures OnTrack(Take(s, l))
  {
    if s.controller.Waiting? { AwaitedHasBooted(s); }
    if l.DoArrive? || l.DoExit? { OnlyPermitted(s, l.i); }
    hide Inv, Identifier, Clip;
  }

  lemma {:induction false} AwaitedHasBooted(s: State)
    requires Inv(s) && !s.failure.failed && s.controller.Waiting?
    ensures s.controller.k < |s.actors| && s.actors[s.controller.k].where != Booting
  {
    WaitingIsLive(s);
    assert InStep(s);
    hide LoggedSteps, ObservedSteps, OthersAtRest, PermitOf;
    assert ThreadOk(s.actors[s.controller.k]);
  }

  lemma {:induction false} BarrierOnTrack(s: State, l: Label)
    requires OnTrack(s) && !s.progress.scheduleCompleted && l.DoBarrier? && CanTake(s, l) && !Take(s, l).failure.failed
    ensures OnTrack(Take(s, l)) && Take(s, l).life.initialized && Take(s, l).controller == Idle
  {
    hide Fail, Poll, Observe, AllParked;
  }

  lemma {:induction false} AdvanceOnTrack(s: State, l: Label)
    requires Inv(s) && OnTrack(s) && !s.progress.scheduleCompleted && l.DoAdvance? && Cooperates(s, l) && !Take(s, l).failure.failed
    ensures OnTrack(Take(s, l))
  {
    hide Inv, Fail, Poll, Log;
  }

  lemma {:induction false} WokenOnTrack(s: State, l: Label)
    requires OnTrack(s) && !s.progress.scheduleCompleted && l.DoWoken? && CanTake(s, l) && !Take(s, l).failure.failed
    ensures OnTrack(Take(s, l)) && Take(s, l).controller.Settling?
  {
    hide Fail, Poll, Log;
  }

  lemma {:induction false} SettleOnTrack(s: State, l: Label)
    requires OnTrack(s) && !s.progress.scheduleCompleted && l.DoSettle? && CanTake(s, l) && !Take(s, l).failure.failed
    ensures OnTrack(Take(s, l)) && Take(s, l).controller == Idle && Take(s, l).progress.nextStep == s.progress.nextStep + 1
  {
    hide Fail, Poll, Observe;
  }

  /** Cooperation stays on track. */
  lemma {:induction false} StepOnTrack(s: State, l: Label)
    requires Inv(s) && Conclusive(s) && WellDeclared(s) && OnTrack(s) && Cooperates(s, l)
    ensures OnTrack(Take(s, l))
  {
    CoopDoesNotFail(s, l);
    hide Inv, Conclusive, WellDeclared, Take, CanTake, OnTrack;
    if s.progress.scheduleCompleted {
      CompletedStaysOnTrack(s, l);
    } else if l.DoBoot? || l.DoResume? || l.DoArrive? || l.DoExit? {
      WorkerOnTrack(s, l);
    } else {
      match l
      case DoBarrier(_, _, _, _) => BarrierOnTrack(s, l);
      case DoAdvance(_, _) => AdvanceOnTrack(s, l);
      case DoWoken(_) => WokenOnTrack(s, l);
      case DoSettle(_, _, _) => SettleOnTrack(s, l);
      case DoCleanupEnd(_) => NotEndingYet(s, l);
      case DoDestroyEnd => NotEndingYet(s, l);
      case _ =>
    }
  }

  lemma {:induction false} NotEndingYet(s: State, l: Label)
    requires Inv(s) && OnTrack(s) && !s.progress.scheduleCompleted && (l.DoCleanupEnd? || l.DoDestroyEnd?)
    ensures !CanTake(s, l)
  {
    hide Identities, Threads, Progress;
  }

  lemma {:induction false} CoopRunOnTrack(s: State, labels: seq<Label>, t: State)
    requires Inv(s) && Conclusive(s) && WellDeclared(s) && OnTrack(s) && CoopRuns(s, labels, t)
    ensures Inv(t) && Conclusive(t) && WellDeclared(t) && OnTrack(t)
    decreases |labels|
  {
    hide Inv, Conclusive, WellDeclared, OnTrack, Take, CanTake, Cooperates;
    if labels != [] {
      Cooperating(s, labels[0]);
      StepInv(s, labels[0]);
      StepConclusive(s, labels[0]);
      StepOnTrack(s, labels[0]);
      ThreadsOf(s);
      DeclaredStays(s, labels[0]);
      CoopRunOnTrack(Take(s, labels[0]), labels[1..], t);
    }
  }

  lemma {:induction false} Cooperating(s: State, l: Label)
    requires Cooperates(s, l)
    ensures CanTake(s, l)
  {
    hide CanTake;
  }

  /** A cooperative run never fails, and one that has been through all steps has completed its schedule. */
  lemma {:induction false} CooperationNeverFails(s: State, labels: seq<Label>, t: State)
    requires Initial(s) && !s.failure.failed && WellDeclared(s) && CoopRuns(s, labels, t)
    ensures !t.failure.failed
    ensures t.progress.nextStep == |t.plan.steps| <==> t.progress.scheduleCompleted
  {
    InitialInv(s);
    InitialConclusive(s);
    InitialOnTrack(s);
    hide Inv, Conclusive, WellDeclared, CoopRuns, Initial;
    CoopRunOnTrack(s, labels, t);
  }

  // ----- a cooperative run for every plan --------------------------------------------------------------------------------

  lemma {:induction false} CoopAppend(s: State, labels: seq<Label>, t: State, l: Label)
    requires CoopRuns(s, labels, t) && Cooperates(t, l)
    ensures CoopRuns(s, labels + [l], Take(t, l))
    decreases |labels|
  {
    hide Cooperates, Take;
    Cooperating(t, l);
    if labels == [] {
      assert (labels + [l])[1..] == [];
    } else {
      Cooperating(s, labels[0]);
      CoopAppend(Take(s, labels[0]), labels[1..], t, l);
      assert (labels + [l])[1..] == labels[1..] + [l];
    }
  }

  /** `t` is where some cooperative run from `s` has come to. */
  ghost predicate Reaches(s: State, t: State) {
    exists labels :: CoopRuns(s, labels, t)
  }

  lemma {:induction false} OneMore(s: State, t: State, l: Label)
    requires Reaches(s, t) && Cooperates(t, l)
    ensures Reaches(s, Take(t, l))
  {
    hide Cooperates, Take, CoopRuns;
    var labels :| CoopRuns(s, labels, t);
    CoopAppend(s, labels, t, l);
  }

  /** Everything that is known of the states of a cooperative run. */
  ghost predicate Fine(s: State) {
    Inv(s) && Conclusive(s) && WellDeclared(s) && OnTrack(s)
  }

  lemma {:induction false} StaysFine(s: State, l: Label)
    requires Fine(s) && Cooperates(s, l)
    ensures CanTake(s, l) && Fine(Take(s, l))
  {
    hide Inv, Conclusive, WellDeclared, OnTrack, Take, CanTake;
    Cooperating(s, l);
    StepInv(s, l);
    StepConclusive(s, l);
    StepOnTrack(s, l);
    ThreadsOf(s);
    DeclaredStays(s, l);
  }

  /** The first `n` workers have come to the barrier. */
  ghost predicate Booted(start: State, s: State, n: nat) {
    && n <= |start.actors| == |s.actors| && s.controller == AtBarrier && s.plan == start.plan && s.teardown == start.teardown
    && (forall i :: 0 <= i < n ==> s.actors[i].phase == Parked)
    && (forall i :: n <= i < |s.actors| ==> s.actors[i].where == Booting)
  }

  lemma {:induction false} BootNext(start: State, s: State, n: nat)
    requires Booted(start, s, n) && n < |s.actors|
    ensures Cooperates(s, DoBoot(n)) && Booted(start, Take(s, DoBoot(n)), n + 1)
  {
  }

  lemma {:induction false} BootAll(start: State, s: State, n: nat) returns (t: State)
    requires Reaches(start, s) && Fine(s) && Booted(start, s, n)
    ensures Reaches(start, t) && Fine(t) && Booted(start, t, |start.actors|)
    decreases |start.actors| - n
  {
    hide Reaches, Fine, Booted, Cooperates, Take;
    BootedLength(start, s, n);
    if n == |start.actors| {
      t := s;
    } else {
      BootNext(start, s, n);
      StaysFine(s, DoBoot(n));
      OneMore(start, s, DoBoot(n));
      t := BootAll(start, Take(s, DoBoot(n)), n + 1);
    }
  }

  lemma {:induction false} BootedLength(start: State, s: State, n: nat)
    requires Booted(start, s, n)
    ensures n <= |start.actors| == |s.actors|
  {
  }

  /** Between steps, `n` of them done. */
  ghost predicate Between(start: State, s: State, n: nat) {
    && s.controller == Idle && s.life.initialized && !s.life.closed && s.progress.nextStep == n
    && s.plan == start.plan && s.teardown == start.teardown
  }

  /** In the step after the first `n`, which actor `k` takes. */
  ghost predicate Amid(start: State, s: State, n: nat, k: nat) {
    && k < |s.actors| && n < |s.plan.steps| && s.actors[k].name == s.plan.steps[n].actor
    && s.life.initialized && !s.life.closed && s.progress.nextStep == n && s.plan == start.plan && s.teardown == start.teardown
  }

  lemma {:induction false} BarrierIsFirst(s: State)
    requires Fine(s) && s.controller == AtBarrier
    ensures s.progress.nextStep == 0 && !s.progress.scheduleCompleted
  {
    hide Conclusive, WellDeclared, Threads, Lifecycle;
  }

  lemma {:induction false} PassesBarrier(start: State, s: State)
    requires Fine(s) && Booted(start, s, |start.actors|)
    ensures var l := DoBarrier(false, true, "", false); Cooperates(s, l) && Between(start, Take(s, l), 0)
  {
    BarrierIsFirst(s);
    assert OnTrack(s);
    hide Inv, Conclusive, WellDeclared;
  }

  lemma {:induction false} Unfinished(s: State)
    requires Fine(s) && s.controller == Idle && s.life.initialized && s.progress.nextStep < |s.plan.steps|
    ensures CanAdvance(s) && Live(s) && !s.life.cancelled
  {
    hide Inv, Conclusive, WellDeclared;
  }

  lemma {:induction false} Grants(start: State, s: State, n: nat) returns (k: nat)
    requires Fine(s) && Between(start, s, n) && n < |s.plan.steps|
    ensures var l := DoAdvance(s.plan.steps[n], false);
            && Cooperates(s, l) && Amid(start, Take(s, l), n, k) && Take(s, l).controller == Waiting(k)
            && Take(s, l).actors[k].phase == Running && Take(s, l).actors[k].where == Blocked
  {
    Unfinished(s);
    NextIsParked(s);
    k := Find(s.actors, s.plan.steps[n].actor, 0).value;
    hide Inv, Conclusive, WellDeclared, OnTrack, Find;
  }

  lemma {:induction false} Resumes(start: State, s: State, n: nat, k: nat)
    requires Amid(start, s, n, k) && s.controller == Waiting(k) && s.actors[k].phase == Running && s.actors[k].where == Blocked
    ensures var t := Take(s, DoResume(k));
            && Cooperates(s, DoResume(k)) && Amid(start, t, n, k) && t.controller == Waiting(k)
            && t.actors[k].phase == Running && t.actors[k].where == InUser
  {
  }

  /** What the plan has the worker do. */
  function Planned(s: State, k: nat): Label
    requires s.progress.nextStep < |s.plan.steps|
  {
    var c := s.plan.steps[s.progress.nextStep].checkpoint;
    if c == COMPLETION then DoExit(k) else DoArrive(k, c)
  }

  lemma {:induction false} Obeys(start: State, s: State, n: nat, k: nat)
    requires Fine(s) && Amid(start, s, n, k) && s.controller == Waiting(k) && s.actors[k].phase == Running && s.actors[k].where == InUser
    ensures var l := Planned(s, k);
            && Cooperates(s, l) && Amid(start, Take(s, l), n, k) && Take(s, l).controller == Waiting(k)
            && Take(s, l).actors[k].phase != Running
  {
    PlannedIsWellDeclared(s);
    assert !s.life.stopping;
    hide Inv, Conclusive, WellDeclared, Identifier, Clip;
  }

  lemma {:induction false} IsReceived(start: State, s: State, n: nat, k: nat)
    requires Fine(s) && Amid(start, s, n, k) && s.controller == Waiting(k) && s.actors[k].phase != Running
    ensures var t := Take(s, DoWoken(false)); Cooperates(s, DoWoken(false)) && Amid(start, t, n, k) && t.controller.Settling?
  {
    assert Expected(s, k) && !s.life.cancelled;
    hide Inv, Conclusive, WellDeclared, Log;
  }

  lemma {:induction false} Settles(start: State, s: State, n: nat, k: nat)
    requires Fine(s) && Amid(start, s, n, k) && s.controller.Settling?
    ensures var l := DoSettle(true, "", false); Cooperates(s, l) && Between(start, Take(s, l), n + 1)
  {
    var l := DoSettle(true, "", false);
    SettlingIsLive(s);
    assert Cooperates(s, l);
    CoopDoesNotFail(s, l);
    SettleOnTrack(s, l);
    hide Inv, Conclusive, WellDeclared, OnTrack, Fail, Poll, Observe;
  }

  /** One step more. */
  lemma {:induction false} TakesStep(start: State, s: State, n: nat) returns (t: State)
    requires Reaches(start, s) && Fine(s) && Between(start, s, n) && n < |start.plan.steps|
    ensures Reaches(start, t) && Fine(t) && Between(start, t, n + 1)
  {
    hide Reaches, Fine, Cooperates, Take, Amid;
    var k := Grants(start, s, n);
    var l := DoAdvance(s.plan.steps[n], false);
    StaysFine(s, l);
    OneMore(start, s, l);
    var granted := Take(s, l);
    Resumes(start, granted, n, k);
    StaysFine(granted, DoResume(k));
    OneMore(start, granted, DoResume(k));
    t := Arrives(start, Take(granted, DoResume(k)), n, k);
  }

  lemma {:induction false} Arrives(start: State, s: State, n: nat, k: nat) returns (t: State)
    requires Reaches(start, s) && Fine(s) && Amid(start, s, n, k)
    requires s.controller == Waiting(k) && s.actors[k].phase == Running && s.actors[k].where == InUser
    ensures Reaches(start, t) && Fine(t) && Between(start, t, n + 1)
  {
    var l := Planned(s, k);
    hide Reaches, Fine, Cooperates, Take, Amid, Planned;
    Obeys(start, s, n, k);
    StaysFine(s, l);
    OneMore(start, s, l);
    var arrived := Take(s, l);
    IsReceived(start, arrived, n, k);
    StaysFine(arrived, DoWoken(false));
    OneMore(start, arrived, DoWoken(false));
    var received := Take(arrived, DoWoken(false));
    Settles(start, received, n, k);
    StaysFine(received, DoSettle(true, "", false));
    OneMore(start, received, DoSettle(true, "", false));
    t := Take(received, DoSettle(true, "", false));
  }

  lemma {:induction false} TakesSteps(start: State, s: State, n: nat) returns (t: State)
    requires Reaches(start, s) && Fine(s) && Between(start, s, n) && n <= |start.plan.steps|
    ensures Reaches(start, t) && Fine(t) && Between(start, t, |start.plan.steps|)
    decreases |start.plan.steps| - n
  {
    hide Reaches, Fine, Between;
    if n == |start.plan.steps| {
      t := s;
    } else {
      var u := TakesStep(start, s, n);
      t := TakesSteps(start, u, n + 1);
    }
  }

  /** With every step done the run can be finished and cleaned up, and then it has passed. */
  lemma {:induction false} Passes(start: State, s: State) returns (t: State)
    requires Reaches(start, s) && Fine(s) && Between(start, s, |start.plan.steps|) && !start.teardown.attempted
    ensures Reaches(start, t) && Passed(t)
  {
    assert s.progress.scheduleCompleted && Ended(s) by { CompletedIsEnded(s); }
    var finished := Finishes(s);
    hide Fine, Ended;
    OneMore(start, s, DoFinish);
    OneMore(start, Take(s, DoFinish), DoCleanupBegin);
    OneMore(start, Take(Take(s, DoFinish), DoCleanupBegin), DoCleanupEnd(false));
    t := finished;
  }

  lemma {:induction false} Finishes(s: State) returns (t: State)
    requires Fine(s) && Ended(s) && s.controller == Idle && s.life.initialized && !s.teardown.attempted && !s.life.closed
    ensures Cooperates(s, DoFinish) && Cooperates(Take(s, DoFinish), DoCleanupBegin)
    ensures Cooperates(Take(Take(s, DoFinish), DoCleanupBegin), DoCleanupEnd(false))
    ensures t == Take(Take(Take(s, DoFinish), DoCleanupBegin), DoCleanupEnd(false)) && Passed(t)
  {
    var finished := Take(s, DoFinish);
    var cleaning := Take(finished, DoCleanupBegin);
    t := Take(cleaning, DoCleanupEnd(false));
    assert Unjoined(JoinFinished(cleaning.actors), 0) == [];
    hide Inv, Conclusive, WellDeclared, OnTrack, JoinFinished, Unjoined;
  }

  /** For every admitted plan there is a cooperative run that passes. */
  lemma {:induction false} EveryPlanCanPass(s: State) returns (t: State)
    requires Initial(s) && !s.failure.failed && WellDeclared(s)
    ensures Reaches(s, t) && Passed(t)
  {
    assert CoopRuns(s, [], s);
    InitialInv(s);
    InitialConclusive(s);
    InitialOnTrack(s);
    assert Booted(s, s, 0);
    hide Reaches, Fine, Booted, Between, Cooperates, Take;
    var atBarrier := BootAll(s, s, 0);
    PassesBarrier(s, atBarrier);
    StaysFine(atBarrier, DoBarrier(false, true, "", false));
    OneMore(s, atBarrier, DoBarrier(false, true, "", false));
    var done := TakesSteps(s, Take(atBarrier, DoBarrier(false, true, "", false)), 0);
    t := Passes(s, done);
  }

  // ----- what the driver needs ---------------------------------------------------------------------------------------------

  lemma {:induction false} DeclaredRun(s: State, labels: seq<Label>, t: State)
    requires Inv(s) && WellDeclared(s) && Runs(s, labels, t)
    ensures WellDeclared(t)
    decreases |labels|
  {
    hide Inv, WellDeclared, Take;
    if labels != [] {
      ThreadsOf(s);
      DeclaredStays(s, labels[0]);
      StepInv(s, labels[0]);
      DeclaredRun(Take(s, labels[0]), labels[1..], t);
    }
  }

  /** Until it fails, a run has completed its schedule exactly when its last step is done. */
  ghost predicate Punctual(s: State) {
    !s.failure.failed ==> (s.progress.nextStep == |s.plan.steps| <==> s.progress.scheduleCompleted)
  }

  lemma {:induction false} StepPunctual(s: State, l: Label)
    requires Inv(s) && CanTake(s, l) && Punctual(s)
    ensures Punctual(Take(s, l))
  {
    LifeStays(s, l);
    if l.DoSettle? {
      SettlingIsLive(s);
      hide Inv, Fail, Poll, Observe;
    } else {
      OnlySettleCounts(s, l);
      if s.failure.failed { OtherFailureStays(s, l); }
      hide Inv, Take;
    }
  }

  lemma {:induction false} OnlySettleCounts(s: State, l: Label)
    requires CanTake(s, l) && !l.DoSettle?
    ensures Take(s, l).progress == s.progress
  {
    hide Clip, Identifier, JoinFinished, Unjoined, Find, Fail, Poll, Observe, Log, With, Settle;
  }

  lemma {:induction false} RunPunctual(s: State, labels: seq<Label>, t: State)
    requires Inv(s) && Punctual(s) && Runs(s, labels, t)
    ensures Punctual(t)
    decreases |labels|
  {
    hide Inv, Take, Punctual;
    if labels != [] {
      StepInv(s, labels[0]);
      StepPunctual(s, labels[0]);
      RunPunctual(Take(s, labels[0]), labels[1..], t);
    }
  }

  /** What is known of every state of every run. */
  lemma {:induction false} Known(s: State, labels: seq<Label>, t: State)
    requires Initial(s) && WellDeclared(s) && Runs(s, labels, t)
    ensures Inv(t) && Conclusive(t) && WellDeclared(t) && Punctual(t)
  {
    InitialInv(s);
    InitialConclusive(s);
    assert Punctual(s) by { StepsForSomeone(s); }
    hide Inv, Conclusive, WellDeclared, Runs, Initial, Punctual;
    RunConclusive(s, labels, t);
    DeclaredRun(s, labels, t);
    RunPunctual(s, labels, t);
  }

  /** Failures that a controller brings about by itself. */
  predicate ControllersFault(detail: Detail) {
    detail == IntervalDiffers || detail == ActorNotParked || detail == ScheduleIncomplete
  }

  /** A controller that asks for the next step, and does not finish too early, is not at fault. */
  lemma {:induction false} NotTheController(s: State, l: Label)
    requires Inv(s) && Conclusive(s) && WellDeclared(s) && CanTake(s, l) && !s.failure.failed
    requires l.DoAdvance? ==> IsNext(s, l.requested)
    requires l.DoFinish? ==> s.progress.scheduleCompleted
    ensures Take(s, l).failure.failed ==> !ControllersFault(Take(s, l).failure.detail)
  {
    hide Inv, Conclusive, WellDeclared, Take, CanTake;
    if Take(s, l).failure.failed {
      FailureIsBlamed(s, l);
      FaultsAreTheControllers(s, l, Take(s, l).failure);
    }
  }

  lemma {:induction false} FaultsAreTheControllers(s: State, l: Label, failure: Failure)
    requires Blames(s, l, failure)
    ensures ControllersFault(failure.detail) ==>
              (l.DoAdvance? && !IsNext(s, l.requested)) || (l.DoFinish? && !s.progress.scheduleCompleted)
  {
  }

  /** The awaited actor is the plan's, and it has arrived or is about to. */
  lemma {:induction false} Awaited(s: State)
    requires Fine(s) && s.controller.Waiting?
    ensures Amid(s, s, s.progress.nextStep, s.controller.k)
    ensures s.actors[s.controller.k].phase == Running ==>
              s.actors[s.controller.k].where == Blocked || s.actors[s.controller.k].where == InUser
  {
    WaitingIsLive(s);
    assert InStep(s);
    WaitingIsOpen(s);
    hide Inv, Conclusive, WellDeclared, LoggedSteps, ObservedSteps, OthersAtRest, PermitOf;
  }

  lemma {:induction false} WaitingIsOpen(s: State)
    requires Inv(s) && s.controller.Waiting?
    ensures !s.progress.scheduleCompleted && !s.life.closed
  {
    hide InStep, DoneLog, Threads, Lifecycle;
  }

  lemma {:induction false} AtTheBarrier(s: State, i: nat)
    requires Fine(s) && s.controller == AtBarrier && i < |s.actors| && s.actors[i].where != Booting
    ensures s.actors[i].phase == Parked
  {
    BarrierIsFirst(s);
    assert InStep(s);
    hide Inv, Conclusive, WellDeclared;
  }

  // ----- when a section fails a run, exactly --------------------------------------------------------------------------------

  /** The awaited actor stands where the plan does not want it. */
  ghost predicate Strays(s: State) {
    s.controller.Waiting? && s.controller.k < |s.actors| && s.progress.nextStep < |s.plan.steps|
    && s.actors[s.controller.k].checkpoint != s.plan.steps[s.progress.nextStep].checkpoint
  }

  /** Everything that fails a run which has not failed yet. */
  ghost predicate Spoils(s: State, l: Label) {
    match l
    case DoArrive(i, checkpoint) =>
      i < |s.actors| && if s.actors[i].phase != Running then true
                        else !s.life.stopping && (!Identifier(checkpoint) || checkpoint !in s.plan.checkpoints)
    case DoForeignArrive(_) => true
    case DoCrash(_, _) => true
    case DoBarrier(_, sound, _, _) => Late(l) || s.life.cancelled || !sound
    case DoAdvance(requested, _) => CanAdvance(s) && (Late(l) || s.life.cancelled || !IsNext(s, requested))
    case DoWoken(_) => Late(l) || s.life.cancelled || Strays(s)
    case DoSettle(sound, _, _) => Late(l) || s.life.cancelled || !sound
    case DoFinish => !s.life.closed && s.life.constructed && !s.progress.scheduleCompleted
    case _ => false
  }

  lemma {:induction false} AdvanceFails(s: State, requested: Step, late: bool)
    requires Inv(s) && Conclusive(s) && WellDeclared(s) && s.controller == Idle && !s.failure.failed
    ensures Advance(s, requested, late).failure.failed <==> Spoils(s, DoAdvance(requested, late))
  {
    hide Inv, Conclusive, WellDeclared, Find, Log, With;
    if CanAdvance(s) && IsNext(s, requested) {
      IdleIsLive(s);
      NextIsParked(s);
      NextIsGranted(s, requested, late);
    }
  }

  lemma {:induction false} WokenFails(s: State, late: bool)
    requires CanTake(s, DoWoken(late)) && !s.failure.failed
    ensures Woken(s, late).failure.failed <==> Spoils(s, DoWoken(late))
  {
    hide Log, With;
  }

  lemma {:induction false} ObservedFails(s: State, l: Label)
    requires CanTake(s, l) && !s.failure.failed && (l.DoBarrier? || l.DoSettle?)
    ensures Take(s, l).failure.failed <==> Spoils(s, l)
  {
    hide Clip, AllParked;
  }

  lemma {:induction false} OthersFail(s: State, l: Label)
    requires CanTake(s, l) && !s.failure.failed && !l.DoBarrier? && !l.DoSettle? && !l.DoAdvance? && !l.DoWoken?
    requires s.progress.scheduleCompleted ==> s.life.initialized
    ensures Take(s, l).failure.failed <==> Spoils(s, l)
  {
    hide Clip, Identifier, JoinFinished, Unjoined, Barrier, Settle, Advance, Woken;
  }

  /** A section fails a run exactly when it spoils it. */
  lemma {:induction false} FailsExactly(s: State, l: Label)
    requires Inv(s) && Conclusive(s) && WellDeclared(s) && CanTake(s, l) && !s.failure.failed
    ensures Take(s, l).failure.failed <==> Spoils(s, l)
  {
    hide Inv, Conclusive, WellDeclared, Spoils, Advance, Woken, Barrier, Settle, Fail;
    if l.DoAdvance? {
      AdvanceFails(s, l.requested, l.late);
    } else if l.DoWoken? {
      WokenFails(s, l.late);
    } else if l.DoBarrier? || l.DoSettle? {
      ObservedFails(s, l);
    } else {
      if s.progress.scheduleCompleted { PastTheLastStep(s); }
      OthersFail(s, l);
    }
  }

  // ----- names in the evidence ---------------------------------------------------------------------------------------------------

  /** The names left after a cleanup are those of the workers that were started and not joined. */
  lemma {:induction false} RemainingAreUnjoined(actors: seq<Actor>, from: nat, name: string)
    requires from <= |actors|
    ensures name in Unjoined(actors, from)
       <==> exists i :: from <= i < |actors| && actors[i].name == name && Started(actors[i]) && !actors[i].joined
    decreases |actors| - from
  {
    if from < |actors| { RemainingAreUnjoined(actors, from + 1, name); }
  }

  /** Every event names an actor with its declared operation. */
  ghost predicate Credited(declared: seq<Actor>, s: State) {
    && |s.actors| == |declared|
    && (forall i :: 0 <= i < |declared| ==> s.actors[i].name == declared[i].name && s.actors[i].operation == declared[i].operation)
    && (forall k :: 0 <= k < |s.journal.events| ==> IsActor(declared, s.journal.events[k].actor, s.journal.events[k].operation))
  }

  ghost predicate IsActor(declared: seq<Actor>, name: string, operation: string) {
    exists i :: 0 <= i < |declared| && declared[i].name == name && declared[i].operation == operation
  }

  lemma {:induction false} CreditedOn(declared: seq<Actor>, s: State, t: State)
    requires Credited(declared, s) && |t.actors| == |s.actors|
    requires forall i :: 0 <= i < |s.actors| ==> t.actors[i].name == s.actors[i].name && t.actors[i].operation == s.actors[i].operation
    requires || t.journal.events == s.journal.events
             || (exists i, e :: 0 <= i < |s.actors| && t.journal.events == s.journal.events + [e]
                                && e.actor == s.actors[i].name && e.operation == s.actors[i].operation)
    ensures Credited(declared, t)
  {
    if t.journal.events != s.journal.events {
      var i, e :| 0 <= i < |s.actors| && t.journal.events == s.journal.events + [e]
                  && e.actor == s.actors[i].name && e.operation == s.actors[i].operation;
      assert IsActor(declared, e.actor, e.operation);
    }
    hide IsActor;
  }

  /** What a section does to the cast and to the log. */
  ghost predicate Credits(s: State, t: State) {
    && |t.actors| == |s.actors|
    && (forall i :: 0 <= i < |s.actors| ==> t.actors[i].name == s.actors[i].name && t.actors[i].operation == s.actors[i].operation)
    && (t.journal.events == s.journal.events
        || exists i, e :: 0 <= i < |s.actors| && t.journal.events == s.journal.events + [e]
                          && e.actor == s.actors[i].name && e.operation == s.actors[i].operation)
  }

  lemma {:induction false} LogCredits(s: State, kind: EventKind, i: nat, checkpoint: string)
    requires i < |s.actors|
    ensures exists e :: Log(s, kind, s.actors[i], checkpoint).journal.events == s.journal.events + [e]
                        && e.actor == s.actors[i].name && e.operation == s.actors[i].operation
  {
    var a := s.actors[i];
    var e := Event(|s.journal.events|, kind, s.progress.nextStep, a.name, a.operation, checkpoint);
    assert Log(s, kind, a, checkpoint).journal.events == s.journal.events + [e];
  }

  lemma {:induction false} AdvanceCredits(s: State, requested: Step, late: bool)
    ensures Credits(s, Advance(s, requested, late))
  {
    var k := Find(s.actors, requested.actor, 0);
    if k.Some? { LogCredits(s, Permit, k.value, s.actors[k.value].checkpoint); }
    hide Find, Log;
  }

  lemma {:induction false} WokenCredits(s: State, late: bool)
    requires CanTake(s, DoWoken(late))
    ensures Credits(s, Woken(s, late))
  {
    var a := s.actors[s.controller.k];
    var polled, strayed := Poll(s, late), Fail(s, UnexpectedCheckpoint, ArrivedElsewhere);
    if a.arrival.Some? {
      LogCredits(s, Arrival, s.controller.k, a.arrival.value);
      LogCredits(polled, Arrival, s.controller.k, a.arrival.value);
      LogCredits(strayed, Arrival, s.controller.k, a.arrival.value);
    }
    hide Log, Poll, Fail;
  }

  lemma {:induction false} StepCredits(s: State, l: Label)
    requires CanTake(s, l)
    ensures Credits(s, Take(s, l))
  {
    if l.DoAdvance? {
      AdvanceCredits(s, l.requested, l.late);
    } else if l.DoWoken? {
      WokenCredits(s, l.late);
    } else {
      hide Clip, Identifier, Advance, Woken, Unjoined;
    }
  }

  lemma {:induction false} RunCredits(declared: seq<Actor>, s: State, labels: seq<Label>, t: State)
    requires Credited(declared, s) && Runs(s, labels, t)
    ensures Credited(declared, t)
    decreases |labels|
  {
    hide Take, CanTake;
    if labels != [] {
      StepCredits(s, labels[0]);
      CreditedOn(declared, s, Take(s, labels[0]));
      hide Credits, Credited;
      RunCredits(declared, Take(s, labels[0]), labels[1..], t);
    }
  }

  /** In every run each event carries the name and the operation of a declared actor. */
  lemma {:induction false} EventsAreCredited(s: State, labels: seq<Label>, t: State)
    requires Initial(s) && Runs(s, labels, t)
    ensures Credited(s.actors, t)
  {
    hide Runs;
    RunCredits(s.actors, s, labels, t);
  }
}
