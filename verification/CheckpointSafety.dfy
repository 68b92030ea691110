/** What every run of the checkpoint scheduler keeps. */
module CheckpointSafety {
  import opened Schedules
  import opened Admission
  import opened CheckpointMachine

  // ----- the log ----------------------------------------------------------------------

  /** Where an actor stands before step `n`: its last arrival, or the start. */
  ghost function LastCheckpoint(steps: seq<Step>, n: nat, actor: string): string
    requires n <= |steps|
  {
    if n == 0 then START
    else if steps[n - 1].actor == actor then steps[n - 1].checkpoint
    else LastCheckpoint(steps, n - 1, actor)
  }

  ghost predicate PermitOf(e: Event, steps: seq<Step>, i: nat)
    requires i < |steps|
  {
    e.ordinal == 2 * i && e.kind == Permit && e.step == i && e.actor == steps[i].actor
    && e.checkpoint == LastCheckpoint(steps, i, steps[i].actor)
  }

  ghost predicate ArrivalOf(e: Event, steps: seq<Step>, i: nat)
    requires i < |steps|
  {
    e.ordinal == 2 * i + 1 && e.kind == Arrival && e.step == i && e.actor == steps[i].actor
    && e.checkpoint == steps[i].checkpoint
  }

  /** The first `n` steps are logged, a permit and an arrival each. */
  ghost predicate LoggedSteps(events: seq<Event>, steps: seq<Step>, n: nat) {
    && n <= |steps| && 2 * n <= |events|
    && forall i :: 0 <= i < n ==> PermitOf(events[2 * i], steps, i) && ArrivalOf(events[2 * i + 1], steps, i)
  }

  ghost predicate ObservedSteps(observations: seq<nat>, n: nat) {
    |observations| == n + 1 && forall i :: 0 <= i <= n ==> observations[i] == i
  }

  // ----- the invariant -------------------------------------------------------------------

  ghost predicate Identities(s: State) {
    forall i, j :: 0 <= i < j < |s.actors| ==> s.actors[i].name != s.actors[j].name
  }

  ghost predicate ThreadOk(a: Actor) {
    && (a.joined ==> a.where == Exited)
    && (a.where == Exited <==> a.phase == Finished)
    && (a.phase == Starting <==> a.where == Booting || a.where == Absent)
  }

  ghost predicate Threads(s: State) {
    forall i :: 0 <= i < |s.actors| ==> ThreadOk(s.actors[i])
  }

  /** An actor at rest, standing where the plan left it before step `n`. */
  ghost predicate AtRest(a: Actor, steps: seq<Step>, n: nat)
    requires n <= |steps|
  {
    && ((a.phase == Parked && a.where == Blocked) || (a.phase == Finished && a.joined))
    && a.checkpoint == LastCheckpoint(steps, n, a.name)
  }

  ghost predicate OthersAtRest(s: State, k: int, n: nat)
    requires n <= |s.plan.steps|
  {
    forall i :: 0 <= i < |s.actors| && i != k ==> AtRest(s.actors[i], s.plan.steps, n)
  }

  /** The actor that holds the permit: still running and not arrived, or arrived and at its checkpoint. */
  ghost predicate Permitted(a: Actor) {
    if a.phase == Running then a.arrival == None && (a.where == Blocked || a.where == InUser)
    else a.arrival == Some(a.checkpoint) && ((a.phase == Parked && a.where == Blocked) || a.phase == Finished)
  }

  /** While nothing failed and nothing is stopping, the log and the actors are in step. */
  ghost predicate InStep(s: State) {
    var n := s.progress.nextStep;
    match s.controller
    case AtBarrier =>
      && n == 0 && s.journal.events == [] && s.journal.observations == []
      && forall i :: 0 <= i < |s.actors| ==>
           s.actors[i].checkpoint == START
           && (s.actors[i].where == Booting || (s.actors[i].phase == Parked && s.actors[i].where == Blocked))
    case Waiting(k) =>
      && s.life.initialized && k < |s.actors| && n < |s.plan.steps| && s.actors[k].name == s.plan.steps[n].actor
      && LoggedSteps(s.journal.events, s.plan.steps, n) && |s.journal.events| == 2 * n + 1 && PermitOf(s.journal.events[2 * n], s.plan.steps, n)
      && ObservedSteps(s.journal.observations, n) && OthersAtRest(s, k, n) && Permitted(s.actors[k])
    case Settling(k) =>
      && s.life.initialized && k < |s.actors| && n < |s.plan.steps|
      && LoggedSteps(s.journal.events, s.plan.steps, n + 1) && |s.journal.events| == 2 * n + 2
      && ObservedSteps(s.journal.observations, n) && OthersAtRest(s, -1, n + 1)
    case _ =>
      && s.life.initialized && n <= |s.plan.steps|
      && LoggedSteps(s.journal.events, s.plan.steps, n) && |s.journal.events| == 2 * n
      && ObservedSteps(s.journal.observations, n) && OthersAtRest(s, -1, n)
  }

  ghost predicate Live(s: State) {
    !s.failure.failed && !s.life.stopping && s.life.constructed
  }

  /** A completed schedule's log is complete, and nothing is added to it any more. */
  ghost predicate DoneLog(s: State) {
    && LoggedSteps(s.journal.events, s.plan.steps, |s.plan.steps|) && |s.journal.events| == 2 * |s.plan.steps|
    && ObservedSteps(s.journal.observations, |s.plan.steps|)
  }

  ghost predicate Progress(s: State) {
    && (Live(s) ==> InStep(s))
    && (s.progress.scheduleCompleted ==> DoneLog(s) && s.life.initialized)
    && (s.controller == AtBarrier ==> !s.life.initialized && !s.progress.scheduleCompleted && !s.life.closed)
    && (s.controller.Waiting? || s.controller.Settling? ==> !s.progress.scheduleCompleted && !s.life.closed)
  }

  ghost predicate AllJoined(s: State) {
    forall i :: 0 <= i < |s.actors| ==> Started(s.actors[i]) ==> s.actors[i].joined
  }

  ghost predicate Lifecycle(s: State) {
    && (s.failure.failed <==> s.failure.outcome != Completed)
    && (!s.failure.failed ==> s.life.constructed && forall i :: 0 <= i < |s.actors| ==> Started(s.actors[i]))
    && s.teardown.count <= 1
    && (s.teardown.count == 1 ==> AllJoined(s))
    && (s.teardown.attempted ==> s.teardown.count == 1)
    && (s.teardown.count == 1 ==> s.teardown.attempted || s.controller == Gone)
    && (s.teardown.cleanup == Confirmed ==> s.teardown.attempted && !s.teardown.threw && s.life.closed)
    && (s.controller == Cleaning || s.controller == MustClean ==> s.life.closed || !s.life.stopping)
    && (s.controller == Cleaning ==> s.life.closed && s.life.constructed && s.life.stopping)
    && (s.life.stopping ==> s.life.closed || s.controller == Dying || s.controller == Gone)
    && (s.controller == Dying || s.controller == Gone ==> s.life.stopping)
  }

  ghost predicate Inv(s: State) {
    Identities(s) && Threads(s) && Progress(s) && Lifecycle(s)
  }

  lemma {:induction false} InitialInv(s: State)
    requires Initial(s)
    ensures Inv(s)
  {
    hide Plan;
  }

  // ----- failing never disturbs the log -----------------------------------------------------

  lemma {:induction false} FailInv(s: State, outcome: Outcome, detail: Detail)
    requires Inv(s) && outcome != Completed
    ensures Inv(Fail(s, outcome, detail))
  {
    hide LoggedSteps, ObservedSteps, InStep, ThreadOk, Clip;
  }

  lemma {:induction false} PollInv(s: State, late: bool)
    requires Inv(s)
    ensures Inv(Poll(s, late))
  {
    hide Inv, Fail;
    if !s.failure.failed {
      if s.life.cancelled { FailInv(s, Cancelled, ExecutionCancelled); }
      else if late { FailInv(s, TimedOut, DeadlineExceeded); }
    }
  }

  // ----- worker sections --------------------------------------------------------------------

  /** A section that changes one started actor, and perhaps fails, keeps everything but the
      alignment of log and actors, which is left to show. */
  lemma {:induction false} WorkerInv(s: State, t: State, i: nat, a: Actor)
    requires Inv(s) && i < |s.actors| && Started(s.actors[i])
    requires a.name == s.actors[i].name && a.joined == s.actors[i].joined && ThreadOk(a) && Started(a)
    requires t == s.(actors := s.actors[i := a], failure := t.failure)
    requires (t.failure.failed <==> t.failure.outcome != Completed) && (s.failure.failed ==> t.failure.failed)
    requires Live(t) ==> InStep(t)
    ensures Inv(t)
  {
    hide LoggedSteps, ObservedSteps, InStep, ThreadOk;
  }

  /** Until something fails or stops, application code runs only under the current permit. */
  lemma {:induction false} OnlyPermitted(s: State, i: nat)
    requires Inv(s) && Live(s) && At(s, i, InUser)
    ensures s.controller == Waiting(i) && s.actors[i].phase == Running
  {
    hide LoggedSteps, ObservedSteps, LastCheckpoint;
    assert ThreadOk(s.actors[i]);
  }

  lemma {:induction false} BootInv(s: State, i: nat)
    requires Inv(s) && At(s, i, Booting)
    ensures Inv(Boot(s, i))
  {
    hide LoggedSteps, ObservedSteps, LastCheckpoint;
    assert ThreadOk(s.actors[i]);
    var t := Boot(s, i);
    if Live(t) {
      assert s.controller == AtBarrier;
      assert InStep(t);
    }
    WorkerInv(s, t, i, t.actors[i]);
  }

  lemma {:induction false} ResumeInv(s: State, i: nat)
    requires Inv(s) && CanTake(s, DoResume(i))
    ensures Inv(Resume(s, i))
  {
    hide LoggedSteps, ObservedSteps, LastCheckpoint;
    assert ThreadOk(s.actors[i]);
    var t := Resume(s, i);
    if Live(t) {
      assert s.controller == Waiting(i);
      assert InStep(t);
    }
    WorkerInv(s, t, i, t.actors[i]);
  }

  /** Replacing the actor under permit by another permitted state of it stays in step. */
  lemma {:induction false} PermittedChange(s: State, i: nat, a: Actor)
    requires InStep(s) && s.controller == Waiting(i) && i < |s.actors| && a.name == s.actors[i].name && Permitted(a)
    ensures InStep(With(s, i, a))
  {
    hide LoggedSteps, ObservedSteps, LastCheckpoint;
  }

  /** Reaching a declared checkpoint parks the permitted actor there. */
  lemma {:induction false} ParkInv(s: State, i: nat, checkpoint: string)
    requires Inv(s) && At(s, i, InUser) && s.actors[i].phase == Running && !s.life.stopping
    ensures Inv(With(s, i, s.actors[i].(checkpoint := checkpoint, arrival := Some(checkpoint), phase := Parked, where := Blocked)))
  {
    hide InStep;
    assert ThreadOk(s.actors[i]);
    var a := s.actors[i].(checkpoint := checkpoint, arrival := Some(checkpoint), phase := Parked, where := Blocked);
    if Live(s) {
      OnlyPermitted(s, i);
      PermittedChange(s, i, a);
    }
    WorkerInv(s, With(s, i, a), i, a);
  }

  /** Reaching an undeclared one is remembered, and fails the run. */
  lemma {:induction false} StrayInv(s: State, i: nat, seen: string, detail: Detail)
    requires Inv(s) && At(s, i, InUser) && s.actors[i].phase == Running
    ensures Inv(Fail(With(s, i, s.actors[i].(checkpoint := seen, arrival := Some(seen))), UnexpectedCheckpoint, detail))
  {
    hide InStep, Clip;
    assert ThreadOk(s.actors[i]);
    var a := s.actors[i].(checkpoint := seen, arrival := Some(seen));
    WorkerInv(s, Fail(With(s, i, a), UnexpectedCheckpoint, detail), i, a);
  }

  lemma {:induction false} ArriveInv(s: State, i: nat, checkpoint: string)
    requires Inv(s) && At(s, i, InUser)
    ensures Inv(Arrive(s, i, checkpoint))
  {
    hide Inv, Identifier, Clip, Fail, With;
    if s.actors[i].phase != Running {
      FailInv(s, UncontrolledActor, OutsideOwnedActor);
    } else if !s.life.stopping {
      if !Identifier(checkpoint) || checkpoint !in s.plan.checkpoints {
        StrayInv(s, i, Clip(checkpoint, 128), UndeclaredCheckpoint(Clip(checkpoint, 128)));
      } else {
        ParkInv(s, i, checkpoint);
      }
    }
  }

  lemma {:induction false} ExitInv(s: State, i: nat)
    requires Inv(s) && At(s, i, InUser)
    ensures Inv(Exit(s, i))
  {
    hide InStep;
    assert ThreadOk(s.actors[i]);
    var t := Exit(s, i);
    if Live(t) {
      OnlyPermitted(s, i);
      assert Permitted(s.actors[i]) by { PermittedNow(s, i); }
      PermittedChange(s, i, t.actors[i]);
    }
    WorkerInv(s, t, i, t.actors[i]);
  }

  lemma {:induction false} PermittedNow(s: State, i: nat)
    requires InStep(s) && s.controller == Waiting(i)
    ensures i < |s.actors| && Permitted(s.actors[i])
  {
  }

  // ----- controller sections -------------------------------------------------------------------

  /** Moving the controller and adding to the log, without touching the actors. */
  lemma {:induction false} ControllerInv(s: State, t: State)
    requires Inv(s) && t.actors == s.actors && Progress(t)
    requires t.failure.failed == s.failure.failed && t.failure.outcome == s.failure.outcome
    requires t.life.constructed == s.life.constructed && t.life.stopping == s.life.stopping
    requires t.teardown.count == s.teardown.count && t.teardown.attempted == s.teardown.attempted && t.teardown.threw == s.teardown.threw
    requires t.teardown.cleanup == s.teardown.cleanup && t.life.closed == s.life.closed
    requires s.controller != Gone && s.controller != Dying && s.controller != Cleaning && t.controller != Cleaning
    requires t.controller != Gone && t.controller != Dying
    ensures Inv(t)
  {
    hide Progress, ThreadOk;
  }

  /** A failed run that moves to its cleanup keeps the invariant. */
  lemma {:induction false} MustCleanInv(s: State, initialized: bool)
    requires Inv(s) && s.failure.failed && (s.controller == AtBarrier || s.controller == Idle || s.controller.Waiting? || s.controller.Settling?)
    requires initialized == s.life.initialized || !s.progress.scheduleCompleted
    ensures Inv(s.(life := s.life.(initialized := initialized), controller := MustClean))
  {
    hide InStep, LoggedSteps, ObservedSteps;
    ControllerInv(s, s.(life := s.life.(initialized := initialized), controller := MustClean));
  }

  lemma {:induction false} BarrierInv(s: State, late: bool, sound: bool, what: string, lateAgain: bool)
    requires Inv(s) && CanTake(s, DoBarrier(late, sound, what, lateAgain))
    ensures Inv(Barrier(s, late, sound, what, lateAgain))
  {
    hide Clip;
    PollInv(s, late);
    var waited := Poll(s, late);
    if waited.failure.failed {
      hide Inv;
      MustCleanInv(waited, false);
    } else if !sound {
      FailInv(waited, ObservationFailed, Said(Clip(what, MAX_DETAIL)));
      hide Inv;
      MustCleanInv(Fail(waited, ObservationFailed, Said(Clip(what, MAX_DETAIL))), false);
    } else {
      BarrierPassed(s, late, what, lateAgain);
    }
  }

  lemma {:induction false} BarrierPassed(s: State, late: bool, what: string, lateAgain: bool)
    requires Inv(s) && CanTake(s, DoBarrier(late, true, what, lateAgain)) && !Poll(s, late).failure.failed
    ensures Inv(Barrier(s, late, true, what, lateAgain))
  {
    hide Clip;
    var u := s.(journal := s.journal.(observations := s.journal.observations + [0]), life := s.life.(initialized := true), controller := Idle);
    assert !s.failure.failed && !s.life.cancelled && !late;
    if Live(u) {
      forall i | 0 <= i < |u.actors| ensures AtRest(u.actors[i], u.plan.steps, 0) { assert ThreadOk(s.actors[i]); }
      assert InStep(u);
    }
    ControllerInv(s, u);
    PollInv(u, lateAgain);
    var v := Poll(u, lateAgain);
    var t := Barrier(s, late, true, what, lateAgain);
    if v.failure.failed {
      hide InStep;
      ControllerInv(v, t);
    } else {
      assert t == u;
    }
  }

  lemma {:induction false} LoggedMore(events: seq<Event>, more: seq<Event>, steps: seq<Step>, n: nat)
    requires LoggedSteps(events, steps, n)
    ensures LoggedSteps(events + more, steps, n)
  {
    assert forall i :: 0 <= i < 2 * n ==> (events + more)[i] == events[i];
  }

  /** The permit event of the next step records where the actor stands. */
  lemma {:induction false} PermitInv(s: State, k: nat)
    requires Inv(s) && s.controller == Idle && CanAdvance(s) && Live(s) && s.progress.nextStep < |s.plan.steps|
    requires k < |s.actors| && s.actors[k].name == s.plan.steps[s.progress.nextStep].actor && s.actors[k].phase == Parked
    ensures var a := s.actors[k];
            Inv(With(Log(s, Permit, a, a.checkpoint), k, a.(arrival := None, phase := Running)).(controller := Waiting(k)))
  {
    var a, n := s.actors[k], s.progress.nextStep;
    var logged := Log(s, Permit, a, a.checkpoint);
    var t := With(logged, k, a.(arrival := None, phase := Running)).(controller := Waiting(k));
    assert ThreadOk(a) && AtRest(a, s.plan.steps, n);
    LoggedMore(s.journal.events, [logged.journal.events[|s.journal.events|]], s.plan.steps, n);
    assert PermitOf(t.journal.events[2 * n], s.plan.steps, n);
    hide LoggedSteps, ObservedSteps, LastCheckpoint, PermitOf;
    assert InStep(t);
  }

  lemma {:induction false} IdleIsLive(s: State)
    requires Inv(s) && s.controller == Idle && CanAdvance(s)
    ensures Live(s)
  {
    hide InStep, DoneLog;
  }

  lemma {:induction false} AdvanceInv(s: State, requested: Step, late: bool)
    requires Inv(s) && s.controller == Idle
    ensures Inv(Advance(s, requested, late))
  {
    hide Inv, Fail, With, Log, Poll;
    if CanAdvance(s) {
      IdleIsLive(s);
      PollInv(s, late);
      if Poll(s, late).failure.failed {
        MustCleanInv(Poll(s, late), s.life.initialized);
      } else if s.progress.nextStep >= |s.plan.steps| || requested != s.plan.steps[s.progress.nextStep] {
        RefuseInv(s, InvalidSchedule, IntervalDiffers);
      } else {
        var k := Find(s.actors, requested.actor, 0);
        if k.None? || s.actors[k.value].phase != Parked {
          RefuseInv(s, UnexpectedCheckpoint, ActorNotParked);
        } else {
          PermitInv(s, k.value);
        }
      }
    }
  }

  lemma {:induction false} RefuseInv(s: State, outcome: Outcome, detail: Detail)
    requires Inv(s) && s.controller == Idle && outcome != Completed
    ensures Inv(Fail(s, outcome, detail).(controller := MustClean))
  {
    hide Inv, Fail;
    FailInv(s, outcome, detail);
    MustCleanInv(Fail(s, outcome, detail), s.life.initialized);
  }

  /** Logging an arrival in a failed run that has not completed keeps the invariant. */
  lemma {:induction false} FailedLogInv(s: State, a: Actor)
    requires Inv(s) && s.failure.failed && s.controller.Waiting?
    ensures Inv(LogArrival(s, a).(controller := MustClean))
  {
    hide InStep, DoneLog;
    ControllerInv(s, LogArrival(s, a).(controller := MustClean));
  }

  /** After a matching arrival every actor stands where the plan says after the step. */
  lemma {:induction false} RestAfterMatch(s: State, k: nat, a: Actor)
    requires Inv(s) && s.controller == Waiting(k) && Live(s) && k < |s.actors| && s.progress.nextStep < |s.plan.steps|
    requires a == s.actors[k].(joined := a.joined) && a.phase != Running && (a.phase == Finished ==> a.joined) && a.checkpoint == s.plan.steps[s.progress.nextStep].checkpoint
    ensures OthersAtRest(With(s, k, a), -1, s.progress.nextStep + 1)
  {
    hide LoggedSteps, ObservedSteps, PermitOf;
    var n := s.progress.nextStep;
    assert Permitted(s.actors[k]) && a.name == s.plan.steps[n].actor;
    forall i | 0 <= i < |s.actors| ensures AtRest(With(s, k, a).actors[i], s.plan.steps, n + 1) {
      if i != k { assert AtRest(s.actors[i], s.plan.steps, n) && s.actors[i].name != s.actors[k].name; }
    }
  }

  lemma {:induction false} PairLogged(s: State, k: nat, e: Event)
    requires InStep(s) && s.controller == Waiting(k) && ArrivalOf(e, s.plan.steps, s.progress.nextStep)
    ensures LoggedSteps(s.journal.events + [e], s.plan.steps, s.progress.nextStep + 1) && |s.journal.events + [e]| == 2 * s.progress.nextStep + 2
  {
    hide OthersAtRest, Permitted, ObservedSteps;
    LoggedMore(s.journal.events, [e], s.plan.steps, s.progress.nextStep);
    assert (s.journal.events + [e])[2 * s.progress.nextStep] == s.journal.events[2 * s.progress.nextStep];
  }

  /** Joining the actor under permit and logging its arrival, given that the result is in step. */
  lemma {:induction false} JoinInv(s: State, k: nat, joined: bool, events: seq<Event>)
    requires Inv(s) && s.controller == Waiting(k) && k < |s.actors|
    requires joined ==> s.actors[k].joined || s.actors[k].phase == Finished
    requires s.actors[k].joined ==> joined
    requires var t := s.(actors := s.actors[k := s.actors[k].(joined := joined)], journal := s.journal.(events := events), controller := Settling(k));
             Live(t) ==> InStep(t)
    ensures Inv(s.(actors := s.actors[k := s.actors[k].(joined := joined)], journal := s.journal.(events := events), controller := Settling(k)))
  {
    hide InStep, DoneLog;
    var t := s.(actors := s.actors[k := s.actors[k].(joined := joined)], journal := s.journal.(events := events), controller := Settling(k));
    assert ThreadOk(s.actors[k]);
    assert ThreadOk(t.actors[k]);
  }

  lemma {:induction false} MatchInStep(s: State, k: nat, joined: bool, e: Event)
    requires Inv(s) && s.controller == Waiting(k) && Live(s) && k < |s.actors| && s.progress.nextStep < |s.plan.steps|
    requires s.actors[k].phase != Running && s.actors[k].checkpoint == s.plan.steps[s.progress.nextStep].checkpoint
    requires ArrivalOf(e, s.plan.steps, s.progress.nextStep) && (s.actors[k].phase == Finished ==> joined)
    ensures InStep(s.(actors := s.actors[k := s.actors[k].(joined := joined)], journal := s.journal.(events := s.journal.events + [e]),
                        controller := Settling(k)))
  {
    var b := s.actors[k].(joined := joined);
    var t := s.(actors := s.actors[k := b], journal := s.journal.(events := s.journal.events + [e]), controller := Settling(k));
    PairLogged(s, k, e);
    RestAfterMatch(s, k, b);
    hide LoggedSteps, ObservedSteps, PermitOf, ArrivalOf, AtRest, ThreadOk, Lifecycle;
    assert t.actors == With(s, k, b).actors;
  }

  /** A matching arrival completes the step's pair of events. */
  lemma {:induction false} MatchInv(s: State, k: nat)
    requires Inv(s) && s.controller == Waiting(k) && Live(s) && k < |s.actors| && s.progress.nextStep < |s.plan.steps|
    requires s.actors[k].phase != Running && s.actors[k].checkpoint == s.plan.steps[s.progress.nextStep].checkpoint
    ensures var a := s.actors[k];
            Inv(With(LogArrival(s, a), k, a.(joined := a.joined || a.phase == Finished)).(controller := Settling(k)))
  {
    var a := s.actors[k];
    PermittedNow(s, k);
    var e := ArrivalEvent(s, k);
    hide Inv, InStep, Permitted, ArrivalOf;
    var joined := a.joined || a.phase == Finished;
    MatchInStep(s, k, joined, e);
    JoinInv(s, k, joined, s.journal.events + [e]);
  }

  lemma {:induction false} ArrivalEvent(s: State, k: nat) returns (e: Event)
    requires InStep(s) && s.controller == Waiting(k) && k < |s.actors|
    requires s.actors[k].phase != Running && s.actors[k].checkpoint == s.plan.steps[s.progress.nextStep].checkpoint
    ensures s.progress.nextStep < |s.plan.steps| && ArrivalOf(e, s.plan.steps, s.progress.nextStep)
    ensures LogArrival(s, s.actors[k]) == s.(journal := s.journal.(events := s.journal.events + [e]))
  {
    hide LoggedSteps, ObservedSteps, OthersAtRest, PermitOf;
    e := Event(|s.journal.events|, Arrival, s.progress.nextStep, s.actors[k].name, s.actors[k].operation, s.actors[k].checkpoint);
  }

  lemma {:induction false} WokenInv(s: State, late: bool)
    requires Inv(s) && CanTake(s, DoWoken(late))
    ensures Inv(Woken(s, late))
  {
    hide Inv, Fail, With, Log, LogArrival, Poll;
    var k := s.controller.k;
    PollInv(s, late);
    if Poll(s, late).failure.failed {
      FailedLogInv(Poll(s, late), s.actors[k]);
    } else if s.actors[k].checkpoint != s.plan.steps[s.progress.nextStep].checkpoint {
      FailInv(s, UnexpectedCheckpoint, ArrivedElsewhere);
      FailedLogInv(Fail(s, UnexpectedCheckpoint, ArrivedElsewhere), s.actors[k]);
    } else {
      WaitingIsLive(s);
      MatchInv(s, k);
    }
  }

  lemma {:induction false} WaitingIsLive(s: State)
    requires Inv(s) && s.controller.Waiting? && !s.failure.failed
    ensures Live(s)
  {
    hide InStep, DoneLog;
  }

  ghost function Stepped(s: State): State {
    s.(progress := s.progress.(nextStep := s.progress.nextStep + 1),
       journal := s.journal.(observations := s.journal.observations + [s.progress.nextStep + 1]))
  }

  /** A sound observation of a matched step moves the plan on by one. */
  lemma {:induction false} StepDone(s: State, k: nat)
    requires Inv(s) && s.controller == Settling(k) && Live(s)
    ensures var t := Stepped(s).(controller := Idle);
            Inv(t) && t.progress.nextStep <= |t.plan.steps| && (t.progress.nextStep == |t.plan.steps| ==> DoneLog(t))
  {
    var t := Stepped(s).(controller := Idle);
    hide LoggedSteps, AtRest;
    assert ObservedSteps(t.journal.observations, t.progress.nextStep);
    assert OthersAtRest(t, -1, t.progress.nextStep) by { assert OthersAtRest(s, -1, s.progress.nextStep + 1); }
    assert InStep(t);
    hide InStep;
    ControllerInv(s, t);
  }

  /** Whatever a failed run records while settling, it has not completed. */
  lemma {:induction false} FailedSettleInv(s: State, nextStep: nat, observations: seq<nat>)
    requires Inv(s) && s.failure.failed && s.controller.Settling?
    ensures Inv(s.(progress := s.progress.(nextStep := nextStep), journal := s.journal.(observations := observations), controller := MustClean))
  {
    hide InStep, DoneLog;
    ControllerInv(s, s.(progress := s.progress.(nextStep := nextStep), journal := s.journal.(observations := observations), controller := MustClean));
  }

  lemma {:induction false} SettlingIsLive(s: State)
    requires Inv(s) && s.controller.Settling?
    ensures !s.failure.failed ==> Live(s)
    ensures !s.progress.scheduleCompleted
  {
    hide InStep, DoneLog;
  }

  lemma {:induction false} SettleInv(s: State, sound: bool, what: string, late: bool)
    requires Inv(s) && s.controller.Settling?
    ensures Inv(Settle(s, sound, what, late))
  {
    SettlingIsLive(s);
    var t := Settle(s, sound, what, late);
    if s.failure.failed {
      hide Inv;
      FailedSettleInv(s, t.progress.nextStep, t.journal.observations);
    } else if !sound {
      hide Inv, Clip;
      FailInv(s, ObservationFailed, Said(Clip(what, MAX_DETAIL)));
      FailedSettleInv(Fail(s, ObservationFailed, Said(Clip(what, MAX_DETAIL))), t.progress.nextStep, t.journal.observations);
    } else {
      SettleSound(s, what, late);
    }
  }

  lemma {:induction false} SettleSound(s: State, what: string, late: bool)
    requires Inv(s) && s.controller.Settling? && Live(s) && !s.progress.scheduleCompleted
    ensures Inv(Settle(s, true, what, late))
  {
    hide Inv, Fail, DoneLog;
    StepDone(s, s.controller.k);
    var u := Stepped(s).(controller := Idle);
    PollInv(u, late);
    var v := Stepped(s);
    PollMoves(v, late, Idle);
    var t := Settle(s, true, what, late);
    if Poll(u, late).failure.failed {
      MustCleanInv(Poll(u, late), u.life.initialized);
    } else if u.progress.nextStep == |u.plan.steps| {
      CompleteInv(u);
    }
  }

  lemma {:induction false} FailMoves(s: State, outcome: Outcome, detail: Detail, c: Controller)
    ensures Fail(s.(controller := c), outcome, detail) == Fail(s, outcome, detail).(controller := c)
  {
  }

  lemma {:induction false} PollMoves(s: State, late: bool, c: Controller)
    ensures Poll(s.(controller := c), late) == Poll(s, late).(controller := c)
  {
    hide Fail;
    if s.life.cancelled {
      FailMoves(s, Cancelled, ExecutionCancelled, c);
    } else {
      FailMoves(s, TimedOut, DeadlineExceeded, c);
    }
  }

  lemma {:induction false} CompleteInv(s: State)
    requires Inv(s) && s.controller == Idle && Live(s) && s.progress.nextStep == |s.plan.steps| && DoneLog(s)
    ensures Inv(s.(progress := s.progress.(scheduleCompleted := true)))
  {
    hide LoggedSteps, ObservedSteps, AtRest;
    var t := s.(progress := s.progress.(scheduleCompleted := true));
    assert InStep(t);
    hide InStep;
    ControllerInv(s, t);
  }

  lemma {:induction false} FinishInv(s: State)
    requires Inv(s) && s.controller == Idle
    ensures Inv(Finish(s))
  {
    hide Clip, LoggedSteps, ObservedSteps, AtRest;
    if !s.life.closed && s.life.constructed {
      if s.life.initialized && s.progress.scheduleCompleted {
        var t := s.(controller := MustClean);
        assert Live(t) ==> InStep(t);
        hide InStep;
        ControllerInv(s, t);
      } else {
        FailInv(s, InvalidSchedule, ScheduleIncomplete);
        hide Inv;
        MustCleanInv(Fail(s, InvalidSchedule, ScheduleIncomplete), s.life.initialized);
      }
    }
  }

  lemma {:induction false} CleanupBeginInv(s: State)
    requires Inv(s) && (s.controller == Idle || s.controller == MustClean)
    ensures Inv(CleanupBegin(s))
  {
    hide InStep, LoggedSteps, ObservedSteps, ThreadOk;
  }

  lemma {:induction false} CleanupEndInv(s: State, threw: bool)
    requires Inv(s) && s.controller == Cleaning
    ensures Inv(CleanupEnd(s, threw))
  {
    hide InStep, LoggedSteps, ObservedSteps;
    var t := CleanupEnd(s, threw);
    forall i | 0 <= i < |t.actors| ensures ThreadOk(t.actors[i]) { assert ThreadOk(s.actors[i]); }
    assert s.life.stopping by { CleaningStops(s); }
  }

  lemma {:induction false} CleaningStops(s: State)
    requires Inv(s) && s.controller == Cleaning
    ensures s.life.stopping
  {
  }

  lemma {:induction false} DestroyBeginInv(s: State)
    requires Inv(s) && s.controller == Idle
    ensures Inv(DestroyBegin(s))
  {
    hide InStep, LoggedSteps, ObservedSteps, ThreadOk;
  }

  lemma {:induction false} DestroyEndInv(s: State)
    requires Inv(s) && CanTake(s, DoDestroyEnd)
    ensures Inv(DestroyEnd(s))
  {
    hide InStep, LoggedSteps, ObservedSteps;
    var t := DestroyEnd(s);
    forall i | 0 <= i < |t.actors| ensures ThreadOk(t.actors[i]) && (Started(t.actors[i]) ==> t.actors[i].joined) {
      assert ThreadOk(s.actors[i]);
    }
  }

  lemma {:induction false} StopTokenInv(s: State)
    requires Inv(s)
    ensures Inv(s.(life := s.life.(cancelled := true)))
  {
    hide LoggedSteps, ObservedSteps, AtRest, ThreadOk;
    assert Live(s) ==> InStep(s.(life := s.life.(cancelled := true)));
  }

  // ----- every run --------------------------------------------------------------------------------

  lemma {:induction false} StepInv(s: State, l: Label)
    requires Inv(s) && CanTake(s, l)
    ensures Inv(Take(s, l))
  {
    hide Inv, Boot, Resume, Arrive, Exit, Barrier, Advance, Woken, Settle, Finish, CleanupBegin, CleanupEnd, Fail, DestroyBegin, DestroyEnd;
    match l
    case DoBoot(i) => BootInv(s, i);
    case DoResume(i) => ResumeInv(s, i);
    case DoArrive(i, checkpoint) => ArriveInv(s, i, checkpoint);
    case DoForeignArrive(_) => FailInv(s, UncontrolledActor, OutsideOwnedActor);
    case DoCrash(_, what) => FailInv(s, ApplicationFailed, Said(Clip(what, MAX_DETAIL)));
    case DoExit(i) => ExitInv(s, i);
    case DoStopToken => StopTokenInv(s);
    case DoBarrier(late, sound, what, lateAgain) => BarrierInv(s, late, sound, what, lateAgain);
    case DoAdvance(requested, late) => AdvanceInv(s, requested, late);
    case DoWoken(late) => WokenInv(s, late);
    case DoSettle(sound, what, late) => SettleInv(s, sound, what, late);
    case DoFinish => FinishInv(s);
    case DoCleanupBegin => CleanupBeginInv(s);
    case DoCleanupEnd(threw) => CleanupEndInv(s, threw);
    case DoDestroyBegin => DestroyBeginInv(s);
    case DoDestroyEnd => DestroyEndInv(s);
  }

  lemma {:induction false} RunInv(s: State, labels: seq<Label>, t: State)
    requires Inv(s) && Runs(s, labels, t)
    ensures Inv(t)
    decreases |labels|
  {
    hide Inv, Take;
    if labels != [] {
      StepInv(s, labels[0]);
      RunInv(Take(s, labels[0]), labels[1..], t);
    }
  }
}
