/** One checkpoint execution, updated in place by one method per critical section. Every method
    takes the machine's step of its label, so that whatever is proved of runs holds of the object. */
module CheckpointExecutions {
  import opened Schedules
  import opened Admission
  import opened CheckpointMachine
  import opened CheckpointSafety
  import opened CheckpointTheorems
  import opened CheckpointCooperation

  lemma {:induction false} RunsAppend(s: State, labels: seq<Label>, t: State, l: Label)
    requires Runs(s, labels, t) && CanTake(t, l)
    ensures Runs(s, labels + [l], Take(t, l))
    decreases |labels|
  {
    hide CanTake, Take;
    if labels == [] {
      assert (labels + [l])[1..] == [];
    } else {
      RunsAppend(Take(s, labels[0]), labels[1..], t, l);
      assert (labels + [l])[1..] == labels[1..] + [l];
    }
  }

  class Execution {
    const plan: Admitted
    var actors: seq<Actor>
    var failure: Failure
    var life: Life
    var progress: Position
    var journal: Journal
    var teardown: Teardown
    var controller: Controller
    ghost const start: State
    ghost var labels: seq<Label>

    function Snapshot(): State
      reads this
    {
      State(plan, actors, failure, life, progress, journal, teardown, controller)
    }

    /** The object is where the machine's run over its labels has come to. */
    ghost predicate Valid()
      reads this
    {
      Initial(start) && WellDeclared(start) && Runs(start, labels, Snapshot())
    }

    /** An admitted plan: the program was constructed or not, and threads were created for the
        first `made` actors; anything short of all of them is a failure. */
    constructor (declared: seq<ActorDeclaration>, plan: Admitted, constructed: bool, made: nat, failure: Failure)
      requires forall i, j :: 0 <= i < j < |declared| ==> declared[i].actor != declared[j].actor
      requires Plan(Names(declared), plan.checkpoints, plan.steps)
      requires declared != [] && forall c :: c in plan.checkpoints ==> Identifier(c)
      requires failure.failed <==> failure.outcome != Completed
      requires made <= |declared| && (!constructed ==> made == 0 && failure.failed) && (made < |declared| ==> failure.failed)
      ensures Valid() && labels == [] && this.plan == plan && this.failure == failure && life.constructed == constructed
      ensures |actors| == |declared| && (constructed ==> controller == AtBarrier) && (!constructed ==> controller == Idle)
      ensures !life.closed && !life.initialized && progress == Position(0, false) && !teardown.attempted
    {
      this.plan, this.failure := plan, failure;
      var cast := seq(|declared|, i requires 0 <= i < |declared| =>
        Actor(declared[i].actor, declared[i].operation, Starting, START, None, if i < made then Booting else Absent, false));
      NamesKept(declared, cast);
      var begin := if constructed then AtBarrier else Idle;
      actors, life, progress := cast, Life(false, false, constructed, false, false), Position(0, false);
      journal, teardown, controller := Journal([], []), Teardown(NotCleaned, [], false, false, 0), begin;
      start := State(plan, cast, failure, Life(false, false, constructed, false, false), Position(0, false),
                     Journal([], []), Teardown(NotCleaned, [], false, false, 0), begin);
      labels := [];
    }

    // ----- parts of sections ---------------------------------------------------------------------

    method MarkFailed(why: Outcome, said: Detail)
      modifies `failure
      ensures Snapshot() == Fail(old(Snapshot()), why, said)
    {
      if !failure.failed { failure := Failure(true, why, said); }
    }

    method PollStop(late: bool)
      modifies `failure
      ensures Snapshot() == Poll(old(Snapshot()), late)
    {
      if !failure.failed && life.cancelled { MarkFailed(Cancelled, ExecutionCancelled); }
      if !failure.failed && late { MarkFailed(TimedOut, DeadlineExceeded); }
    }

    method LogEvent(kind: EventKind, a: Actor, checkpoint: string)
      modifies `journal
      ensures Snapshot() == Log(old(Snapshot()), kind, a, checkpoint)
    {
      var e := Event(|journal.events|, kind, progress.nextStep, a.name, a.operation, checkpoint);
      journal := journal.(events := journal.events + [e]);
    }

    method ObserveState(index: nat, sound: bool, what: string)
      modifies `journal, `failure
      ensures Snapshot() == Observe(old(Snapshot()), index, sound, what)
    {
      if sound {
        journal := journal.(observations := journal.observations + [index]);
      } else {
        MarkFailed(ObservationFailed, Said(Clip(what, MAX_DETAIL)));
      }
    }

    method SetActor(i: nat, a: Actor)
      requires i < |actors|
      modifies `actors
      ensures Snapshot() == With(old(Snapshot()), i, a)
    {
      actors := actors[i := a];
    }

    /** The section that has just run is the step of `l`. */
    ghost method Took(s: State, l: Label)
      requires Initial(start) && WellDeclared(start) && Runs(start, labels, s) && CanTake(s, l) && Snapshot() == Take(s, l)
      modifies `labels
      ensures Valid() && labels == old(labels) + [l]
    {
      hide Initial, WellDeclared, Runs, CanTake, Take;
      RunsAppend(start, labels, s, l);
      labels := labels + [l];
    }

    // ----- worker sections --------------------------------------------------------------------------

    method BootWorker(i: nat)
      requires Valid() && CanTake(Snapshot(), DoBoot(i))
      modifies this
      ensures Valid() && Snapshot() == Take(old(Snapshot()), DoBoot(i)) && labels == old(labels) + [DoBoot(i)]
    {
      hide Initial, WellDeclared, Runs;
      ghost var s := Snapshot();
      SetActor(i, actors[i].(phase := Parked, where := Blocked));
      Took(s, DoBoot(i));
    }

    /** A worker reaches a checkpoint. */
    method ArriveAt(i: nat, checkpoint: string)
      requires Valid() && CanTake(Snapshot(), DoArrive(i, checkpoint))
      modifies this
      ensures Valid() && Snapshot() == Take(old(Snapshot()), DoArrive(i, checkpoint))
      ensures labels == old(labels) + [DoArrive(i, checkpoint)]
    {
      hide Initial, WellDeclared, Runs, Clip, Identifier, Fail, With;
      ghost var s := Snapshot();
      var a := actors[i];
      if a.phase != Running {
        MarkFailed(UncontrolledActor, OutsideOwnedActor);
      } else if !life.stopping {
        if !Identifier(checkpoint) || checkpoint !in plan.checkpoints {
          var seen := Clip(checkpoint, 128);
          SetActor(i, a.(checkpoint := seen, arrival := Some(seen)));
          MarkFailed(UnexpectedCheckpoint, UndeclaredCheckpoint(seen));
        } else {
          SetActor(i, a.(checkpoint := checkpoint, arrival := Some(checkpoint), phase := Parked, where := Blocked));
        }
      }
      Took(s, DoArrive(i, checkpoint));
    }

    /** A worker leaves its wait, permitted or to stop. */
    method ResumeWorker(i: nat)
      requires Valid() && CanTake(Snapshot(), DoResume(i))
      modifies this
      ensures Valid() && Snapshot() == Take(old(Snapshot()), DoResume(i)) && labels == old(labels) + [DoResume(i)]
    {
      hide Initial, WellDeclared, Runs;
      ghost var s := Snapshot();
      SetActor(i, actors[i].(where := InUser));
      Took(s, DoResume(i));
    }

    /** A hook used from a thread that does not own it. */
    method ForeignArrive(i: nat)
      requires Valid() && CanTake(Snapshot(), DoForeignArrive(i))
      modifies this
      ensures Valid() && Snapshot() == Take(old(Snapshot()), DoForeignArrive(i)) && labels == old(labels) + [DoForeignArrive(i)]
    {
      hide Initial, WellDeclared, Runs;
      ghost var s := Snapshot();
      MarkFailed(UncontrolledActor, OutsideOwnedActor);
      Took(s, DoForeignArrive(i));
    }

    /** A worker's function throws. */
    method CrashWorker(i: nat, what: string)
      requires Valid() && CanTake(Snapshot(), DoCrash(i, what))
      modifies this
      ensures Valid() && Snapshot() == Take(old(Snapshot()), DoCrash(i, what)) && labels == old(labels) + [DoCrash(i, what)]
    {
      hide Initial, WellDeclared, Runs, Clip;
      ghost var s := Snapshot();
      MarkFailed(ApplicationFailed, Said(Clip(what, MAX_DETAIL)));
      Took(s, DoCrash(i, what));
    }

    /** A worker's last section. */
    method ExitWorker(i: nat)
      requires Valid() && CanTake(Snapshot(), DoExit(i))
      modifies this
      ensures Valid() && Snapshot() == Take(old(Snapshot()), DoExit(i)) && labels == old(labels) + [DoExit(i)]
    {
      hide Initial, WellDeclared, Runs;
      ghost var s := Snapshot();
      var a := actors[i].(checkpoint := COMPLETION);
      if a.arrival.None? { a := a.(arrival := Some(COMPLETION)); }
      SetActor(i, a.(phase := Finished, where := Exited));
      Took(s, DoExit(i));
    }

    /** The stop token fires. */
    method RequestStop()
      requires Valid() && CanTake(Snapshot(), DoStopToken)
      modifies this
      ensures Valid() && Snapshot() == Take(old(Snapshot()), DoStopToken) && labels == old(labels) + [DoStopToken]
    {
      hide Initial, WellDeclared, Runs;
      ghost var s := Snapshot();
      life := life.(cancelled := true);
      Took(s, DoStopToken);
    }

    // ----- controller sections -----------------------------------------------------------------------

    /** The initial barrier is over: observe the initial state unless the wait failed. */
    method PassBarrier(late: bool, sound: bool, what: string, lateAgain: bool)
      requires Valid() && CanTake(Snapshot(), DoBarrier(late, sound, what, lateAgain))
      modifies this
      ensures Valid() && Snapshot() == Take(old(Snapshot()), DoBarrier(late, sound, what, lateAgain))
      ensures labels == old(labels) + [DoBarrier(late, sound, what, lateAgain)]
    {
      hide Initial, WellDeclared, Runs, Fail, Poll, Observe;
      ghost var s := Snapshot();
      PollStop(late);
      if !failure.failed { ObserveState(0, sound, what); }
      PollStop(lateAgain);
      life := life.(initialized := !failure.failed);
      controller := if failure.failed then MustClean else Idle;
      Took(s, DoBarrier(late, sound, what, lateAgain));
    }

    /** The first part of an advance: checks, then the permit. A call out of turn is refused. */
    method GrantStep(requested: Step, late: bool) returns (refused: bool)
      requires Valid() && CanTake(Snapshot(), DoAdvance(requested, late))
      modifies this
      ensures Valid() && Snapshot() == Take(old(Snapshot()), DoAdvance(requested, late))
      ensures labels == old(labels) + [DoAdvance(requested, late)]
      ensures refused <==> !CanAdvance(old(Snapshot()))
    {
      hide Initial, WellDeclared, Runs, Fail, Poll, Log, With, Find;
      ghost var s := Snapshot();
      refused := !life.initialized || life.closed || failure.failed || progress.scheduleCompleted;
      if !refused {
        PollStop(late);
        if !failure.failed && (progress.nextStep >= |plan.steps| || requested != plan.steps[progress.nextStep]) {
          MarkFailed(InvalidSchedule, IntervalDiffers);
        }
        if failure.failed {
          controller := MustClean;
        } else {
          var k := FindActor(actors, requested.actor);
          if k == |actors| || actors[k].phase != Parked {
            MarkFailed(UnexpectedCheckpoint, ActorNotParked);
            controller := MustClean;
          } else {
            var a := actors[k];
            LogEvent(Permit, a, a.checkpoint);
            SetActor(k, a.(arrival := None, phase := Running));
            controller := Waiting(k);
          }
        }
      }
      Took(s, DoAdvance(requested, late));
    }

    /** The second part: the wait is over; log and compare the arrival, join a finished actor. */
    method ReceiveArrival(late: bool)
      requires Valid() && CanTake(Snapshot(), DoWoken(late))
      modifies this
      ensures Valid() && Snapshot() == Take(old(Snapshot()), DoWoken(late)) && labels == old(labels) + [DoWoken(late)]
    {
      hide Initial, WellDeclared, Runs, Fail, Poll, Log, With;
      ghost var s := Snapshot();
      var k := controller.k;
      var a := actors[k];
      PollStop(late);
      if !failure.failed && a.checkpoint != plan.steps[progress.nextStep].checkpoint {
        MarkFailed(UnexpectedCheckpoint, ArrivedElsewhere);
      }
      if a.arrival.Some? { LogEvent(Arrival, a, a.arrival.value); }
      if failure.failed {
        controller := MustClean;
      } else {
        SetActor(k, a.(joined := a.joined || a.phase == Finished));
        controller := Settling(k);
      }
      Took(s, DoWoken(late));
    }

    /** The last part of an advance: count the step, observe, and complete the schedule after the last one. */
    method SettleStep(sound: bool, what: string, late: bool)
      requires Valid() && CanTake(Snapshot(), DoSettle(sound, what, late))
      modifies this
      ensures Valid() && Snapshot() == Take(old(Snapshot()), DoSettle(sound, what, late))
      ensures labels == old(labels) + [DoSettle(sound, what, late)]
    {
      hide Initial, WellDeclared, Runs, Fail, Poll, Observe;
      ghost var s := Snapshot();
      progress := progress.(nextStep := progress.nextStep + 1);
      ObserveState(progress.nextStep, sound, what);
      PollStop(late);
      if !failure.failed && progress.nextStep == |plan.steps| { progress := progress.(scheduleCompleted := true); }
      controller := if failure.failed then MustClean else Idle;
      Took(s, DoSettle(sound, what, late));
    }

    /** Finishing before the schedule is complete is a failure; closed executions are left alone. */
    method RequestFinish()
      requires Valid() && CanTake(Snapshot(), DoFinish)
      modifies this
      ensures Valid() && Snapshot() == Take(old(Snapshot()), DoFinish) && labels == old(labels) + [DoFinish]
    {
      hide Initial, WellDeclared, Runs, Fail;
      ghost var s := Snapshot();
      if !life.closed && life.constructed {
        if !failure.failed && (!life.initialized || !progress.scheduleCompleted) { MarkFailed(InvalidSchedule, ScheduleIncomplete); }
        controller := MustClean;
      }
      Took(s, DoFinish);
    }

    /** Closing comes first; without a constructed program nothing else happens. */
    method BeginCleanup()
      requires Valid() && CanTake(Snapshot(), DoCleanupBegin)
      modifies this
      ensures Valid() && Snapshot() == Take(old(Snapshot()), DoCleanupBegin) && labels == old(labels) + [DoCleanupBegin]
    {
      hide Initial, WellDeclared, Runs;
      ghost var s := Snapshot();
      life := life.(closed := true);
      if life.constructed {
        life := life.(stopping := true, cancelled := true);
        controller := Cleaning;
      } else {
        controller := Idle;
      }
      Took(s, DoCleanupBegin);
    }

    /** Joins what has finished, lists what has not, and tears down once nothing is left. */
    method EndCleanup(threw: bool)
      requires Valid() && CanTake(Snapshot(), DoCleanupEnd(threw))
      modifies this
      ensures Valid() && Snapshot() == Take(old(Snapshot()), DoCleanupEnd(threw)) && labels == old(labels) + [DoCleanupEnd(threw)]
    {
      hide Initial, WellDeclared, Runs, JoinFinished, Unjoined;
      ghost var s := Snapshot();
      actors := JoinAll(actors);
      var remaining := ListUnjoined(actors);
      if remaining == [] && !teardown.attempted {
        teardown := teardown.(attempted := true, count := teardown.count + 1, threw := threw);
      }
      var status := if remaining != [] then Incomplete else if teardown.threw then TeardownFailed else Confirmed;
      teardown := teardown.(remaining := remaining, cleanup := status);
      controller := Idle;
      Took(s, DoCleanupEnd(threw));
    }

    /** The destructor stops everybody. */
    method BeginDestroy()
      requires Valid() && CanTake(Snapshot(), DoDestroyBegin)
      modifies this
      ensures Valid() && Snapshot() == Take(old(Snapshot()), DoDestroyBegin) && labels == old(labels) + [DoDestroyBegin]
    {
      hide Initial, WellDeclared, Runs;
      ghost var s := Snapshot();
      life := life.(stopping := true, cancelled := true);
      controller := Dying;
      Took(s, DoDestroyBegin);
    }

    /** The destructor has joined every thread; it tears down if nobody has. */
    method EndDestroy()
      requires Valid() && CanTake(Snapshot(), DoDestroyEnd)
      modifies this
      ensures Valid() && Snapshot() == Take(old(Snapshot()), DoDestroyEnd) && labels == old(labels) + [DoDestroyEnd]
    {
      hide Initial, WellDeclared, Runs, JoinFinished;
      ghost var s := Snapshot();
      actors := JoinAll(actors);
      if life.constructed && !teardown.attempted { teardown := teardown.(count := teardown.count + 1); }
      controller := Gone;
      Took(s, DoDestroyEnd);
    }
  }

  lemma {:induction false} NamesKept(declared: seq<ActorDeclaration>, actors: seq<Actor>)
    requires |actors| == |declared|
    requires forall i :: 0 <= i < |declared| ==> actors[i].name == declared[i].actor
    ensures (set i | 0 <= i < |actors| :: actors[i].name) == Names(declared)
  {
    forall name | name in Names(declared) ensures name in (set i | 0 <= i < |actors| :: actors[i].name) {
      var i :| 0 <= i < |declared| && declared[i].actor == name;
      assert actors[i].name == name;
    }
  }

  /** The index of the first actor of that name, or the number of actors. */
  method FindActor(actors: seq<Actor>, name: string) returns (k: nat)
    ensures k <= |actors| && Find(actors, name, 0) == if k < |actors| then Some(k) else None
  {
    k := 0;
    while k < |actors| && actors[k].name != name
      invariant 0 <= k <= |actors| && Find(actors, name, 0) == Find(actors, name, k)
    {
      k := k + 1;
    }
  }

  /** Joins every worker that was started and has finished. */
  method JoinAll(before: seq<Actor>) returns (actors: seq<Actor>)
    ensures actors == JoinFinished(before)
  {
    actors := before;
    for i := 0 to |before|
      invariant |actors| == |before|
      invariant forall k :: 0 <= k < i ==> actors[k] == JoinFinished(before)[k]
      invariant forall k :: i <= k < |before| ==> actors[k] == before[k]
    {
      if actors[i].phase == Finished && Started(actors[i]) && !actors[i].joined {
        actors := actors[i := actors[i].(joined := true)];
      }
    }
  }

  /** The names of the started workers not yet joined, in actor order. */
  method ListUnjoined(actors: seq<Actor>) returns (names: seq<string>)
    ensures names == Unjoined(actors, 0)
  {
    names := [];
    for i := 0 to |actors|
      invariant names + Unjoined(actors, i) == Unjoined(actors, 0)
    {
      if Started(actors[i]) && !actors[i].joined { names := names + [actors[i].name]; }
    }
  }
}
