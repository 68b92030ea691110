/** The promises of the checkpoint scheduler, over whole runs. */
module CheckpointTheorems {
  import opened Schedules
  import opened CheckpointMachine
  import opened Admission
  import opened CheckpointSafety
  import opened CheckpointCompletion

  lemma {:induction false} Reachable(s: State, labels: seq<Label>, t: State)
    requires Initial(s) && Runs(s, labels, t)
    ensures Inv(t)
  {
    hide Inv, Runs;
    InitialInv(s);
    RunInv(s, labels, t);
  }

  // ----- the receipt of a completed schedule --------------------------------------------

  /** What the exploration's validator demands of the evidence of a passing run. */
  ghost predicate SuccessShape(completed: bool, outcome: Outcome, events: seq<Event>, observations: nat, steps: seq<Step>) {
    && completed && outcome == Completed && |events| == 2 * |steps| && observations == |steps| + 1
    && forall i :: 0 <= i < |steps| ==> PairMatches(events, steps, i)
  }

  ghost predicate PairMatches(events: seq<Event>, steps: seq<Step>, i: nat)
    requires i < |steps| && |events| == 2 * |steps|
  {
    EventMatches(events[2 * i], steps, i, 0) && EventMatches(events[2 * i + 1], steps, i, 1)
  }

  predicate EventMatches(e: Event, steps: seq<Step>, i: nat, offset: nat)
    requires i < |steps|
  {
    && e.ordinal == 2 * i + offset && e.step == i && e.actor == steps[i].actor
    && e.kind == (if offset == 0 then Permit else Arrival)
    && (offset == 1 ==> e.checkpoint == steps[i].checkpoint)
  }

  /** The validator as it runs: denominators first, then event by event. */
  method ValidateSuccess(completed: bool, outcome: Outcome, events: seq<Event>, observations: nat, steps: seq<Step>)
    returns (ok: bool)
    ensures ok <==> SuccessShape(completed, outcome, events, observations, steps)
  {
    if !(completed && outcome == Completed) || |events| != 2 * |steps| { return false; }
    for i := 0 to |steps|
      invariant forall k :: 0 <= k < i ==> PairMatches(events, steps, k)
    {
      for offset := 0 to 2
        invariant offset >= 1 ==> EventMatches(events[2 * i], steps, i, 0)
        invariant offset >= 2 ==> EventMatches(events[2 * i + 1], steps, i, 1)
      {
        if !EventMatches(events[2 * i + offset], steps, i, offset) {
          assert !PairMatches(events, steps, i);
          return false;
        }
      }
    }
    return observations == |steps| + 1;
  }

  /** Every run that reaches `schedule_completed` has exactly a permit and an arrival per step,
      in order, each permit naming the actor's previous arrival, and one observation more than
      steps, numbered from zero. It has not failed and never will, so the validator accepts it. */
  lemma {:induction false} CompletedRunsValidate(s: State, labels: seq<Label>, t: State)
    requires Initial(s) && Runs(s, labels, t) && t.progress.scheduleCompleted
    ensures |t.journal.events| == 2 * |t.plan.steps| && LoggedSteps(t.journal.events, t.plan.steps, |t.plan.steps|)
    ensures ObservedSteps(t.journal.observations, |t.plan.steps|)
    ensures SuccessShape(t.progress.scheduleCompleted, t.failure.outcome, t.journal.events, |t.journal.observations|, t.plan.steps)
  {
    Reachable(s, labels, t);
    CompletedNeverFails(s, labels, t);
    hide InStep, LastCheckpoint, Initial, Runs;
    forall i | 0 <= i < |t.plan.steps| ensures PairMatches(t.journal.events, t.plan.steps, i) {
      assert PermitOf(t.journal.events[2 * i], t.plan.steps, i) && ArrivalOf(t.journal.events[2 * i + 1], t.plan.steps, i);
    }
  }

  /** Until something fails or stops, application code runs only in the actor that holds the
      current permit. */
  lemma {:induction false} OneActorRuns(s: State, labels: seq<Label>, t: State, i: nat)
    requires Initial(s) && Runs(s, labels, t) && Live(t) && At(t, i, InUser)
    ensures t.controller == Waiting(i)
  {
    Reachable(s, labels, t);
    hide Inv;
    OnlyPermitted(t, i);
  }

  // ----- failure and closing ---------------------------------------------------------------

  /** A step adds nothing to the log, or one arrival. */
  ghost predicate NoNewPermit(s: State, t: State) {
    t.journal.events == s.journal.events
    || (|t.journal.events| == |s.journal.events| + 1 && t.journal.events[..|s.journal.events|] == s.journal.events
        && t.journal.events[|s.journal.events|].kind == Arrival)
  }

  /** What no step takes back: the first failure with its outcome and detail, the closing, and
      with either of them the end of all permits; a run closed early stays incomplete. */
  ghost predicate Onward(s: State, t: State) {
    && (s.failure.failed ==> t.failure.failed && t.failure.outcome == s.failure.outcome && t.failure.detail == s.failure.detail)
    && (s.life.closed ==> t.life.closed)
    && (s.failure.failed || s.life.closed ==> NoNewPermit(s, t))
    && (s.life.closed && !s.progress.scheduleCompleted ==> !t.progress.scheduleCompleted)
  }

  lemma {:induction false} SameLogOnward(s: State, t: State)
    requires t.journal.events == s.journal.events && t.life.closed == s.life.closed && t.progress.scheduleCompleted == s.progress.scheduleCompleted
    requires s.failure.failed ==> t.failure.failed && t.failure.outcome == s.failure.outcome && t.failure.detail == s.failure.detail
    ensures Onward(s, t)
  {
  }

  lemma {:induction false} FailOnward(s: State, outcome: Outcome, detail: Detail)
    ensures Onward(s, Fail(s, outcome, detail))
  {
    hide Fail, Onward;
    SameLogOnward(s, Fail(s, outcome, detail));
  }

  lemma {:induction false} ActorOnward(s: State, i: nat, a: Actor)
    requires i < |s.actors|
    ensures Onward(s, With(s, i, a))
  {
    hide Onward;
    SameLogOnward(s, With(s, i, a));
  }

  lemma {:induction false} StrayOnward(s: State, u: State, outcome: Outcome, detail: Detail)
    requires u == s.(actors := u.actors)
    ensures Onward(s, Fail(u, outcome, detail))
  {
    hide Fail, Onward;
    SameLogOnward(s, Fail(u, outcome, detail));
  }

  lemma {:induction false} ArriveOnward(s: State, i: nat, checkpoint: string)
    requires i < |s.actors|
    ensures Onward(s, Arrive(s, i, checkpoint))
  {
    hide Onward, Identifier, Clip, Fail, With;
    var a := s.actors[i];
    if a.phase != Running {
      FailOnward(s, UncontrolledActor, OutsideOwnedActor);
    } else if s.life.stopping {
      SameLogOnward(s, s);
    } else if !Identifier(checkpoint) || checkpoint !in s.plan.checkpoints {
      var seen := Clip(checkpoint, 128);
      var u := With(s, i, a.(checkpoint := seen, arrival := Some(seen)));
      StrayOnward(s, u, UnexpectedCheckpoint, UndeclaredCheckpoint(seen));
    } else {
      ActorOnward(s, i, a.(checkpoint := checkpoint, arrival := Some(checkpoint), phase := Parked, where := Blocked));
    }
  }

  lemma {:induction false} BarrierOnward(s: State, late: bool, sound: bool, what: string, lateAgain: bool)
    ensures Onward(s, Barrier(s, late, sound, what, lateAgain))
  {
    hide Clip, Fail, Poll;
  }

  lemma {:induction false} AdvanceOnward(s: State, requested: Step, late: bool)
    ensures Onward(s, Advance(s, requested, late))
  {
    hide Fail, Poll, Find, Log, With;
  }

  lemma {:induction false} ArrivalOnward(s: State, a: Actor)
    ensures NoNewPermit(s, LogArrival(s, a))
    ensures LogArrival(s, a) == s.(journal := s.journal.(events := LogArrival(s, a).journal.events))
  {
  }

  /** Logging an arrival in `u`, which is `s` but perhaps failed, and then moving on. */
  lemma {:induction false} ArrivedOnward(s: State, u: State, a: Actor, t: State)
    requires u.journal.events == s.journal.events && u.life.closed == s.life.closed && u.progress.scheduleCompleted == s.progress.scheduleCompleted
    requires s.failure.failed ==> u.failure.failed && u.failure.outcome == s.failure.outcome && u.failure.detail == s.failure.detail
    requires t == LogArrival(u, a).(actors := t.actors, controller := t.controller)
    ensures Onward(s, t)
  {
    hide LogArrival;
    ArrivalOnward(u, a);
  }

  lemma {:induction false} WokenOnward(s: State, late: bool)
    requires CanTake(s, DoWoken(late))
    ensures Onward(s, Woken(s, late))
  {
    hide Fail, Poll, LogArrival, Onward;
    var a := s.actors[s.controller.k];
    if Poll(s, late).failure.failed {
      ArrivedOnward(s, Poll(s, late), a, Woken(s, late));
    } else if a.checkpoint != s.plan.steps[s.progress.nextStep].checkpoint {
      ArrivedOnward(s, Fail(s, UnexpectedCheckpoint, ArrivedElsewhere), a, Woken(s, late));
    } else {
      ArrivedOnward(s, s, a, Woken(s, late));
    }
  }

  lemma {:induction false} SettleOnward(s: State, sound: bool, what: string, late: bool)
    requires !s.life.closed
    ensures Onward(s, Settle(s, sound, what, late))
  {
    hide Clip, Fail, Poll;
  }

  lemma {:induction false} ClosingOnward(s: State, l: Label)
    requires CanTake(s, l)
    requires l.DoFinish? || l.DoCleanupBegin? || l.DoCleanupEnd? || l.DoDestroyBegin? || l.DoDestroyEnd?
    ensures Onward(s, Take(s, l))
  {
    hide Fail, JoinFinished, Unjoined;
  }

  /** The first failure is the one that is reported, no permit follows a failure or the closing,
      and a run closed before its last step never completes. */
  lemma {:induction false} NothingIsTakenBack(s: State, l: Label)
    requires Inv(s) && CanTake(s, l)
    ensures Onward(s, Take(s, l))
  {
    hide Onward, Barrier, Advance, Woken, Settle, Arrive, Fail, With, InStep, DoneLog, Threads, Lifecycle;
    match l
    case DoBoot(i) => ActorOnward(s, i, s.actors[i].(phase := Parked, where := Blocked));
    case DoResume(i) => ActorOnward(s, i, s.actors[i].(where := InUser));
    case DoArrive(i, checkpoint) => ArriveOnward(s, i, checkpoint);
    case DoForeignArrive(_) => FailOnward(s, UncontrolledActor, OutsideOwnedActor);
    case DoCrash(_, what) => FailOnward(s, ApplicationFailed, Said(Clip(what, MAX_DETAIL)));
    case DoExit(i) => ActorOnward(s, i, ExitActor(s.actors[i]));
    case DoStopToken => SameLogOnward(s, s.(life := s.life.(cancelled := true)));
    case DoBarrier(late, sound, what, lateAgain) => BarrierOnward(s, late, sound, what, lateAgain);
    case DoAdvance(requested, late) => AdvanceOnward(s, requested, late);
    case DoWoken(late) => WokenOnward(s, late);
    case DoSettle(sound, what, late) => SettleOnward(s, sound, what, late);
    case DoFinish => ClosingOnward(s, l);
    case DoCleanupBegin => ClosingOnward(s, l);
    case DoCleanupEnd(_) => ClosingOnward(s, l);
    case DoDestroyBegin => ClosingOnward(s, l);
    case DoDestroyEnd => ClosingOnward(s, l);
  }

  // ----- teardown and passing -----------------------------------------------------------------

  /** Teardown runs at most once, and only when every started worker has been joined. */
  lemma {:induction false} TeardownOnce(s: State, labels: seq<Label>, t: State)
    requires Initial(s) && Runs(s, labels, t)
    ensures t.teardown.count <= 1
    ensures t.teardown.count == 1 ==> forall i :: 0 <= i < |t.actors| && t.actors[i].where != Absent ==>
              t.actors[i].joined && t.actors[i].where == Exited
  {
    Reachable(s, labels, t);
    forall i | t.teardown.count == 1 && 0 <= i < |t.actors| && t.actors[i].where != Absent
      ensures t.actors[i].joined && t.actors[i].where == Exited
    {
      assert ThreadOk(t.actors[i]);
    }
  }

  /** When a run has passed, all its workers are gone. */
  lemma {:induction false} PassedIsQuiet(s: State)
    requires Inv(s) && Passed(s)
    ensures !s.failure.failed && s.life.constructed && s.life.closed && s.teardown.attempted && !s.teardown.threw && s.progress.scheduleCompleted
    ensures AllJoined(s) && forall i :: 0 <= i < |s.actors| ==> s.actors[i].where == Exited && s.actors[i].joined
    ensures !s.controller.Waiting? && !s.controller.Settling? && s.controller != AtBarrier
  {
    hide InStep, DoneLog;
    forall i | 0 <= i < |s.actors| ensures s.actors[i].where == Exited && s.actors[i].joined {
      assert ThreadOk(s.actors[i]) && Started(s.actors[i]);
    }
  }

  /** Once a run has passed it stays passed. */
  lemma {:induction false} PassedStays(s: State, l: Label)
    requires Inv(s) && Passed(s) && CanTake(s, l)
    ensures Passed(Take(s, l))
  {
    PassedIsQuiet(s);
    hide Inv, AllParked, Find, Clip, Fail, Poll, Advance, JoinFinished, Unjoined;
    match l
    case DoCleanupEnd(_) => assert Unjoined(JoinFinished(s.actors), 0) == [];
    case DoAdvance(requested, late) => RefusedAdvance(s, requested, late);
    case _ =>
  }

  lemma {:induction false} RefusedAdvance(s: State, requested: Step, late: bool)
    requires s.progress.scheduleCompleted
    ensures Advance(s, requested, late) == s
  {
    hide Find, Fail, Poll, Log, With;
  }

  lemma {:induction false} PassedForever(s: State, labels: seq<Label>, t: State)
    requires Inv(s) && Passed(s) && Runs(s, labels, t)
    ensures Passed(t)
    decreases |labels|
  {
    hide Inv, Take, Passed;
    if labels != [] {
      StepInv(s, labels[0]);
      PassedStays(s, labels[0]);
      PassedForever(Take(s, labels[0]), labels[1..], t);
    }
  }

  // ----- whole lives -----------------------------------------------------------------------------

  ghost function Permits(events: seq<Event>): nat {
    if events == [] then 0 else Permits(events[..|events| - 1]) + if events[|events| - 1].kind == Permit then 1 else 0
  }

  lemma {:induction false} NoPermitAdded(s: State, t: State)
    requires NoNewPermit(s, t)
    ensures Permits(t.journal.events) == Permits(s.journal.events)
  {
    if t.journal.events != s.journal.events { assert t.journal.events[..|t.journal.events| - 1] == s.journal.events; }
  }

  /** What holds of a run's past for all of its future: the first failure keeps its outcome and its
      detail, nothing is permitted after a failure or after closing, and a run that was closed
      too early never passes. */
  ghost predicate Final(s: State, t: State) {
    && (s.failure.failed ==> t.failure.failed && t.failure.outcome == s.failure.outcome && t.failure.detail == s.failure.detail)
    && (s.life.closed ==> t.life.closed)
    && (s.failure.failed || s.life.closed ==> Permits(t.journal.events) == Permits(s.journal.events))
    && (s.life.closed && !s.progress.scheduleCompleted ==> !t.progress.scheduleCompleted && !Passed(t))
  }

  lemma {:induction false} FinalRun(s: State, labels: seq<Label>, t: State)
    requires Inv(s) && Runs(s, labels, t)
    ensures Final(s, t)
    decreases |labels|
  {
    hide Inv, Take, NoNewPermit;
    if labels != [] {
      var u := Take(s, labels[0]);
      StepInv(s, labels[0]);
      NothingIsTakenBack(s, labels[0]);
      if s.failure.failed || s.life.closed { NoPermitAdded(s, u); }
      FinalRun(u, labels[1..], t);
    }
  }

  /** Over any sequence of calls on an execution, from its start through its destruction. */
  lemma {:induction false} ThePastIsFinal(start: State, before: seq<Label>, s: State, after: seq<Label>, t: State)
    requires Initial(start) && Runs(start, before, s) && Runs(s, after, t)
    ensures Final(s, t) && (Passed(s) ==> Passed(t))
  {
    hide Inv, Runs, Final, Passed;
    Reachable(start, before, s);
    FinalRun(s, after, t);
    if Passed(s) { PassedForever(s, after, t); }
  }

  /** The failure came with some step of the run, or with its start, and none was there before. */
  ghost predicate FirstFailure(start: State, labels: seq<Label>, failure: Failure) {
    failure.failed && exists k: nat, u :: FailedAt(start, labels, k, u) && u.failure == failure
  }

  ghost predicate FailedAt(start: State, labels: seq<Label>, k: nat, u: State) {
    && k <= |labels| && Runs(start, labels[..k], u) && u.failure.failed
    && forall j: nat, v :: j < k && Runs(start, labels[..j], v) ==> !v.failure.failed
  }

  lemma {:induction false} FailureHasAMoment(s: State, labels: seq<Label>, t: State)
    requires Inv(s) && Runs(s, labels, t) && t.failure.failed
    ensures FirstFailure(s, labels, t.failure)
    decreases |labels|
  {
    hide Inv, Take;
    FinalRun(s, labels, t);
    if s.failure.failed {
      assert FailedAt(s, labels, 0, s);
    } else {
      var next, rest := Take(s, labels[0]), labels[1..];
      StepInv(s, labels[0]);
      FailureHasAMoment(next, rest, t);
      var k: nat, u :| FailedAt(next, rest, k, u) && u.failure == t.failure;
      assert labels[..k + 1][1..] == rest[..k];
      forall j: nat, v | j < k + 1 && Runs(s, labels[..j], v) ensures !v.failure.failed {
        if j > 0 { assert labels[..j][1..] == rest[..j - 1]; }
      }
      assert FailedAt(s, labels, k + 1, u);
    }
  }
}
