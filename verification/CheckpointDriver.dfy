/** Whole calls on an execution, made of its critical sections with the workers and the stop token
    running in between: `advance`, `finish`, `cleanup`, and a run through a whole plan. In a calm world
    the deadline is far, observations and teardown succeed and the workers cooperate; in any other
    world anything may happen. */
module CheckpointDriver {
  import opened Schedules
  import opened CheckpointMachine
  import opened CheckpointSafety
  import opened CheckpointCompletion
  import opened CheckpointTheorems
  import opened CheckpointCooperation
  import opened CheckpointExecutions

  // ----- what happens outside the controller -------------------------------------------------------

  predicate Outside(l: Label) {
    l.DoBoot? || l.DoResume? || l.DoArrive? || l.DoForeignArrive? || l.DoCrash? || l.DoExit? || l.DoStopToken?
  }

  /** What the others leave alone while the controller waits. A failure, once there, stays, and a new
      one is not the controller's. */
  ghost predicate Meanwhile(s: State, t: State) {
    && t.plan == s.plan && |t.actors| == |s.actors| && t.progress == s.progress && t.journal == s.journal
    && t.teardown == s.teardown && t.controller == s.controller
    && t.life == s.life.(cancelled := t.life.cancelled)
    && (s.failure.failed ==> t.failure == s.failure)
    && (!s.failure.failed && t.failure.failed ==> !ControllersFault(t.failure.detail))
  }

  lemma {:induction false} OutsideIsMeanwhile(s: State, l: Label)
    requires CanTake(s, l) && Outside(l)
    ensures Meanwhile(s, Take(s, l))
  {
    hide Clip;
  }

  /** One section of somebody else. */
  method TakeOutside(e: Execution, l: Label)
    requires e.Valid() && Outside(l) && CanTake(e.Snapshot(), l)
    modifies e
    ensures e.Valid() && Meanwhile(old(e.Snapshot()), e.Snapshot()) && e.labels == old(e.labels) + [l]
    ensures e.Snapshot() == Take(old(e.Snapshot()), l)
  {
    OutsideIsMeanwhile(e.Snapshot(), l);
    hide Initial, WellDeclared, Runs, CanTake, Take, Meanwhile;
    match l {
      case DoBoot(i) => e.BootWorker(i);
      case DoResume(i) => e.ResumeWorker(i);
      case DoArrive(i, checkpoint) => e.ArriveAt(i, checkpoint);
      case DoForeignArrive(i) => e.ForeignArrive(i);
      case DoCrash(i, what) => e.CrashWorker(i, what);
      case DoExit(i) => e.ExitWorker(i);
      case DoStopToken => e.RequestStop();
    }
  }

  /** Any number of sections of the workers and the stop token, in any order. */
  method Others(e: Execution, calm: bool)
    requires e.Valid() && (calm ==> Fine(e.Snapshot()))
    modifies e
    ensures e.Valid() && Meanwhile(old(e.Snapshot()), e.Snapshot())
    ensures calm ==> Fine(e.Snapshot())
  {
    hide Initial, WellDeclared, Runs, CanTake, Take, Fine, Cooperates;
    var n: int := *;
    while n > 0
      invariant e.Valid() && Meanwhile(old(e.Snapshot()), e.Snapshot())
      invariant calm ==> Fine(e.Snapshot())
    {
      var l: Label := *;
      if Outside(l) && CanTake(e.Snapshot(), l) && (calm ==> Cooperates(e.Snapshot(), l)) {
        if calm { StaysFine(e.Snapshot(), l); }
        TakeOutside(e, l);
      }
      n := n - 1;
    }
  }

  // ----- whole calls ----------------------------------------------------------------------------------

  /** `cleanup`: close, let everybody stop, join and tear down. */
  method CleanUp(e: Execution, calm: bool)
    requires e.Valid() && (e.controller == Idle || e.controller == MustClean)
    requires calm ==> Fine(e.Snapshot()) && e.progress.scheduleCompleted
    modifies e
    ensures e.Valid() && e.controller == Idle && e.life.closed && e.progress == old(e.progress)
    ensures e.life.constructed == old(e.life.constructed) && e.life.initialized == old(e.life.initialized)
    ensures old(e.failure.failed) ==> e.failure == old(e.failure)
    ensures !old(e.failure.failed) && e.failure.failed ==> !ControllersFault(e.failure.detail)
    ensures calm && !old(e.teardown.attempted) ==> Passed(e.Snapshot())
  {
    hide Initial, WellDeclared, Runs, JoinFinished, Unjoined, Fine;
    if calm {
      FineIsConstructed(e.Snapshot());
      EndsFine(e.Snapshot(), DoCleanupBegin);
    }
    e.BeginCleanup();
    if e.controller == Cleaning {
      Others(e, calm);
      var threw := *;
      if calm {
        threw := false;
        if !e.teardown.attempted { CleansUp(e.Snapshot()); }
      }
      e.EndCleanup(threw);
    }
  }

  lemma {:induction false} EndsFine(s: State, l: Label)
    requires Fine(s) && s.progress.scheduleCompleted && CanTake(s, l) && (l.DoFinish? || l.DoCleanupBegin?)
    ensures Fine(Take(s, l))
  {
    hide Fine, Take, CanTake;
    StaysFine(s, l);
  }

  lemma {:induction false} FineIsConstructed(s: State)
    requires Fine(s)
    ensures s.life.constructed && !s.failure.failed
  {
    hide Inv, Conclusive, WellDeclared;
  }

  /** With everybody over, an uneventful teardown confirms the cleanup. */
  lemma {:induction false} CleansUp(s: State)
    requires Fine(s) && s.progress.scheduleCompleted && s.controller == Cleaning && !s.teardown.attempted
    ensures Passed(CleanupEnd(s, false))
  {
    CompletedIsEnded(s);
    assert Unjoined(JoinFinished(s.actors), 0) == [];
    hide Conclusive, WellDeclared, JoinFinished, Unjoined;
  }

  // ----- where each part of an advance leaves the controller ----------------------------------------------

  lemma {:induction false} AfterGrant(s: State, requested: Step, late: bool)
    requires CanTake(s, DoAdvance(requested, late))
    ensures var t := Take(s, DoAdvance(requested, late));
            && t.plan == s.plan && t.life == s.life && t.progress == s.progress && |t.actors| == |s.actors| && t.teardown == s.teardown
            && (!CanAdvance(s) ==> t == s)
            && (CanAdvance(s) ==>
                  if t.controller.Waiting? then t.controller.k < |t.actors| && t.progress.nextStep < |t.plan.steps|
                  else t.controller == MustClean && t.failure.failed)
  {
    hide Fail, Poll, Log;
  }

  lemma {:induction false} AfterWait(s: State, late: bool)
    requires CanTake(s, DoWoken(late))
    ensures var t := Take(s, DoWoken(late));
            && t.plan == s.plan && t.life == s.life && t.progress == s.progress && t.teardown == s.teardown
            && (if t.controller.Settling? then !t.failure.failed else t.controller == MustClean && t.failure.failed)
            && (s.failure.failed ==> t.failure == s.failure)
  {
    hide Fail, Poll, Log;
  }

  lemma {:induction false} AfterSettling(s: State, sound: bool, what: string, late: bool)
    requires CanTake(s, DoSettle(sound, what, late))
    ensures var t := Take(s, DoSettle(sound, what, late));
            && t.plan == s.plan && t.life == s.life && t.progress.nextStep == s.progress.nextStep + 1 && t.teardown == s.teardown
            && t.controller == (if t.failure.failed then MustClean else Idle)
            && (s.failure.failed ==> t.failure == s.failure)
  {
    hide Fail, Poll, Clip;
  }

  /** A cooperative worker that holds the permit runs to where the plan wants it. */
  method LetArrive(e: Execution)
    requires e.Valid() && Fine(e.Snapshot()) && e.controller.Waiting?
    modifies e
    ensures e.Valid() && Fine(e.Snapshot()) && Meanwhile(old(e.Snapshot()), e.Snapshot())
    ensures e.controller.k < |e.actors| && e.actors[e.controller.k].phase != Running
  {
    hide Initial, WellDeclared, Runs, CanTake, Take, Fine, Cooperates;
    var k := e.controller.k;
    Awaited(e.Snapshot());
    if e.actors[k].phase == Running && e.actors[k].where == Blocked {
      Resumes(e.Snapshot(), e.Snapshot(), e.progress.nextStep, k);
      StaysFine(e.Snapshot(), DoResume(k));
      TakeOutside(e, DoResume(k));
    }
    if e.actors[k].phase == Running {
      Awaited(e.Snapshot());
      var l := Planned(e.Snapshot(), k);
      Obeys(e.Snapshot(), e.Snapshot(), e.progress.nextStep, k);
      StaysFine(e.Snapshot(), l);
      TakeOutside(e, l);
    }
  }

  /** The section just taken was not the controller's fault. */
  lemma {:induction false} NotOurs(e: Execution, s: State, l: Label)
    requires e.Valid() && Initial(e.start) && CanTake(s, l) && e.Snapshot() == Take(s, l)
    requires |e.labels| > 0 && Runs(e.start, e.labels[..|e.labels| - 1], s) && !s.failure.failed
    requires l.DoAdvance? ==> IsNext(s, l.requested)
    requires l.DoFinish? ==> s.progress.scheduleCompleted
    ensures e.failure.failed ==> !ControllersFault(e.failure.detail)
  {
    hide Initial, WellDeclared, Runs, Take, CanTake;
    Known(e.start, e.labels[..|e.labels| - 1], s);
    NotTheController(s, l);
  }

  /** The wait for the permitted actor: others run until it is over, or the deadline passes. */
  method AwaitArrival(e: Execution, calm: bool)
    requires e.Valid() && e.controller.Waiting? && e.controller.k < |e.actors| && e.progress.nextStep < |e.plan.steps|
    requires calm ==> Fine(e.Snapshot())
    modifies e
    ensures e.Valid() && e.life == old(e.life).(cancelled := e.life.cancelled) && e.progress == old(e.progress)
    ensures e.teardown == old(e.teardown) && (old(e.failure.failed) ==> e.failure == old(e.failure))
    ensures !old(e.failure.failed) && e.failure.failed ==> !ControllersFault(e.failure.detail)
    ensures if e.controller.Settling? then !e.failure.failed else e.controller == MustClean && e.failure.failed
    ensures calm ==> Fine(e.Snapshot())
  {
    hide Initial, WellDeclared, Runs, Take, Fine;
    Others(e, calm);
    if calm { LetArrive(e); }
    ghost var s, labels := e.Snapshot(), e.labels;
    var late := *;
    var k := e.controller.k;
    if calm { late := false; }
    if !(e.failure.failed || e.life.cancelled || e.actors[k].phase != Running) { late := true; }
    assert CanTake(s, DoWoken(late));
    AfterWait(s, late);
    if calm { Received(s); }
    e.ReceiveArrival(late);
    assert e.labels[..|e.labels| - 1] == labels;
    if !s.failure.failed { NotOurs(e, s, DoWoken(late)); }
  }

  lemma {:induction false} Received(s: State)
    requires Fine(s) && s.controller.Waiting? && s.controller.k < |s.actors| && s.actors[s.controller.k].phase != Running
    ensures CanTake(s, DoWoken(false)) && Fine(Take(s, DoWoken(false)))
  {
    hide Fine, Take, Cooperates;
    Awaited(s);
    IsReceived(s, s, s.progress.nextStep, s.controller.k);
    StaysFine(s, DoWoken(false));
  }

  /** `advance`: permit, wait, compare and settle, or clean up after a failure. Asked for the plan's next
      step it never fails by its own fault, and in a calm world it does not fail. */
  method AdvanceBy(e: Execution, requested: Step, calm: bool) returns (refused: bool)
    requires e.Valid() && e.controller == Idle
    requires calm ==> Fine(e.Snapshot()) && IsNext(e.Snapshot(), requested) && e.life.initialized
    modifies e
    ensures e.Valid() && e.controller == Idle && e.life.constructed == old(e.life.constructed)
    ensures refused <==> !CanAdvance(old(e.Snapshot()))
    ensures refused ==> e.Snapshot() == old(e.Snapshot())
    ensures !refused && !e.failure.failed ==>
              e.life.initialized && !e.life.closed && e.progress.nextStep == old(e.progress.nextStep) + 1
    ensures !refused && e.failure.failed ==> e.life.closed
    ensures !refused && e.failure.failed && old(IsNext(e.Snapshot(), requested)) ==> !ControllersFault(e.failure.detail)
    ensures calm ==> !refused && Fine(e.Snapshot()) && e.teardown == old(e.teardown)
  {
    hide Initial, WellDeclared, Runs, Take, Fine;
    ghost var s, labels := e.Snapshot(), e.labels;
    var late := *;
    hide CanTake;
    if calm {
      late := false;
      Granted(s, requested);
    }
    CanAsk(s, requested, late);
    AfterGrant(s, requested, late);
    refused := e.GrantStep(requested, late);
    if refused { return; }
    assert e.labels[..|e.labels| - 1] == labels;
    if IsNext(s, requested) { NotOurs(e, s, DoAdvance(requested, late)); }
    if e.controller.Waiting? { AwaitArrival(e, calm); }
    if e.controller.Settling? { SettleDown(e, calm); }
    if e.controller == MustClean {
      if calm { FineIsConstructed(e.Snapshot()); }
      CleanUp(e, false);
    }
  }

  lemma {:induction false} Granted(s: State, requested: Step)
    requires Fine(s) && IsNext(s, requested) && s.controller == Idle && s.life.initialized
    ensures CanAdvance(s) && CanTake(s, DoAdvance(requested, false)) && Fine(Take(s, DoAdvance(requested, false)))
  {
    Unfinished(s);
    assert Cooperates(s, DoAdvance(requested, false));
    hide Fine, Take, CanTake;
    StaysFine(s, DoAdvance(requested, false));
  }

  lemma {:induction false} CanAsk(s: State, requested: Step, late: bool)
    requires s.controller == Idle
    ensures CanTake(s, DoAdvance(requested, late))
  {
  }

  lemma {:induction false} CanSettle(s: State, sound: bool, what: string, late: bool)
    requires s.controller.Settling?
    ensures CanTake(s, DoSettle(sound, what, late)) && (sound && !late ==> Cooperates(s, DoSettle(sound, what, late)))
  {
  }

  /** The end of an advance whose actor arrived as planned. */
  method SettleDown(e: Execution, calm: bool)
    requires e.Valid() && e.controller.Settling? && !e.failure.failed && (calm ==> Fine(e.Snapshot()))
    modifies e
    ensures e.Valid() && e.life == old(e.life).(cancelled := e.life.cancelled) && e.progress.nextStep == old(e.progress.nextStep) + 1
    ensures e.teardown == old(e.teardown) && e.controller == if e.failure.failed then MustClean else Idle
    ensures e.failure.failed ==> !ControllersFault(e.failure.detail)
    ensures calm ==> Fine(e.Snapshot())
  {
    hide Initial, WellDeclared, Runs, Take, Fine, CanTake, Cooperates;
    Others(e, calm);
    ghost var s, labels := e.Snapshot(), e.labels;
    var sound, what, late := *, *, *;
    if calm { sound, late := true, false; }
    CanSettle(s, sound, what, late);
    if calm { StaysFine(s, DoSettle(sound, what, late)); }
    AfterSettling(s, sound, what, late);
    e.SettleStep(sound, what, late);
    assert e.labels[..|e.labels| - 1] == labels;
    if !s.failure.failed { NotOurs(e, s, DoSettle(sound, what, late)); }
  }

  lemma {:induction false} AfterBarrier(s: State, late: bool, sound: bool, what: string, lateAgain: bool)
    requires CanTake(s, DoBarrier(late, sound, what, lateAgain))
    ensures var t := Take(s, DoBarrier(late, sound, what, lateAgain));
            && t.plan == s.plan && t.progress == s.progress && t.life == s.life.(initialized := !t.failure.failed) && t.teardown == s.teardown
            && t.controller == (if t.failure.failed then MustClean else Idle)
            && (s.failure.failed ==> t.failure == s.failure)
  {
    hide Fail, Poll, Observe;
  }

  lemma {:induction false} AfterFinish(s: State)
    requires CanTake(s, DoFinish)
    ensures var t := Take(s, DoFinish);
            && t.plan == s.plan && t.progress == s.progress && t.life == s.life && t.teardown == s.teardown
            && t.controller == (if s.life.closed || !s.life.constructed then Idle else MustClean)
            && (s.failure.failed ==> t.failure == s.failure)
            && (t.failure.failed || t.life.closed || !t.life.constructed || t.progress.scheduleCompleted)
  {
    hide Fail;
  }

  /** In a calm world every worker comes to the barrier. */
  method BootEveryone(e: Execution)
    requires e.Valid() && Fine(e.Snapshot()) && e.controller == AtBarrier
    modifies e
    ensures e.Valid() && Fine(e.Snapshot()) && Meanwhile(old(e.Snapshot()), e.Snapshot()) && AllParked(e.Snapshot())
  {
    hide Initial, WellDeclared, Runs, CanTake, Take, Fine;
    for i := 0 to |e.actors|
      invariant |e.actors| == |old(e.actors)|
      invariant e.Valid() && Fine(e.Snapshot()) && Meanwhile(old(e.Snapshot()), e.Snapshot())
      invariant forall j :: 0 <= j < i ==> e.actors[j].where != Booting
    {
      if e.actors[i].where == Booting {
        BootsOne(e.Snapshot(), i);
        StaysFine(e.Snapshot(), DoBoot(i));
        TakeOutside(e, DoBoot(i));
      }
    }
    forall i | 0 <= i < |e.actors| ensures e.actors[i].phase == Parked { AtTheBarrier(e.Snapshot(), i); }
  }

  lemma {:induction false} BootsOne(s: State, i: nat)
    requires At(s, i, Booting)
    ensures Cooperates(s, DoBoot(i)) && Take(s, DoBoot(i)).actors == s.actors[i := s.actors[i].(phase := Parked, where := Blocked)]
  {
  }

  /** The initial barrier; a failed start is cleaned up at once. */
  method Begin(e: Execution, calm: bool)
    requires e.Valid() && e.controller == AtBarrier && (calm ==> Fine(e.Snapshot()))
    modifies e
    ensures e.Valid() && e.controller == Idle && e.life.constructed == old(e.life.constructed) && e.progress == old(e.progress)
    ensures e.life.initialized <==> !e.failure.failed
    ensures if e.failure.failed then e.life.closed else e.life.closed == old(e.life.closed)
    ensures old(e.failure.failed) ==> e.failure == old(e.failure)
    ensures !old(e.failure.failed) && e.failure.failed ==> !ControllersFault(e.failure.detail)
    ensures calm ==> Fine(e.Snapshot()) && e.teardown == old(e.teardown)
  {
    hide Initial, WellDeclared, Runs, Take, Fine, AllParked;
    Others(e, calm);
    if calm { BootEveryone(e); }
    ghost var s, labels := e.Snapshot(), e.labels;
    var late, sound, what, lateAgain := *, *, *, *;
    if calm {
      late, sound, lateAgain := false, true, false;
      assert Cooperates(s, DoBarrier(late, sound, what, lateAgain));
      StaysFine(s, DoBarrier(late, sound, what, lateAgain));
    } else if !(e.failure.failed || e.life.cancelled || AllParked(e.Snapshot())) {
      late := true;
    }
    AfterBarrier(s, late, sound, what, lateAgain);
    e.PassBarrier(late, sound, what, lateAgain);
    assert e.labels[..|e.labels| - 1] == labels;
    if !s.failure.failed { NotOurs(e, s, DoBarrier(late, sound, what, lateAgain)); }
    if e.controller == MustClean {
      if calm { FineIsConstructed(e.Snapshot()); }
      CleanUp(e, false);
    }
  }

  /** Every step of the plan in turn, until the execution is closed. A step is refused, with an exception,
      only if the run has failed between two steps. */
  method AdvanceAll(e: Execution, calm: bool) returns (threw: bool)
    requires e.Valid() && e.controller == Idle && e.life.initialized && !e.life.closed && !e.failure.failed && e.life.constructed
    requires e.progress == Position(0, false) && (calm ==> Fine(e.Snapshot()))
    modifies e
    ensures e.Valid() && e.controller == Idle && e.life.constructed
    ensures e.failure.failed ==> !ControllersFault(e.failure.detail)
    ensures if threw then e.failure.failed && !e.life.closed else !e.failure.failed ==> !e.life.closed && e.progress.scheduleCompleted
    ensures calm ==> !threw && Fine(e.Snapshot()) && e.teardown == old(e.teardown)
  {
    hide Initial, WellDeclared, Runs, Take, Fine, CanTake, Punctual;
    for i := 0 to |e.plan.steps|
      invariant e.Valid() && e.controller == Idle && e.life.constructed
      invariant e.life.closed ==> e.failure.failed
      invariant !e.life.closed ==> e.life.initialized && e.progress.nextStep == i
      invariant e.failure.failed ==> !ControllersFault(e.failure.detail)
      invariant calm ==> Fine(e.Snapshot()) && e.teardown == old(e.teardown)
    {
      Others(e, calm);
      if e.life.closed { break; }
      if calm { FineIsConstructed(e.Snapshot()); }
      ghost var s := e.Snapshot();
      Known(e.start, e.labels, s);
      threw := AdvanceBy(e, e.plan.steps[i], calm);
      if threw {
        RefusedHasFailed(s);
        return;
      }
      if calm { FineIsConstructed(e.Snapshot()); }
    }
    Known(e.start, e.labels, e.Snapshot());
    if !e.failure.failed { AllDone(e.Snapshot()); }
    return false;
  }

  lemma {:induction false} RefusedHasFailed(s: State)
    requires Punctual(s) && !CanAdvance(s) && s.life.initialized && !s.life.closed && s.progress.nextStep < |s.plan.steps|
    ensures s.failure.failed
  {
  }

  lemma {:induction false} AllDone(s: State)
    requires Punctual(s) && !s.failure.failed && s.progress.nextStep == |s.plan.steps|
    ensures s.progress.scheduleCompleted
  {
  }

  /** A whole life short of destruction: start, every step of the plan in turn, finish. Either the
      schedule completes, with a log that the validator accepts, or the run fails, and what it reports is
      its first failure, the fault of a section of somebody else; it passes exactly when it completes and
      its cleanup is confirmed, and in a calm world it passes. */
  method Drive(e: Execution, calm: bool) returns (passed: bool, threw: bool)
    requires e.Valid() && e.labels == [] && (calm ==> !e.failure.failed)
    modifies e
    ensures e.Valid() && passed == Passed(e.Snapshot())
    ensures e.life.closed <==> old(e.life.constructed) && !threw
    ensures e.progress.scheduleCompleted <==> !e.failure.failed
    ensures passed <==> !e.failure.failed && e.teardown.cleanup == Confirmed
    ensures e.progress.scheduleCompleted ==>
              SuccessShape(true, e.failure.outcome, e.journal.events, |e.journal.observations|, e.plan.steps)
    ensures e.failure.failed ==> FirstFailure(e.start, e.labels, e.failure)
    ensures old(e.failure.failed) ==> e.failure == old(e.failure)
    ensures !old(e.failure.failed) && e.failure.failed ==> !ControllersFault(e.failure.detail)
    ensures calm ==> passed
  {
    hide Initial, WellDeclared, Runs, Take, SuccessShape, FirstFailure, Fine;
    threw := false;
    JustStarted(e);
    if e.controller == AtBarrier { Begin(e, calm); }
    if calm { FineIsConstructed(e.Snapshot()); }
    if e.life.initialized {
      threw := AdvanceAll(e, calm);
      if !threw { FinishRun(e, calm); }
    }
    Outcomes(e);
    passed := Passed(e.Snapshot());
  }

  lemma {:induction false} JustStarted(e: Execution)
    requires e.Valid() && e.labels == []
    ensures e.controller == (if e.life.constructed then AtBarrier else Idle) && !e.life.closed && !e.life.initialized
    ensures e.progress == Position(0, false) && (!e.life.constructed ==> e.failure.failed) && !e.teardown.attempted
    ensures !e.failure.failed ==> Fine(e.Snapshot())
  {
    var s := e.Snapshot();
    assert s == e.start;
    InitialInv(s);
    InitialConclusive(s);
    if !s.failure.failed { InitialOnTrack(s); }
    hide Inv, Conclusive, WellDeclared, OnTrack;
  }

  /** `finish`, and the cleanup that it ends with unless the execution is closed already. */
  method FinishRun(e: Execution, calm: bool)
    requires e.Valid() && e.controller == Idle && e.life.constructed && (!e.failure.failed ==> !e.life.closed && e.progress.scheduleCompleted)
    requires calm ==> Fine(e.Snapshot()) && !e.teardown.attempted
    modifies e
    ensures e.Valid() && e.controller == Idle && e.life.closed && e.progress == old(e.progress)
    ensures old(e.failure.failed) ==> e.failure == old(e.failure)
    ensures !old(e.failure.failed) && e.failure.failed ==> !ControllersFault(e.failure.detail)
    ensures calm ==> Passed(e.Snapshot())
  {
    hide Initial, WellDeclared, Runs, Take, Fine;
    Others(e, calm);
    AfterFinish(e.Snapshot());
    ghost var s, labels := e.Snapshot(), e.labels;
    if calm {
      FineIsConstructed(s);
      EndsFine(s, DoFinish);
    }
    e.RequestFinish();
    assert e.labels[..|e.labels| - 1] == labels;
    if !s.failure.failed { NotOurs(e, s, DoFinish); }
    if e.controller == MustClean { CleanUp(e, calm); }
  }

  /** The destructor: stop everybody, and when the last thread is gone join and tear down. A run
      that had passed still has, and teardown was called at most once in its whole life. */
  method Destroy(e: Execution) returns (ended: bool)
    requires e.Valid() && e.controller == Idle
    modifies e
    ensures e.Valid() && e.teardown.count <= 1 && (old(Passed(e.Snapshot())) ==> Passed(e.Snapshot()))
    ensures ended ==> e.controller == Gone && forall i :: 0 <= i < |e.actors| && Started(e.actors[i]) ==> e.actors[i].joined
    ensures ended && e.life.constructed ==> e.teardown.count == 1
  {
    hide Initial, WellDeclared, Runs, JoinFinished, Inv;
    e.BeginDestroy();
    Others(e, false);
    ended := CanTake(e.Snapshot(), DoDestroyEnd);
    if ended { Join(e); }
    Outcomes(e);
    TeardownOnce(e.start, e.labels, e.Snapshot());
  }

  method Join(e: Execution)
    requires e.Valid() && CanTake(e.Snapshot(), DoDestroyEnd)
    modifies e
    ensures e.Valid() && e.controller == Gone && e.progress == old(e.progress) && e.teardown.cleanup == old(e.teardown.cleanup)
    ensures e.life == old(e.life) && forall i :: 0 <= i < |e.actors| && Started(e.actors[i]) ==> e.actors[i].joined
    ensures e.life.constructed ==> e.teardown.count == 1
  {
    hide Initial, WellDeclared, Runs, JoinFinished, Inv;
    Reachable(e.start, e.labels, e.Snapshot());
    TornDown(e.Snapshot());
    e.EndDestroy();
  }

  lemma {:induction false} TornDown(s: State)
    requires Inv(s) && CanTake(s, DoDestroyEnd)
    ensures var t := DestroyEnd(s);
            && (forall i :: 0 <= i < |t.actors| && Started(t.actors[i]) ==> t.actors[i].joined)
            && (t.life.constructed ==> t.teardown.count == 1)
  {
    hide InStep, DoneLog;
    forall i | 0 <= i < |s.actors| ensures ThreadOk(s.actors[i]) { }
  }

  /** What the run behind an object says about how it ended. */
  lemma {:induction false} Outcomes(e: Execution)
    requires e.Valid()
    ensures e.progress.scheduleCompleted ==>
              !e.failure.failed
              && SuccessShape(true, e.failure.outcome, e.journal.events, |e.journal.observations|, e.plan.steps)
    ensures e.failure.failed ==> FirstFailure(e.start, e.labels, e.failure)
    ensures e.failure.failed <==> e.failure.outcome != Completed
  {
    Reachable(e.start, e.labels, e.Snapshot());
    hide Runs, Initial, WellDeclared, SuccessShape, FirstFailure;
    if e.progress.scheduleCompleted {
      CompletedNeverFails(e.start, e.labels, e.Snapshot());
      CompletedRunsValidate(e.start, e.labels, e.Snapshot());
    }
    if e.failure.failed {
      InitialInv(e.start);
      FailureHasAMoment(e.start, e.labels, e.Snapshot());
    }
  }
}
