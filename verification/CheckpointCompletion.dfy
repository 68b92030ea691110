/** Why a schedule that completes has succeeded: the plan ends every actor, an actor that stands at
    its completion has finished, and nobody is left who could fail the run. */
module CheckpointCompletion {
  import opened Schedules
  import opened Admission
  import opened CheckpointMachine
  import opened CheckpointSafety

  ghost function Cast(actors: seq<Actor>): set<string> {
    set i | 0 <= i < |actors| :: actors[i].name
  }

  /** A finished actor stands at the completion; apart from it, only one that strayed while running can. */
  ghost predicate BeforeDone(a: Actor) {
    && (a.phase == Parked || a.phase == Starting ==> a.checkpoint != COMPLETION)
    && (a.phase == Finished ==> a.checkpoint == COMPLETION)
  }

  /** Finished, gone and joined: not even its hook is left. */
  ghost predicate Over(a: Actor) { a.phase == Finished && a.where == Exited && a.joined }

  /** The plan is kept, and a completed schedule has ended every worker without a failure. */
  ghost predicate Conclusive(s: State) {
    && Plan(Cast(s.actors), s.plan.checkpoints, s.plan.steps)
    && (forall i :: 0 <= i < |s.actors| ==> BeforeDone(s.actors[i]))
    && (s.progress.scheduleCompleted ==> !s.failure.failed && forall i :: 0 <= i < |s.actors| ==> Over(s.actors[i]))
  }

  lemma {:induction false} InitialConclusive(s: State)
    requires Initial(s)
    ensures Conclusive(s)
  {
    hide Plan;
    assert START[1] != COMPLETION[1];
  }

  // ----- what a plan says about its end ---------------------------------------------------------

  lemma {:induction false} LastIsProjected(steps: seq<Step>, n: nat, actor: string)
    requires n <= |steps|
    ensures var p := Projection(steps[..n], actor);
            LastCheckpoint(steps, n, actor) == if p == [] then START else p[|p| - 1]
  {
    if n > 0 {
      LastIsProjected(steps, n - 1, actor);
      assert steps[..n] == steps[..n - 1] + [steps[n - 1]];
      ProjectionAppend(steps[..n - 1], steps[n - 1], actor);
    }
  }

  lemma {:induction false} PlanEndsAtDone(actors: set<string>, checkpoints: set<string>, steps: seq<Step>, actor: string)
    requires Plan(actors, checkpoints, steps) && actor in actors
    ensures LastCheckpoint(steps, |steps|, actor) == COMPLETION
  {
    LastIsProjected(steps, |steps|, actor);
    assert steps[..|steps|] == steps;
    assert Terminated(Projection(steps, actor), checkpoints);
  }

  /** In step with the whole plan, every actor has finished. */
  lemma {:induction false} EveryoneFinished(s: State)
    requires Inv(s) && Live(s) && s.controller == Idle && s.progress.nextStep == |s.plan.steps|
    requires Plan(Cast(s.actors), s.plan.checkpoints, s.plan.steps)
    requires forall i :: 0 <= i < |s.actors| ==> BeforeDone(s.actors[i])
    ensures forall i :: 0 <= i < |s.actors| ==> Over(s.actors[i])
  {
    hide Plan, LastCheckpoint, LoggedSteps, ObservedSteps, Lifecycle;
    forall i | 0 <= i < |s.actors| ensures Over(s.actors[i]) {
      PlanEndsAtDone(Cast(s.actors), s.plan.checkpoints, s.plan.steps, s.actors[i].name);
      assert AtRest(s.actors[i], s.plan.steps, |s.plan.steps|) && ThreadOk(s.actors[i]);
    }
  }

  // ----- what every step leaves of the actors ---------------------------------------------------------

  /** The same plan and the same cast; who was over stays over, and nobody parks at the completion. */
  ghost predicate Carries(s: State, t: State) {
    && t.plan == s.plan && |t.actors| == |s.actors|
    && forall i :: 0 <= i < |s.actors| ==> CarriesActor(s.actors[i], t.actors[i])
  }

  ghost predicate CarriesActor(a: Actor, b: Actor) {
    b.name == a.name && (BeforeDone(a) ==> BeforeDone(b)) && (Over(a) ==> Over(b))
  }

  lemma {:induction false} CarriesOne(s: State, t: State, i: nat)
    requires i < |s.actors| && t.plan == s.plan && |t.actors| == |s.actors| && t.actors == s.actors[i := t.actors[i]]
    requires CarriesActor(s.actors[i], t.actors[i])
    ensures Carries(s, t)
  {
    hide CarriesActor;
    forall j | 0 <= j < |s.actors| ensures CarriesActor(s.actors[j], t.actors[j]) {
      if j != i { SameActor(s.actors[j]); }
    }
  }

  lemma {:induction false} SameActor(a: Actor)
    ensures CarriesActor(a, a)
  {
  }

  lemma {:induction false} SameActors(s: State, t: State)
    requires t.plan == s.plan && t.actors == s.actors
    ensures Carries(s, t)
  {
  }

  lemma {:induction false} ArriveCarries(s: State, i: nat, checkpoint: string)
    requires At(s, i, InUser)
    ensures Carries(s, Arrive(s, i, checkpoint))
  {
    hide Clip, Carries, CarriesActor;
    var a, t := s.actors[i], Arrive(s, i, checkpoint);
    if a.phase != Running || s.life.stopping {
      SameActors(s, t);
    } else {
      if Identifier(checkpoint) { CompletionIsReserved(); }
      hide Identifier, Fail;
      assert CarriesActor(a, t.actors[i]) by { ArrivedActor(a, t.actors[i]); }
      CarriesOne(s, t, i);
    }
  }

  lemma {:induction false} ArrivedActor(a: Actor, b: Actor)
    requires a.where == InUser && b.name == a.name && (b.phase == Running || (b.phase == Parked && b.checkpoint != COMPLETION))
    ensures CarriesActor(a, b)
  {
  }

  lemma {:induction false} JoinCarries(s: State, t: State)
    requires t.plan == s.plan && t.actors == JoinFinished(s.actors)
    ensures Carries(s, t)
  {
  }

  lemma {:induction false} AdvanceCarries(s: State, requested: Step, late: bool)
    ensures Carries(s, Advance(s, requested, late))
  {
    hide Fail, Poll, Log;
  }

  lemma {:induction false} StepCarries(s: State, l: Label)
    requires CanTake(s, l) && Threads(s)
    ensures Carries(s, Take(s, l))
  {
    hide Fail, Poll, Observe, Log, JoinFinished, Unjoined, Clip, Arrive, Advance, Carries;
    match l
    case DoBoot(i) => assert ThreadOk(s.actors[i]); CarriesOne(s, Take(s, l), i);
    case DoResume(i) => CarriesOne(s, Take(s, l), i);
    case DoArrive(i, checkpoint) => ArriveCarries(s, i, checkpoint);
    case DoExit(i) => CarriesOne(s, Take(s, l), i);
    case DoAdvance(requested, late) => AdvanceCarries(s, requested, late);
    case DoWoken(_) => WokenCarries(s, l.late);
    case DoCleanupEnd(_) => JoinCarries(s, Take(s, l));
    case DoDestroyEnd => JoinCarries(s, Take(s, l));
    case _ => SameActors(s, Take(s, l));
  }

  lemma {:induction false} WokenCarries(s: State, late: bool)
    requires CanTake(s, DoWoken(late))
    ensures Carries(s, Woken(s, late))
  {
    hide Fail, Poll, Log, Carries;
    var t := Woken(s, late);
    if t.controller.Settling? { CarriesOne(s, t, s.controller.k); } else { SameActors(s, t); }
  }

  lemma {:induction false} CastKept(s: State, t: State)
    requires Carries(s, t)
    ensures Cast(t.actors) == Cast(s.actors)
  {
    forall i | 0 <= i < |s.actors| ensures t.actors[i].name == s.actors[i].name { assert CarriesActor(s.actors[i], t.actors[i]); }
    forall x | x in Cast(s.actors) ensures x in Cast(t.actors) {
      var i :| 0 <= i < |s.actors| && s.actors[i].name == x;
      assert t.actors[i].name == x;
    }
    forall x | x in Cast(t.actors) ensures x in Cast(s.actors) {
      var i :| 0 <= i < |t.actors| && t.actors[i].name == x;
      assert s.actors[i].name == x;
    }
  }

  // ----- after completion nothing fails --------------------------------------------------------------------

  ghost predicate Ended(s: State) {
    s.progress.scheduleCompleted && forall i :: 0 <= i < |s.actors| ==> Over(s.actors[i])
  }

  lemma {:induction false} NobodyLeft(s: State, i: nat, where: Where)
    requires Ended(s) && where != Exited
    ensures !At(s, i, where) && (At(s, i, Exited) ==> s.actors[i].joined)
  {
    if i < |s.actors| { assert Over(s.actors[i]); }
  }

  lemma {:induction false} PastTheLastStep(s: State)
    requires Inv(s) && s.progress.scheduleCompleted
    ensures s.life.initialized && s.controller != AtBarrier && !s.controller.Waiting? && !s.controller.Settling?
  {
    hide InStep, DoneLog;
  }

  lemma {:induction false} QuietWhenOver(s: State, l: Label)
    requires Inv(s) && Ended(s) && CanTake(s, l)
    ensures Take(s, l).failure == s.failure && Take(s, l).progress == s.progress
  {
    PastTheLastStep(s);
    forall i: nat, where | where != Exited ensures !At(s, i, where) && (At(s, i, Exited) ==> s.actors[i].joined) {
      NobodyLeft(s, i, where);
    }
    hide Inv, Ended, At, JoinFinished, Unjoined, Barrier, Woken, Settle, Fail;
  }

  lemma {:induction false} OnlySettleCompletes(s: State, l: Label)
    requires CanTake(s, l) && !s.progress.scheduleCompleted && Take(s, l).progress.scheduleCompleted
    ensures l.DoSettle?
  {
    hide Fail, Poll, Observe, Log, JoinFinished, Unjoined, Clip, Find;
  }

  lemma {:induction false} SettledAtTheEnd(s: State, sound: bool, what: string, late: bool)
    requires Inv(s) && s.controller.Settling? && Settle(s, sound, what, late).progress.scheduleCompleted
    ensures var t := Settle(s, sound, what, late);
            Inv(t) && Live(t) && t.controller == Idle && t.progress.nextStep == |t.plan.steps|
  {
    SettlingIsLive(s);
    SettleInv(s, sound, what, late);
    hide Inv, Fail, Poll, Observe;
  }

  lemma {:induction false} StepConclusive(s: State, l: Label)
    requires Inv(s) && Conclusive(s) && CanTake(s, l)
    ensures Conclusive(Take(s, l))
  {
    var t := Take(s, l);
    StepCarries(s, l);
    CastKept(s, t);
    hide Inv, Plan, Take, Settle;
    forall i | 0 <= i < |s.actors| ensures BeforeDone(t.actors[i]) && (Over(s.actors[i]) ==> Over(t.actors[i])) {
      assert CarriesActor(s.actors[i], t.actors[i]);
    }
    if s.progress.scheduleCompleted {
      QuietWhenOver(s, l);
    } else if t.progress.scheduleCompleted {
      OnlySettleCompletes(s, l);
      Completes(s, l);
    }
  }

  lemma {:induction false} Completes(s: State, l: Label)
    requires Inv(s) && CanTake(s, l) && l.DoSettle? && Take(s, l).progress.scheduleCompleted
    requires var t := Take(s, l);
             Plan(Cast(t.actors), t.plan.checkpoints, t.plan.steps) && forall i :: 0 <= i < |t.actors| ==> BeforeDone(t.actors[i])
    ensures !Take(s, l).failure.failed && Ended(Take(s, l))
  {
    hide Inv, Plan, Settle;
    SettledAtTheEnd(s, l.sound, l.what, l.late);
    EveryoneFinished(Take(s, l));
  }

  lemma {:induction false} RunConclusive(s: State, labels: seq<Label>, t: State)
    requires Inv(s) && Conclusive(s) && Runs(s, labels, t)
    ensures Inv(t) && Conclusive(t)
    decreases |labels|
  {
    hide Inv, Take, Conclusive;
    if labels != [] {
      StepInv(s, labels[0]);
      StepConclusive(s, labels[0]);
      RunConclusive(Take(s, labels[0]), labels[1..], t);
    }
  }

  /** In every run, a completed schedule has no failure, then or later, and every worker is over. */
  lemma {:induction false} CompletedNeverFails(s: State, labels: seq<Label>, t: State)
    requires Initial(s) && Runs(s, labels, t) && t.progress.scheduleCompleted
    ensures !t.failure.failed && forall i :: 0 <= i < |t.actors| ==> Over(t.actors[i])
  {
    InitialInv(s);
    InitialConclusive(s);
    RunConclusive(s, labels, t);
  }
}
