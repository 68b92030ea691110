/** The cooperative checkpoint scheduler as a step machine: one step per critical section of
    its shared state, by the controller, a worker thread or the stop token. */
module CheckpointMachine {
  import opened Schedules
  import opened Admission

  datatype Phase = Starting | Parked | Running | Finished

  /** Where a worker's thread is: never created, before its first section, blocked in a wait,
      in application code (or unwinding from it), or gone. */
  datatype Where = Absent | Booting | Blocked | InUser | Exited

  datatype Actor = Actor(name: string, operation: string, phase: Phase, checkpoint: string, arrival: Option<string>,
                         where: Where, joined: bool)

  datatype Outcome =
    | Completed | InvalidSchedule | IncompatibleIdentity | Cancelled | TimedOut | UnexpectedCheckpoint | UncontrolledActor
    | ApplicationFailed | ObservationFailed | ResourceFailed

  /** Why a run failed: one of the scheduler's own messages, or what a callback said. */
  datatype Detail =
    | NoDetail | ExecutionCancelled | DeadlineExceeded | OutsideOwnedActor | UndeclaredCheckpoint(checkpoint: string)
    | IntervalDiffers | ActorNotParked | ArrivedElsewhere | ScheduleIncomplete | Said(text: string)

  datatype EventKind = Permit | Arrival

  datatype Event = Event(ordinal: nat, kind: EventKind, step: nat, actor: string, operation: string, checkpoint: string)

  datatype Cleanup = NotCleaned | Confirmed | Incomplete | TeardownFailed

  /** What the owning controller is doing between its critical sections. */
  datatype Controller = AtBarrier | Idle | Waiting(k: nat) | Settling(k: nat) | MustClean | Cleaning | Dying | Gone

  /** The plan as it was admitted. */
  datatype Admitted = Admitted(steps: seq<Step>, checkpoints: set<string>)

  /** The first failure, if any; `Completed` stands for none. */
  datatype Failure = Failure(failed: bool, outcome: Outcome, detail: Detail)

  datatype Life = Life(cancelled: bool, stopping: bool, constructed: bool, initialized: bool, closed: bool)

  datatype Position = Position(nextStep: nat, scheduleCompleted: bool)

  datatype Journal = Journal(events: seq<Event>, observations: seq<nat>)

  /** What cleaning up has come to; `count` is how often teardown was called. */
  datatype Teardown = Teardown(cleanup: Cleanup, remaining: seq<string>, attempted: bool, threw: bool, count: nat)

  datatype State = State(
    plan: Admitted, actors: seq<Actor>, failure: Failure, life: Life, progress: Position, journal: Journal,
    teardown: Teardown, controller: Controller)

  predicate Passed(s: State) {
    s.failure.outcome == Completed && s.progress.scheduleCompleted && s.teardown.cleanup == Confirmed
  }

  const MAX_DETAIL: nat := 1024

  // ----- failing and polling -----------------------------------------------------------

  /** Only the first failure is kept. */
  function Fail(s: State, outcome: Outcome, detail: Detail): (t: State)
    ensures t.failure.failed && t == s.(failure := Failure(true, t.failure.outcome, t.failure.detail))
    ensures s.failure.failed ==> t == s
  {
    if s.failure.failed then s else s.(failure := Failure(true, outcome, detail))
  }

  /** The stop token and the deadline, looked at in that order. */
  function Poll(s: State, late: bool): (t: State)
    ensures t == s.(failure := t.failure)
    ensures t.failure.failed <==> s.failure.failed || s.life.cancelled || late
    ensures s.failure.failed || !t.failure.failed ==> t == s
  {
    if s.failure.failed then s
    else if s.life.cancelled then Fail(s, Cancelled, ExecutionCancelled)
    else if late then Fail(s, TimedOut, DeadlineExceeded)
    else s
  }

  function Observe(s: State, index: nat, sound: bool, what: string): (t: State)
    ensures t == s.(journal := s.journal.(observations := t.journal.observations), failure := t.failure)
  {
    if sound then s.(journal := s.journal.(observations := s.journal.observations + [index]))
    else Fail(s, ObservationFailed, Said(Clip(what, MAX_DETAIL)))
  }

  function Log(s: State, kind: EventKind, a: Actor, checkpoint: string): (t: State)
    ensures t == s.(journal := s.journal.(events := t.journal.events))
  {
    var e := Event(|s.journal.events|, kind, s.progress.nextStep, a.name, a.operation, checkpoint);
    s.(journal := s.journal.(events := s.journal.events + [e]))
  }

  function With(s: State, i: nat, a: Actor): (t: State)
    requires i < |s.actors|
    ensures t == s.(actors := t.actors)
  {
    s.(actors := s.actors[i := a])
  }

  // ----- worker sections -----------------------------------------------------------------

  function Boot(s: State, i: nat): State
    requires i < |s.actors|
  {
    With(s, i, s.actors[i].(phase := Parked, where := Blocked))
  }

  function Resume(s: State, i: nat): State
    requires i < |s.actors|
  {
    With(s, i, s.actors[i].(where := InUser))
  }

  /** A checkpoint call in the actor's own thread. */
  function Arrive(s: State, i: nat, checkpoint: string): State
    requires i < |s.actors|
  {
    var a := s.actors[i];
    if a.phase != Running then Fail(s, UncontrolledActor, OutsideOwnedActor)
    else if s.life.stopping then s
    else if !Identifier(checkpoint) || checkpoint !in s.plan.checkpoints then
      var seen := Clip(checkpoint, 128);
      Fail(With(s, i, a.(checkpoint := seen, arrival := Some(seen))), UnexpectedCheckpoint, UndeclaredCheckpoint(seen))
    else With(s, i, a.(checkpoint := checkpoint, arrival := Some(checkpoint), phase := Parked, where := Blocked))
  }

  function Exit(s: State, i: nat): State
    requires i < |s.actors|
  {
    With(s, i, ExitActor(s.actors[i]))
  }

  function ExitActor(a: Actor): Actor {
    a.(checkpoint := COMPLETION, arrival := if a.arrival.None? then Some(COMPLETION) else a.arrival,
       phase := Finished, where := Exited)
  }

  // ----- controller sections ---------------------------------------------------------------

  predicate AllParked(s: State) {
    forall i :: 0 <= i < |s.actors| ==> s.actors[i].phase == Parked
  }

  function Settled(s: State): Controller { if s.failure.failed then MustClean else Idle }

  /** The initial barrier and the initial observation. */
  function Barrier(s: State, late: bool, sound: bool, what: string, lateAgain: bool): State {
    var waited := Poll(s, late);
    var observed := if waited.failure.failed then waited else Observe(waited, 0, sound, what);
    var polled := Poll(observed, lateAgain);
    polled.(life := polled.life.(initialized := !polled.failure.failed), controller := Settled(polled))
  }

  function Find(actors: seq<Actor>, name: string, from: nat): (k: Option<nat>)
    requires from <= |actors|
    ensures k.Some? ==> from <= k.value < |actors| && actors[k.value].name == name
    ensures k.None? ==> forall j :: from <= j < |actors| ==> actors[j].name != name
    decreases |actors| - from
  {
    if from == |actors| then None
    else if actors[from].name == name then Some(from)
    else Find(actors, name, from + 1)
  }

  predicate CanAdvance(s: State) {
    s.life.initialized && !s.life.closed && !s.failure.failed && !s.progress.scheduleCompleted
  }

  /** Granting the next step, which must be the one the plan says. */
  function Advance(s: State, requested: Step, late: bool): State {
    if !CanAdvance(s) then s
    else
      var polled := Poll(s, late);
      if polled.failure.failed then polled.(controller := MustClean)
      else if s.progress.nextStep >= |s.plan.steps| || requested != s.plan.steps[s.progress.nextStep]
      then Fail(s, InvalidSchedule, IntervalDiffers).(controller := MustClean)
      else
        var k := Find(s.actors, requested.actor, 0);
        if k.None? || s.actors[k.value].phase != Parked
        then Fail(s, UnexpectedCheckpoint, ActorNotParked).(controller := MustClean)
        else
          var a := s.actors[k.value];
          With(Log(s, Permit, a, a.checkpoint), k.value, a.(arrival := None, phase := Running)).(controller := Waiting(k.value))
  }

  function LogArrival(s: State, a: Actor): State {
    if a.arrival.Some? then Log(s, Arrival, a, a.arrival.value) else s
  }

  /** The controller's wait is over: log the arrival if there is one, and compare it. */
  function Woken(s: State, late: bool): State
    requires s.controller.Waiting? && s.controller.k < |s.actors| && s.progress.nextStep < |s.plan.steps|
  {
    var k := s.controller.k;
    var a := s.actors[k];
    var polled := Poll(s, late);
    if polled.failure.failed then LogArrival(polled, a).(controller := MustClean)
    else if a.checkpoint != s.plan.steps[s.progress.nextStep].checkpoint
    then LogArrival(Fail(s, UnexpectedCheckpoint, ArrivedElsewhere), a).(controller := MustClean)
    else With(LogArrival(s, a), k, a.(joined := a.joined || a.phase == Finished)).(controller := Settling(k))
  }

  /** After a matching arrival and, for a finished actor, its join: observe and count the step. */
  function Settle(s: State, sound: bool, what: string, late: bool): State {
    var counted := s.(progress := s.progress.(nextStep := s.progress.nextStep + 1));
    var polled := Poll(Observe(counted, counted.progress.nextStep, sound, what), late);
    var done := !polled.failure.failed && polled.progress.nextStep == |polled.plan.steps|;
    polled.(progress := polled.progress.(scheduleCompleted := polled.progress.scheduleCompleted || done),
            controller := Settled(polled))
  }

  function Finish(s: State): State {
    if s.life.closed || !s.life.constructed then s
    else
      (if s.life.initialized && s.progress.scheduleCompleted then s
       else Fail(s, InvalidSchedule, ScheduleIncomplete)).(controller := MustClean)
  }

  function CleanupBegin(s: State): State {
    if !s.life.constructed then s.(life := s.life.(closed := true), controller := Idle)
    else s.(life := s.life.(closed := true, stopping := true, cancelled := true), controller := Cleaning)
  }

  function Started(a: Actor): bool { a.where != Absent }

  function JoinFinished(actors: seq<Actor>): (joined: seq<Actor>)
    ensures |joined| == |actors|
    ensures forall i :: 0 <= i < |actors| ==>
              joined[i] == actors[i].(joined := actors[i].joined || (Started(actors[i]) && actors[i].phase == Finished))
  {
    seq(|actors|, i requires 0 <= i < |actors| =>
      actors[i].(joined := actors[i].joined || (Started(actors[i]) && actors[i].phase == Finished)))
  }

  function Unjoined(actors: seq<Actor>, from: nat): (names: seq<string>)
    requires from <= |actors|
    ensures names == [] <==> forall i :: from <= i < |actors| ==> Started(actors[i]) ==> actors[i].joined
    decreases |actors| - from
  {
    if from == |actors| then []
    else (if Started(actors[from]) && !actors[from].joined then [actors[from].name] else []) + Unjoined(actors, from + 1)
  }

  /** Join what has finished; tear down once, when nothing is left to join. */
  function CleanupEnd(s: State, threw: bool): State {
    var actors := JoinFinished(s.actors);
    var remaining := Unjoined(actors, 0);
    var tear := remaining == [] && !s.teardown.attempted;
    var failure := if tear then threw else s.teardown.threw;
    var status := if remaining != [] then Incomplete else if failure then TeardownFailed else Confirmed;
    var count := s.teardown.count + if tear then 1 else 0;
    s.(actors := actors, teardown := Teardown(status, remaining, s.teardown.attempted || tear, failure, count), controller := Idle)
  }

  function DestroyBegin(s: State): State {
    s.(life := s.life.(stopping := true, cancelled := true), controller := Dying)
  }

  function DestroyEnd(s: State): State {
    var count := s.teardown.count + if s.life.constructed && !s.teardown.attempted then 1 else 0;
    s.(actors := JoinFinished(s.actors), teardown := s.teardown.(count := count), controller := Gone)
  }

  // ----- runs ---------------------------------------------------------------------------------

  datatype Label =
    | DoBoot(i: nat) | DoResume(i: nat) | DoArrive(i: nat, checkpoint: string) | DoForeignArrive(i: nat)
    | DoCrash(i: nat, what: string) | DoExit(i: nat) | DoStopToken
    | DoBarrier(late: bool, sound: bool, what: string, lateAgain: bool)
    | DoAdvance(requested: Step, late: bool) | DoWoken(late: bool) | DoSettle(sound: bool, what: string, late: bool)
    | DoFinish | DoCleanupBegin | DoCleanupEnd(threw: bool) | DoDestroyBegin | DoDestroyEnd

  predicate At(s: State, i: nat, where: Where) {
    i < |s.actors| && s.actors[i].where == where
  }

  predicate CanTake(s: State, l: Label) {
    match l
    case DoBoot(i) => At(s, i, Booting)
    case DoResume(i) => At(s, i, Blocked) && (s.life.stopping || s.actors[i].phase == Running)
    case DoArrive(i, _) => At(s, i, InUser)
    case DoForeignArrive(i) => At(s, i, Blocked) || At(s, i, InUser) || (At(s, i, Exited) && !s.actors[i].joined)
    case DoCrash(i, _) => At(s, i, InUser)
    case DoExit(i) => At(s, i, InUser)
    case DoStopToken => true
    case DoBarrier(late, _, _, _) => s.controller == AtBarrier && (late || s.failure.failed || s.life.cancelled || AllParked(s))
    case DoAdvance(_, _) => s.controller == Idle
    case DoWoken(late) =>
      s.controller.Waiting? && s.controller.k < |s.actors| && s.progress.nextStep < |s.plan.steps|
      && (late || s.failure.failed || s.life.cancelled || s.actors[s.controller.k].phase != Running)
    case DoSettle(_, _, _) => s.controller.Settling?
    case DoFinish => s.controller == Idle
    case DoCleanupBegin => s.controller == Idle || s.controller == MustClean
    case DoCleanupEnd(_) => s.controller == Cleaning
    case DoDestroyBegin => s.controller == Idle
    case DoDestroyEnd =>
      s.controller == Dying && forall i :: 0 <= i < |s.actors| ==> s.actors[i].where == Exited || s.actors[i].where == Absent
  }

  function Take(s: State, l: Label): State
    requires CanTake(s, l)
  {
    match l
    case DoBoot(i) => Boot(s, i)
    case DoResume(i) => Resume(s, i)
    case DoArrive(i, checkpoint) => Arrive(s, i, checkpoint)
    case DoForeignArrive(_) => Fail(s, UncontrolledActor, OutsideOwnedActor)
    case DoCrash(_, what) => Fail(s, ApplicationFailed, Said(Clip(what, MAX_DETAIL)))
    case DoExit(i) => Exit(s, i)
    case DoStopToken => s.(life := s.life.(cancelled := true))
    case DoBarrier(late, sound, what, lateAgain) => Barrier(s, late, sound, what, lateAgain)
    case DoAdvance(requested, late) => Advance(s, requested, late)
    case DoWoken(late) => Woken(s, late)
    case DoSettle(sound, what, late) => Settle(s, sound, what, late)
    case DoFinish => Finish(s)
    case DoCleanupBegin => CleanupBegin(s)
    case DoCleanupEnd(threw) => CleanupEnd(s, threw)
    case DoDestroyBegin => DestroyBegin(s)
    case DoDestroyEnd => DestroyEnd(s)
  }

  ghost predicate Runs(s: State, labels: seq<Label>, t: State)
    decreases |labels|
  {
    if labels == [] then s == t else CanTake(s, labels[0]) && Runs(Take(s, labels[0]), labels[1..], t)
  }

  /** After admission: threads created and about to run, or a failure that prevented it. */
  ghost predicate Initial(s: State) {
    && !s.life.cancelled && !s.life.stopping && !s.life.initialized && !s.life.closed && s.progress.nextStep == 0 && !s.progress.scheduleCompleted
    && s.journal.events == [] && s.journal.observations == [] && s.teardown.cleanup == NotCleaned && s.teardown.remaining == []
    && !s.teardown.attempted && !s.teardown.threw && s.teardown.count == 0
    && (s.failure.failed <==> s.failure.outcome != Completed)
    && Plan((set i | 0 <= i < |s.actors| :: s.actors[i].name), s.plan.checkpoints, s.plan.steps)
    && (forall i, j :: 0 <= i < j < |s.actors| ==> s.actors[i].name != s.actors[j].name)
    && (forall i :: 0 <= i < |s.actors| ==>
          var a := s.actors[i];
          a.phase == Starting && a.checkpoint == START && a.arrival == None && !a.joined
          && (a.where == Booting || (a.where == Absent && s.failure.failed)))
    && (if s.life.constructed then s.controller == AtBarrier
        else s.failure.failed && s.controller == Idle && forall i :: 0 <= i < |s.actors| ==> s.actors[i].where == Absent)
  }
}
