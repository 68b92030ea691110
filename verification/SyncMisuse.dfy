/** When the controlled scheduler speaks of misuse: exactly when a worker named a resource that is not
    declared or of the wrong kind, asked for a mutex that by its own history it holds, gave back or
    left with one against that history, or when somebody else used its hook. */
module SyncMisuse {
  import opened Schedules
  import opened ControlledSync
  import opened SyncSafety
  import opened SyncTheorems

  /** By its history an actor holds a mutex. */
  datatype Holding = Holding(actor: string, resource: string)

  // ----- histories ---------------------------------------------------------------------------------

  /** What a row of the log says about holding. */
  ghost function Noted(held: set<Holding>, row: Row): set<Holding> {
    if row.Applied? && row.op == Lock then held + {Holding(row.actor, row.resource)}
    else if row.Applied? && row.op == Unlock then held - {Holding(row.actor, row.resource)}
    else held
  }

  /** One more section: the rows it logged count, and so do guards that unwind and workers that end. */
  ghost function HeldAfter(held: set<Holding>, s: State, l: Label): set<Holding>
    requires CanTake(s, l)
  {
    match l
    case DoUnwind(i, resource) => held - {Holding(s.actors[i].id, resource)}
    case DoExit(i) => set h | h in held && h.actor != s.actors[i].id
    case _ =>
      var events := Take(s, l).events;
      if |events| == |s.events| + 1 then Noted(held, events[|s.events|]) else held
  }

  ghost function HeldOver(held: set<Holding>, s: State, labels: seq<Label>): set<Holding>
    decreases |labels|
  {
    if labels == [] || !CanTake(s, labels[0]) then held
    else HeldOver(HeldAfter(held, s, labels[0]), Take(s, labels[0]), labels[1..])
  }

  ghost function Kinds(s: State): map<string, Kind> {
    map r | r in s.resources :: s.resources[r].kind
  }

  predicate OnMutex(op: Op) { op == Lock || op == Unlock }

  predicate OnQueue(op: Op) { op == Send || op == Receive }

  /** What a worker must not do, by the declarations and by the history. */
  ghost predicate Abuses(declared: map<string, Kind>, held: set<Holding>, s: State, l: Label)
    requires CanTake(s, l)
  {
    match l
    case DoForeignCall => true
    case DoRequest(i, op, resource, _) =>
      || ((OnMutex(op) || OnQueue(op)) && resource !in declared)
      || (OnMutex(op) && resource in declared && declared[resource] != Mutex)
      || (OnQueue(op) && resource in declared && declared[resource] != Queue)
      || (op == Lock && Holding(s.actors[i].id, resource) in held)
      || (op == Unlock && Holding(s.actors[i].id, resource) !in held)
    case DoExit(i) => exists resource :: Holding(s.actors[i].id, resource) in held
    case _ => false
  }

  // ----- history and owners agree -------------------------------------------------------------------------

  ghost predicate Owns(s: State, h: Holding) {
    h.actor != "" && h.resource in s.resources && s.resources[h.resource].owner == h.actor
  }

  /** Until cancellation, the histories say who owns what. */
  ghost predicate Agrees(declared: map<string, Kind>, held: set<Holding>, s: State) {
    && Kinds(s) == declared
    && (!s.cancelled ==> forall h :: h in held <==> Owns(s, h))
  }

  lemma {:induction false} InitialAgrees(s: State)
    requires Initial(s)
    ensures Agrees(Kinds(s), {}, s)
  {
  }

  /** A granted operation changes ownership as its row says. */
  lemma {:induction false} WakeOwns(s: State, i: nat, bytes: nat, h: Holding)
    requires Inv(s) && !s.cancelled && CanTake(s, DoWake(i, bytes))
    ensures Owns(Wake(s, i, bytes), h)
       <==> if s.actors[i].pending.op == Lock && h == Holding(s.actors[i].id, s.actors[i].pending.resource) then true
            else if s.actors[i].pending.op == Unlock && h == Holding(s.actors[i].id, s.actors[i].pending.resource) then false
            else Owns(s, h)
  {
    GrantedIsEnabled(s, i);
    assert PendingFits(s, s.actors[i]) && s.actors[i].id != "";
    hide Inv, Fits, GraphOf, Delivered, PendingFits;
  }

  lemma {:induction false} WakeLogs(s: State, i: nat, bytes: nat)
    requires CanTake(s, DoWake(i, bytes)) && !s.cancelled && !Wake(s, i, bytes).cancelled
    ensures Wake(s, i, bytes).events == s.events + [WokenRow(s, i, bytes)]
  {
    hide Fits, GraphOf, Delivered, Effect;
  }

  lemma {:induction false} WakeKinds(s: State, i: nat, bytes: nat)
    requires i < |s.actors|
    ensures Kinds(Wake(s, i, bytes)) == Kinds(s)
  {
    hide Fits, GraphOf, Delivered;
  }

  lemma {:induction false} WakeAgrees(declared: map<string, Kind>, held: set<Holding>, s: State, i: nat, bytes: nat)
    requires Inv(s) && !s.cancelled && Agrees(declared, held, s) && CanTake(s, DoWake(i, bytes))
    ensures Kinds(Wake(s, i, bytes)) == declared
    ensures !Wake(s, i, bytes).cancelled ==> Agrees(declared, HeldAfter(held, s, DoWake(i, bytes)), Wake(s, i, bytes))
  {
    hide Inv, Wake, Owns;
    var t := Wake(s, i, bytes);
    WakeKinds(s, i, bytes);
    if !t.cancelled {
      WakeLogs(s, i, bytes);
      forall h ensures h in HeldAfter(held, s, DoWake(i, bytes)) <==> Owns(t, h) { WakeOwns(s, i, bytes, h); }
    }
  }

  lemma {:induction false} UnwindAgrees(declared: map<string, Kind>, held: set<Holding>, s: State, i: nat, resource: string)
    requires Identities(s) && !s.cancelled && Agrees(declared, held, s) && CanTake(s, DoUnwind(i, resource))
    ensures Agrees(declared, HeldAfter(held, s, DoUnwind(i, resource)), UnwindRelease(s, i, resource))
  {
    var t := UnwindRelease(s, i, resource);
    assert s.actors[i].id != "" && Kinds(t) == Kinds(s);
    forall h ensures Owns(t, h) <==> Owns(s, h) && h != Holding(s.actors[i].id, resource) { }
    hide Owns, UnwindRelease;
  }

  lemma {:induction false} ExitAgrees(declared: map<string, Kind>, held: set<Holding>, s: State, i: nat)
    requires Identities(s) && !s.cancelled && Agrees(declared, held, s) && CanTake(s, DoExit(i))
    ensures Agrees(declared, HeldAfter(held, s, DoExit(i)), Exit(s, i))
  {
    hide GraphOf, Holds;
    var t := Exit(s, i);
    assert s.actors[i].id != "" && Kinds(t) == Kinds(s);
    forall h ensures Owns(t, h) <==> Owns(s, h) && h.actor != s.actors[i].id { }
    hide Owns, Exit;
  }

  lemma {:induction false} QuietAgrees(declared: map<string, Kind>, held: set<Holding>, s: State, l: Label)
    requires CanTake(s, l) && !s.cancelled && Agrees(declared, held, s) && !l.DoWake? && !l.DoUnwind? && !l.DoExit?
    ensures Agrees(declared, HeldAfter(held, s, l), Take(s, l))
  {
    OtherResources(s, l);
    assert HeldAfter(held, s, l) == held by { QuietNotes(held, s, l); }
    hide Take, HeldAfter;
  }

  /** No other section logs a lock or an unlock. */
  lemma {:induction false} QuietNotes(held: set<Holding>, s: State, l: Label)
    requires CanTake(s, l) && !l.DoWake? && !l.DoUnwind? && !l.DoExit?
    ensures HeldAfter(held, s, l) == held
  {
    hide Fits, GraphOf, AllParked, AllFinished, NoneEnabled, Enabled, Misused;
  }

  lemma {:induction false} CancelledKinds(s: State, l: Label)
    requires CanTake(s, l)
    ensures Kinds(Take(s, l)) == Kinds(s)
  {
    hide Take, Kinds;
    if l.DoWake? || l.DoUnwind? || l.DoExit? { WorkerKinds(s, l); } else { OtherResources(s, l); SameKinds(s, Take(s, l)); }
  }

  lemma {:induction false} SameKinds(s: State, t: State)
    requires t.resources == s.resources
    ensures Kinds(t) == Kinds(s)
  {
  }

  lemma {:induction false} WorkerKinds(s: State, l: Label)
    requires CanTake(s, l) && (l.DoWake? || l.DoUnwind? || l.DoExit?)
    ensures Kinds(Take(s, l)) == Kinds(s)
  {
    hide Wake, Fail, Holds;
    if l.DoWake? { WakeKinds(s, l.i, l.bytes); }
  }

  /** Every section keeps histories and owners in agreement. */
  lemma {:induction false} StepAgrees(declared: map<string, Kind>, held: set<Holding>, s: State, l: Label)
    requires Inv(s) && Agrees(declared, held, s) && CanTake(s, l)
    ensures Agrees(declared, HeldAfter(held, s, l), Take(s, l))
  {
    if s.cancelled {
      CancelledKinds(s, l);
      StillCancelled(s, l);
      hide Take, HeldAfter, Inv, Owns;
    } else {
      assert Identities(s) by { hide Threads, Resources, Pendings, Discipline, Evidence, Verdict; }
      hide Inv, HeldAfter, Wake, UnwindRelease, Exit, Owns;
      match l
      case DoWake(i, bytes) => WakeAgrees(declared, held, s, i, bytes);
      case DoUnwind(i, resource) => UnwindAgrees(declared, held, s, i, resource);
      case DoExit(i) => ExitAgrees(declared, held, s, i);
      case _ => QuietAgrees(declared, held, s, l);
    }
  }

  lemma {:induction false} StillCancelled(s: State, l: Label)
    requires CanTake(s, l) && s.cancelled
    ensures Take(s, l).cancelled
  {
    hide Fits, GraphOf, AllParked, AllFinished, NoneEnabled, Enabled, Misused, Holds, Effect, Delivered;
  }

  // ----- misuse exactly ------------------------------------------------------------------------------------------

  lemma {:induction false} RequestMisuse(declared: map<string, Kind>, held: set<Holding>, s: State, l: Label)
    requires Inv(s) && !s.cancelled && Agrees(declared, held, s) && l.DoRequest? && CanTake(s, l)
    ensures Misused(s, s.actors[l.i].id, l.op, l.resource) <==> Abuses(declared, held, s, l)
  {
    var id := s.actors[l.i].id;
    assert id != "";
    hide Inv;
    assert Holding(id, l.resource) in held <==> Owns(s, Holding(id, l.resource));
    assert l.resource in declared <==> l.resource in s.resources;
  }

  lemma {:induction false} ExitMisuse(declared: map<string, Kind>, held: set<Holding>, s: State, l: Label)
    requires Inv(s) && !s.cancelled && Agrees(declared, held, s) && l.DoExit? && CanTake(s, l)
    ensures Holds(s, s.actors[l.i].id) <==> Abuses(declared, held, s, l)
  {
    var id := s.actors[l.i].id;
    assert id != "";
    hide Inv;
    if Holds(s, id) {
      var r :| r in s.resources && s.resources[r].owner == id;
      assert Owns(s, Holding(id, r));
    }
    if Abuses(declared, held, s, l) {
      var r :| Holding(id, r) in held;
      assert Owns(s, Holding(id, r));
    }
  }

  lemma {:induction false} OthersDoNotMisuse(s: State, l: Label)
    requires CanTake(s, l) && !l.DoRequest? && !l.DoExit? && !l.DoForeignCall? && s.outcome == Completed
    ensures Take(s, l).outcome != ResourceMisuse
  {
    hide Fits, GraphOf, AllParked, AllFinished, NoneEnabled, Enabled, Effect, Delivered;
  }

  lemma {:induction false} CancelledDoesNotMisuse(s: State, l: Label)
    requires CanTake(s, l) && s.cancelled && !l.DoForeignCall? && s.outcome == Completed
    ensures Take(s, l).outcome != ResourceMisuse
  {
    hide Fits, GraphOf, AllParked, AllFinished, NoneEnabled, Enabled, Effect, Delivered, Misused, Holds;
  }

  /** A section makes a run one of misuse exactly when it is an abuse. */
  lemma {:induction false} MisuseExactly(declared: map<string, Kind>, held: set<Holding>, s: State, l: Label)
    requires Inv(s) && Agrees(declared, held, s) && CanTake(s, l) && s.outcome == Completed
    ensures !s.cancelled ==> (Take(s, l).outcome == ResourceMisuse <==> Abuses(declared, held, s, l))
    ensures Take(s, l).outcome == ResourceMisuse ==> Abuses(declared, held, s, l)
  {
    hide Inv, Agrees, Misused, Holds, GraphOf;
    if s.cancelled {
      if !l.DoForeignCall? { CancelledDoesNotMisuse(s, l); }
      hide Take;
    } else if l.DoRequest? {
      RequestMisuse(declared, held, s, l);
      hide Abuses;
    } else if l.DoExit? {
      ExitMisuse(declared, held, s, l);
      hide Abuses;
    } else if !l.DoForeignCall? {
      OthersDoNotMisuse(s, l);
      hide Take;
    }
  }

  // ----- over whole runs --------------------------------------------------------------------------------------------

  /** The `k`-th section, taken in `u` before anything had failed, was an abuse by the histories so far. */
  ghost predicate AbusedAt(held: set<Holding>, s: State, labels: seq<Label>, k: nat, u: State) {
    k < |labels| && Runs(s, labels[..k], u) && u.outcome == Completed && CanTake(u, labels[k])
    && Abuses(Kinds(s), HeldOver(held, s, labels[..k]), u, labels[k])
  }

  lemma {:induction false} MisuseFrom(held: set<Holding>, s: State, labels: seq<Label>, t: State)
    requires Inv(s) && Agrees(Kinds(s), held, s) && s.outcome == Completed && Runs(s, labels, t) && t.outcome == ResourceMisuse
    ensures exists k: nat, u :: AbusedAt(held, s, labels, k, u)
    decreases |labels|
  {
    hide Inv, Agrees, Take, CanTake, Abuses, HeldAfter, Kinds;
    var l, rest := labels[0], labels[1..];
    var u, next := Take(s, l), HeldAfter(held, s, l);
    StepInv(s, l);
    StepAgrees(Kinds(s), held, s, l);
    CancelledKinds(s, l);
    if u.outcome == Completed {
      MisuseFrom(next, u, rest, t);
      var k: nat, v :| AbusedAt(next, u, rest, k, v);
      assert labels[..k + 1][1..] == rest[..k];
      assert AbusedAt(held, s, labels, k + 1, v);
    } else {
      FailureCancels(u);
      FailureStays(u, rest, t);
      MisuseExactly(Kinds(s), held, s, l);
      assert labels[..0] == [];
      assert AbusedAt(held, s, labels, 0, s);
    }
  }

  lemma {:induction false} FailureCancels(s: State)
    requires Inv(s) && s.outcome != Completed
    ensures s.cancelled
  {
    hide Identities, Threads, Resources, Pendings, Discipline, Evidence, Stuck;
  }

  /** In every run: misuse has a cause, an abuse by declarations and histories. */
  lemma {:induction false} MisuseHasACause(s: State, labels: seq<Label>, t: State)
    requires Initial(s) && Runs(s, labels, t) && t.outcome == ResourceMisuse
    ensures exists k: nat, u :: AbusedAt({}, s, labels, k, u)
  {
    InitialInv(s);
    InitialAgrees(s);
    hide Inv, Agrees, Runs, AbusedAt;
    MisuseFrom({}, s, labels, t);
  }

  lemma {:induction false} AgreesAlong(held: set<Holding>, s: State, labels: seq<Label>, t: State)
    requires Inv(s) && Agrees(Kinds(s), held, s) && Runs(s, labels, t)
    ensures Agrees(Kinds(s), HeldOver(held, s, labels), t) && Inv(t)
    decreases |labels|
  {
    hide Inv, Agrees, Take, CanTake, HeldAfter, Kinds;
    if labels != [] {
      StepInv(s, labels[0]);
      StepAgrees(Kinds(s), held, s, labels[0]);
      CancelledKinds(s, labels[0]);
      AgreesAlong(HeldAfter(held, s, labels[0]), Take(s, labels[0]), labels[1..], t);
    }
  }

  /** And every abuse of a run that was not cancelled is misuse, for good. */
  lemma {:induction false} AbuseIsMisuse(s: State, labels: seq<Label>, u: State, l: Label, more: seq<Label>, t: State)
    requires Initial(s) && Runs(s, labels, u) && !u.cancelled && CanTake(u, l) && Runs(Take(u, l), more, t)
    requires Abuses(Kinds(s), HeldOver({}, s, labels), u, l)
    ensures t.outcome == ResourceMisuse
  {
    InitialInv(s);
    InitialAgrees(s);
    hide Inv, Agrees, Runs, Abuses, Take, CanTake;
    AgreesAlong({}, s, labels, u);
    NotYetFailed(u);
    MisuseExactly(Kinds(s), HeldOver({}, s, labels), u, l);
    StepInv(u, l);
    FailureCancels(Take(u, l));
    FailureStays(Take(u, l), more, t);
  }

  lemma {:induction false} NotYetFailed(s: State)
    requires Inv(s) && !s.cancelled
    ensures s.outcome == Completed
  {
    hide Identities, Threads, Resources, Pendings, Discipline, Evidence, Stuck;
  }

  // ----- and so has every other failure -------------------------------------------------------------------------------

  ghost predicate Late(l: Label) {
    match l
    case DoBarrierEnd(late) => late
    case DoQuery(late) => late
    case DoAdvance(_, late, _) => late
    case DoAdvanceEnd(late, lateJoin) => late || lateJoin
    case DoObserve(late, _, _) => late
    case _ => false
  }

  ghost predicate Overflows(s: State, l: Label) {
    match l
    case DoWake(_, bytes) => !Fits(s, s.events == [], bytes)
    case DoAdvance(_, _, bytes) => !Fits(s, s.events == [], bytes)
    case DoObserve(_, answer, bytes) => answer == NotInert || !Fits(s, s.observations == [], bytes)
    case _ => false
  }

  /** What the section that first fails a run did, by the outcome it leaves. */
  ghost predicate Causes(s: State, l: Label, outcome: Outcome)
    requires CanTake(s, l)
  {
    match outcome
    case Completed => false
    case ResourceMisuse => l.DoRequest? || l.DoExit? || l.DoForeignCall?
    case ApplicationFailed => l.DoThrow?
    case TimedOut => Late(l)
    case ControlledDeadlock => l.DoQuery? && !AllFinished(s) && NoneEnabled(s) && AllParked(s)
    case DisabledChoice => l.DoAdvance? && (l.k.None? || !Enabled(s, l.k.value))
    case DecisionExhausted => l.DoAdvance? && l.k.Some? && Enabled(s, l.k.value) && s.decisions >= s.maxDecisions
    case EvidenceExhausted => Overflows(s, l)
    case ObservationFailed => l.DoObserve? && l.answer == ObserverThrew
    case Cancelled => l.DoCancel?
  }

  lemma {:induction false} WakeCauses(s: State, l: Label)
    requires l.DoWake? && CanTake(s, l) && s.outcome == Completed && Take(s, l).outcome != Completed
    ensures Causes(s, l, Take(s, l).outcome)
  {
    hide GraphOf, Effect, Delivered, EvidenceBytes;
    forall t: State | t.events == s.events && t.observations == s.observations ensures EvidenceBytes(t) == EvidenceBytes(s) {
      SameEvidence(t, s);
    }
  }

  lemma {:induction false} AdvanceCauses(s: State, l: Label)
    requires (l.DoAdvance? || l.DoObserve?) && CanTake(s, l) && s.outcome == Completed && Take(s, l).outcome != Completed
    ensures Causes(s, l, Take(s, l).outcome)
  {
    hide GraphOf, Fits, Enabled;
  }

  lemma {:induction false} OtherCauses(s: State, l: Label)
    requires CanTake(s, l) && !l.DoWake? && !l.DoAdvance? && !l.DoObserve? && s.outcome == Completed && Take(s, l).outcome != Completed
    ensures Causes(s, l, Take(s, l).outcome)
  {
    hide GraphOf, AllFinished, NoneEnabled, Misused, Holds;
  }

  /** The section after `labels[..k]` is the one that failed the run, and it did what the outcome says. */
  ghost predicate FailedBy(s: State, labels: seq<Label>, k: nat, u: State, outcome: Outcome) {
    k < |labels| && Runs(s, labels[..k], u) && u.outcome == Completed && CanTake(u, labels[k]) && Causes(u, labels[k], outcome)
  }

  /** In every run, the outcome that is reported is the doing of one section of it. */
  lemma {:induction false} EveryFailureHasACause(s: State, labels: seq<Label>, t: State)
    requires Inv(s) && s.outcome == Completed && Runs(s, labels, t) && t.outcome != Completed
    ensures exists k: nat, u :: FailedBy(s, labels, k, u, t.outcome)
    decreases |labels|
  {
    hide Inv, Take, CanTake, Causes;
    var l, rest := labels[0], labels[1..];
    var u := Take(s, l);
    StepInv(s, l);
    if u.outcome == Completed {
      EveryFailureHasACause(u, rest, t);
      var k: nat, v :| FailedBy(u, rest, k, v, t.outcome);
      assert labels[..k + 1][1..] == rest[..k];
      assert FailedBy(s, labels, k + 1, v, t.outcome);
    } else {
      FailureCancels(u);
      FailureStays(u, rest, t);
      if l.DoWake? { WakeCauses(s, l); } else if l.DoAdvance? || l.DoObserve? { AdvanceCauses(s, l); } else { OtherCauses(s, l); }
      assert labels[..0] == [];
      assert FailedBy(s, labels, 0, s, t.outcome);
    }
  }

  // ----- when a section fails a run, exactly ---------------------------------------------------------------------------

  /** The deadline is found passed in a place where that counts. */
  ghost predicate RunsOut(s: State, l: Label)
    requires CanTake(s, l)
  {
    match l
    case DoBarrierEnd(late) => late
    case DoQuery(late) => late
    case DoAdvance(_, late, _) => late
    case DoAdvanceEnd(late, lateJoin) => late || (lateJoin && s.actors[s.controller.actor].finished)
    case DoObserve(late, _, _) => late
    case _ => false
  }

  /** Everything that fails a run which nothing has cancelled yet. */
  ghost predicate Spoils(declared: map<string, Kind>, held: set<Holding>, s: State, l: Label)
    requires CanTake(s, l)
  {
    || Abuses(declared, held, s, l) || RunsOut(s, l) || l.DoThrow?
    || (l.DoAdvance? && (l.k.None? || !Enabled(s, l.k.value) || s.decisions >= s.maxDecisions))
    || Overflows(s, l)
    || (l.DoObserve? && l.answer == ObserverThrew)
    || (l.DoQuery? && NoneEnabled(s) && !AllFinished(s))
    || (l.DoCancel? && !s.finished)
  }

  lemma {:induction false} WakeSpoils(s: State, l: Label)
    requires l.DoWake? && CanTake(s, l) && !s.cancelled && s.outcome == Completed
    ensures Take(s, l).outcome != Completed <==> Overflows(s, l)
  {
    hide GraphOf, Effect, Delivered, EvidenceBytes;
    forall t: State | t.events == s.events && t.observations == s.observations ensures EvidenceBytes(t) == EvidenceBytes(s) {
      SameEvidence(t, s);
    }
  }

  lemma {:induction false} AdvanceSpoils(s: State, l: Label)
    requires l.DoAdvance? && CanTake(s, l) && !s.cancelled && s.outcome == Completed
    ensures Take(s, l).outcome != Completed
       <==> l.late || l.k.None? || !Enabled(s, l.k.value) || s.decisions >= s.maxDecisions || Overflows(s, l)
  {
    hide GraphOf, Fits, Enabled;
  }

  lemma {:induction false} LooksSpoil(s: State, l: Label)
    requires (l.DoObserve? || l.DoBarrierEnd? || l.DoAdvanceEnd?) && CanTake(s, l) && !s.cancelled && s.outcome == Completed
    ensures Take(s, l).outcome != Completed <==> RunsOut(s, l) || Overflows(s, l) || (l.DoObserve? && l.answer == ObserverThrew)
  {
    hide GraphOf, Fits, AllFinished;
  }

  lemma {:induction false} QuerySpoils(s: State, l: Label)
    requires Inv(s) && l.DoQuery? && CanTake(s, l) && !s.cancelled && s.outcome == Completed
    ensures Take(s, l).outcome != Completed <==> l.late || (NoneEnabled(s) && !AllFinished(s))
  {
    assert AllParked(s);
    hide Inv, GraphOf, NoneEnabled, AllFinished;
  }

  lemma {:induction false} WorkersSpoil(declared: map<string, Kind>, held: set<Holding>, s: State, l: Label)
    requires Inv(s) && Agrees(declared, held, s) && CanTake(s, l) && !s.cancelled && s.outcome == Completed
    requires l.DoRequest? || l.DoExit? || l.DoForeignCall? || l.DoUnwind?
    ensures Take(s, l).outcome != Completed <==> Abuses(declared, held, s, l)
  {
    MisuseExactly(declared, held, s, l);
    hide Inv, Agrees, Misused, Holds, GraphOf, Abuses;
  }

  /** A section fails a run exactly when it spoils it. */
  lemma {:induction false} FailsExactly(declared: map<string, Kind>, held: set<Holding>, s: State, l: Label)
    requires Inv(s) && Agrees(declared, held, s) && CanTake(s, l) && !s.cancelled
    ensures Take(s, l).outcome != Completed <==> Spoils(declared, held, s, l)
  {
    NotYetFailed(s);
    hide Inv, Agrees, Fits, NoneEnabled, AllFinished, Enabled, GraphOf;
    if l.DoWake? {
      WakeSpoils(s, l);
      hide Take;
    } else if l.DoAdvance? {
      AdvanceSpoils(s, l);
      hide Take;
    } else if l.DoObserve? || l.DoBarrierEnd? || l.DoAdvanceEnd? {
      LooksSpoil(s, l);
      hide Take;
    } else if l.DoQuery? {
      QuerySpoils(s, l);
      hide Take;
    } else if l.DoThrow? || l.DoCancel? {
    } else {
      WorkersSpoil(declared, held, s, l);
      hide Take;
    }
  }

  // ----- what it means to be finished ------------------------------------------------------------------------------------

  /** At rest after a decision, a run says that it has finished exactly when everybody has. */
  ghost predicate FinishTold(s: State) {
    !s.cancelled && s.controller == Idle && s.decisions > 0 ==> (s.finished <==> AllFinished(s))
  }

  /** A worker moves only while it is waited for. */
  lemma {:induction false} NobodyMoves(s: State, l: Label)
    requires Inv(s) && !s.cancelled && s.controller == Idle && CanTake(s, l)
    ensures !l.DoRequest? && !l.DoWake? && !l.DoUnwind? && !l.DoThrow? && !l.DoExit?
  {
    hide EvidenceBytes, GraphOf, Stuck, Conserved, OwnerAlive, PendingFits, Enabled;
    assert forall i :: 0 <= i < |s.actors| ==> AtRest(s.actors[i]) && s.actors[i].where != InUser;
  }

  lemma {:induction false} RestingTold(s: State, l: Label)
    requires CanTake(s, l) && FinishTold(s) && !s.cancelled && s.controller == Idle && !Take(s, l).cancelled
    requires l.DoQuery? || l.DoAdvance? || l.DoObserve? || l.DoCancel? || l.DoForeignCall?
    ensures FinishTold(Take(s, l))
  {
    hide Fits, GraphOf, Enabled, NoneEnabled;
  }

  lemma {:induction false} MovingTold(s: State, l: Label)
    requires CanTake(s, l) && !s.cancelled && s.controller != Idle && !l.DoBarrierEnd?
    ensures FinishTold(Take(s, l))
  {
    hide Fits, GraphOf, Enabled, NoneEnabled, Misused, Holds, Effect, Delivered;
  }

  lemma {:induction false} StepTold(s: State, l: Label)
    requires Inv(s) && CanTake(s, l) && FinishTold(s) && (s.controller == AtBarrier ==> s.decisions == 0)
    ensures FinishTold(Take(s, l)) && (Take(s, l).controller == AtBarrier ==> Take(s, l).decisions == 0)
  {
    BarrierFirst(s, l);
    if s.cancelled {
      StillCancelled(s, l);
      hide Take;
    } else if s.controller == Idle {
      NobodyMoves(s, l);
      if !Take(s, l).cancelled { RestingTold(s, l); }
      hide Take, Inv;
    } else if !l.DoBarrierEnd? {
      MovingTold(s, l);
      hide Take, Inv;
    } else {
      hide Inv, GraphOf, AllParked;
    }
  }

  lemma {:induction false} WorkersKeepPlace(s: State, l: Label)
    requires CanTake(s, l) && (l.DoRequest? || l.DoWake? || l.DoUnwind? || l.DoThrow? || l.DoExit? || l.DoForeignCall?)
    ensures Take(s, l).controller == s.controller && Take(s, l).decisions == s.decisions
  {
    hide Fits, GraphOf, Misused, Holds, Effect, Delivered, Released;
  }

  lemma {:induction false} BarrierFirst(s: State, l: Label)
    requires CanTake(s, l)
    ensures Take(s, l).controller == AtBarrier ==> s.controller == AtBarrier && Take(s, l).decisions == s.decisions
  {
    if l.DoRequest? || l.DoWake? || l.DoUnwind? || l.DoThrow? || l.DoExit? || l.DoForeignCall? {
      WorkersKeepPlace(s, l);
      hide Take;
    } else {
      hide Fits, GraphOf, Enabled, NoneEnabled, AllParked, AllFinished, Request, Wake, Exit;
    }
  }

  lemma {:induction false} RunTold(s: State, labels: seq<Label>, t: State)
    requires Inv(s) && FinishTold(s) && (s.controller == AtBarrier ==> s.decisions == 0) && Runs(s, labels, t)
    ensures FinishTold(t)
    decreases |labels|
  {
    hide Inv, Take, CanTake, FinishTold;
    if labels != [] {
      StepInv(s, labels[0]);
      StepTold(s, labels[0]);
      RunTold(Take(s, labels[0]), labels[1..], t);
    }
  }

  /** A run at rest reports that it has finished exactly when every actor has, and only then does
      cleaning up leave it completed. */
  lemma {:induction false} FinishedExactly(s: State, labels: seq<Label>, t: State)
    requires Initial(s) && Runs(s, labels, t) && !t.cancelled && t.controller == Idle && t.decisions > 0
    ensures t.finished <==> AllFinished(t)
    ensures Cancel(t).outcome == Completed <==> AllFinished(t)
  {
    InitialInv(s);
    Reachable(s, labels, t);
    NotYetFailed(t);
    hide Inv, Runs, AllFinished, GraphOf;
    RunTold(s, labels, t);
  }
}
