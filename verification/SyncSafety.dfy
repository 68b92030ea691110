/** What every run of the controlled scheduler keeps. */
module SyncSafety {
  import opened Schedules
  import opened ControlledSync

  // ----- the invariant, part by part ---------------------------------------------

  ghost predicate Identities(s: State) {
    && (forall i :: 0 <= i < |s.actors| ==> s.actors[i].id != "")
    && (forall i, j :: 0 <= i < j < |s.actors| ==> s.actors[i].id != s.actors[j].id)
  }

  /** The flags follow the thread: parked exactly while blocked, until cancellation. */
  ghost predicate Threads(s: State) {
    forall i :: 0 <= i < |s.actors| ==>
      var a := s.actors[i];
      && (a.where == InRequest ==> a.parked)
      && (a.parked && !s.cancelled ==> a.where == InRequest)
      && (a.finished <==> a.where == Exited)
      && (a.finished ==> !a.parked)
  }

  ghost predicate OwnerAlive(s: State, owner: string) {
    owner == "" || exists i :: 0 <= i < |s.actors| && s.actors[i].id == owner && !s.actors[i].finished
  }

  /** FIFO conservation: what was sent is what was received followed by the contents. */
  ghost predicate Conserved(r: Resource) {
    && r.sent == r.received + r.queue
    && |r.queue| <= r.capacity
    && (r.owner != "" ==> r.kind == Mutex)
    && (r.queue != [] ==> r.kind == Queue)
  }

  ghost predicate Resources(s: State) {
    forall r :: r in s.resources ==> Conserved(s.resources[r]) && OwnerAlive(s, s.resources[r].owner)
  }

  /** A pending operation was admissible when it parked and still is. */
  ghost predicate PendingFits(s: State, a: Actor) {
    var p := a.pending;
    (p.op != Start && p.op != Checkpoint && p.op != Done) ==>
      && p.resource in s.resources
      && (var r := s.resources[p.resource];
          && ((p.op == Lock || p.op == Unlock) <==> r.kind == Mutex)
          && (p.op == Lock ==> r.owner != a.id)
          && (p.op == Unlock ==> r.owner == a.id))
  }

  ghost predicate Pendings(s: State) {
    !s.cancelled ==> forall i :: 0 <= i < |s.actors| && s.actors[i].parked ==> PendingFits(s, s.actors[i])
  }

  ghost predicate AtRest(a: Actor) {
    !a.grant && (a.parked || a.finished)
  }

  /** Between boundaries at most one actor is not at rest: the one being waited for. */
  ghost predicate Discipline(s: State) {
    !s.cancelled ==>
      match s.controller
      case AtBarrier => forall i :: 0 <= i < |s.actors| ==> !s.actors[i].grant
      case Idle => forall i :: 0 <= i < |s.actors| ==> AtRest(s.actors[i])
      case Waiting(k, version) =>
        && k < |s.actors|
        && (forall i :: 0 <= i < |s.actors| && i != k ==> AtRest(s.actors[i]))
        && (s.actors[k].version != version ==> AtRest(s.actors[k]))
        && (s.actors[k].grant ==> Enabled(s, k))
  }

  ghost predicate Evidence(s: State) {
    EvidenceBytes(s) <= s.maxEvidenceBytes
  }

  /** The first failure cancels the run and leaves a graph behind. */
  ghost predicate Verdict(s: State) {
    && (s.outcome != Completed ==> s.cancelled)
    && (s.outcome != Completed <==> s.graph.Some?)
    && (s.outcome == ControlledDeadlock ==> s.graph.Some? && Stuck(s.resources, s.graph.value))
  }

  /** A wait that nothing can serve: a mutex that another waiting actor owns, a full
      queue, an empty queue. */
  ghost predicate WaitStuck(resources: map<string, Resource>, g: Graph, w: Wait) {
    && w.resource in g.owners && w.resource in g.contents && w.resource in resources
    && (w.op == Lock || w.op == Send || w.op == Receive)
    && (w.op == Lock ==> g.owners[w.resource] != w.actor && Waits(g, g.owners[w.resource]))
    && (w.op == Send ==> |g.contents[w.resource]| == resources[w.resource].capacity)
    && (w.op == Receive ==> g.contents[w.resource] == [])
  }

  ghost predicate Waits(g: Graph, actor: string) {
    exists j :: 0 <= j < |g.waits| && g.waits[j].actor == actor
  }

  ghost predicate Stuck(resources: map<string, Resource>, g: Graph) {
    g.waits != [] && forall i :: 0 <= i < |g.waits| ==> WaitStuck(resources, g, g.waits[i])
  }

  ghost predicate Inv(s: State) {
    Identities(s) && Threads(s) && Resources(s) && Pendings(s) && Discipline(s) && Evidence(s) && Verdict(s)
  }

  lemma {:induction false} InitialInv(s: State)
    requires Initial(s)
    ensures Inv(s)
  {
    assert RowSizes(s.events) == [];
  }

  // ----- failing --------------------------------------------------------------------

  /** Failing changes nothing but the verdict, and only the first failure changes that. */
  lemma {:induction false} FailInv(s: State, outcome: Outcome)
    requires Inv(s) && outcome != Completed && outcome != ControlledDeadlock
    ensures Inv(Fail(s, outcome))
  {
    hide EvidenceBytes, GraphOf, Stuck, PendingFits, Enabled, Conserved, AtRest;
    var t := Fail(s, outcome);
    assert EvidenceBytes(t) == EvidenceBytes(s) by { SameEvidence(s, t); }
    forall r | r in t.resources ensures Conserved(t.resources[r]) && OwnerAlive(t, t.resources[r].owner) {
      assert OwnerAlive(s, s.resources[r].owner);
    }
  }

  lemma {:induction false} SameEvidence(s: State, t: State)
    requires s.events == t.events && s.observations == t.observations
    ensures EvidenceBytes(s) == EvidenceBytes(t)
  {
  }

  lemma {:induction false} AppendBytes(sizes: seq<nat>, bytes: nat)
    ensures ArrayBytes(sizes + [bytes]) == ArrayBytes(sizes) + bytes + if sizes == [] then 0 else 1
  {
    assert (sizes + [bytes])[..|sizes|] == sizes;
  }

  /** The admission test refuses an event exactly when the log with it would be over the bound. */
  lemma {:induction false} FitsIsExact(s: State, row: Row)
    ensures Fits(s, s.events == [], row.bytes) <==> EvidenceBytes(s.(events := s.events + [row])) <= s.maxEvidenceBytes
  {
    AppendBytes(RowSizes(s.events), row.bytes);
    assert RowSizes(s.events + [row]) == RowSizes(s.events) + [row.bytes];
  }

  lemma {:induction false} ObservationFitsIsExact(s: State, bytes: nat)
    ensures Fits(s, s.observations == [], bytes)
       <==> EvidenceBytes(s.(observations := s.observations + [bytes])) <= s.maxEvidenceBytes
  {
    AppendBytes(s.observations, bytes);
  }

  lemma {:induction false} RecordInv(s: State, row: Row)
    requires Inv(s)
    ensures Inv(Record(s, row))
  {
    hide EvidenceBytes, GraphOf, Stuck, PendingFits, Enabled, Conserved, AtRest, Fits;
    FitsIsExact(s, row);
    if Fits(s, s.events == [], row.bytes) {
      var t := s.(events := s.events + [row]);
      forall r | r in t.resources ensures Conserved(t.resources[r]) && OwnerAlive(t, t.resources[r].owner) {
        assert OwnerAlive(s, s.resources[r].owner);
      }
      SamePending(s, t);
      SameEnabled(s, t);
    } else {
      FailInv(s, EvidenceExhausted);
    }
  }

  lemma {:induction false} SamePending(s: State, t: State)
    requires s.resources == t.resources
    ensures forall a :: PendingFits(s, a) <==> PendingFits(t, a)
  {
  }

  lemma {:induction false} SameEnabled(s: State, t: State)
    requires s.resources == t.resources && s.actors == t.actors
    ensures forall i: nat :: i < |s.actors| ==> (Enabled(s, i) <==> Enabled(t, i))
  {
  }

  // ----- the worker's sections ----------------------------------------------------------

  /** Until cancellation, a worker in application code is the one being waited for, or the
      barrier has not been passed; either way nothing is granted to it. */
  lemma {:induction false} RunningActor(s: State, i: nat)
    requires Inv(s) && !s.cancelled && i < |s.actors| && s.actors[i].where == InUser
    ensures !s.actors[i].grant && !s.actors[i].parked && !s.actors[i].finished
    ensures s.controller == AtBarrier || s.controller == Waiting(i, s.actors[i].version)
  {
  }

  /** The capacities decide whether a retained graph is stuck; no step changes those. */
  lemma {:induction false} StuckStable(s: State, t: State)
    requires Verdict(s) && s.graph == t.graph && s.outcome == t.outcome && (s.cancelled ==> t.cancelled)
    requires forall r :: r in s.resources ==> r in t.resources && t.resources[r].capacity == s.resources[r].capacity
    ensures Verdict(t)
  {
    if t.outcome == ControlledDeadlock {
      var g := s.graph.value;
      forall i | 0 <= i < |g.waits| ensures WaitStuck(t.resources, g, g.waits[i]) {
        assert WaitStuck(s.resources, g, g.waits[i]);
      }
    }
  }

  /** Changing one actor without finishing it keeps every owner alive. */
  lemma {:induction false} OwnersStayAlive(s: State, t: State, i: nat)
    requires Resources(s) && i < |s.actors| && |t.actors| == |s.actors|
    requires forall j :: 0 <= j < |s.actors| && j != i ==> t.actors[j] == s.actors[j]
    requires t.actors[i].id == s.actors[i].id && t.actors[i].finished == s.actors[i].finished
    ensures forall r :: r in s.resources ==> OwnerAlive(t, s.resources[r].owner)
  {
    forall r | r in s.resources ensures OwnerAlive(t, s.resources[r].owner) {
      assert OwnerAlive(s, s.resources[r].owner);
      if s.resources[r].owner != "" {
        var j :| 0 <= j < |s.actors| && s.actors[j].id == s.resources[r].owner && !s.actors[j].finished;
        assert t.actors[j].id == s.resources[r].owner;
      }
    }
  }

  lemma {:induction false} RequestInv(s: State, i: nat, op: Op, resource: string, value: int)
    requires Inv(s) && i < |s.actors| && s.actors[i].where == InUser
    ensures Inv(Request(s, i, op, resource, value))
  {
    hide EvidenceBytes, GraphOf, Stuck, Conserved, OwnerAlive;
    if s.cancelled {
    } else if Misused(s, s.actors[i].id, op, resource) {
      FailInv(s, ResourceMisuse);
    } else {
      var t := Request(s, i, op, resource, value);
      RunningActor(s, i);
      OwnersStayAlive(s, t, i);
      SameEvidence(s, t);
      forall j | 0 <= j < |t.actors| && t.actors[j].parked ensures PendingFits(t, t.actors[j]) {
        if j != i { assert PendingFits(s, s.actors[j]); }
      }
    }
  }

  /** A granted operation is still enabled when it is applied, and only the actor being
      waited for can be granted. */
  lemma {:induction false} GrantedIsEnabled(s: State, i: nat)
    requires Inv(s) && !s.cancelled && i < |s.actors| && s.actors[i].where == InRequest && s.actors[i].grant
    ensures Enabled(s, i) && s.controller == Waiting(i, s.actors[i].version)
  {
  }

  /** Applying an enabled operation keeps the resource conserved. */
  lemma {:induction false} EffectConserved(s: State, i: nat)
    requires Inv(s) && !s.cancelled && i < |s.actors| && Enabled(s, i) && s.actors[i].pending.resource in s.resources
    ensures Conserved(Effect(s.resources[s.actors[i].pending.resource], s.actors[i].id, s.actors[i].pending))
  {
    hide EvidenceBytes, Stuck, Discipline;
    assert PendingFits(s, s.actors[i]);
    var p := s.actors[i].pending;
    var r := s.resources[p.resource];
    assert Conserved(r);
    if p.op == Send {
      assert r.received + (r.queue + [p.value]) == (r.received + r.queue) + [p.value];
    } else if p.op == Receive {
      assert r.received + r.queue == (r.received + [r.queue[0]]) + r.queue[1..];
    }
  }

  /** No other parked actor's operation becomes inadmissible by applying an enabled one. */
  lemma {:induction false} OthersStillFit(s: State, t: State, i: nat, j: nat)
    requires Inv(s) && !s.cancelled && i < |s.actors| && Enabled(s, i) && j < |s.actors| && j != i && s.actors[j].parked
    requires var p := s.actors[i].pending;
             t.resources == if p.resource in s.resources
                            then s.resources[p.resource := Effect(s.resources[p.resource], s.actors[i].id, p)] else s.resources
    ensures PendingFits(t, s.actors[j])
  {
    hide EvidenceBytes, Stuck, Discipline, Conserved;
    assert PendingFits(s, s.actors[i]) && PendingFits(s, s.actors[j]);
    assert s.actors[i].id != s.actors[j].id && s.actors[j].id != "";
  }

  lemma {:induction false} WakeInv(s: State, i: nat, bytes: nat)
    requires Inv(s) && CanTake(s, DoWake(i, bytes))
    ensures Inv(Wake(s, i, bytes))
  {
    hide EvidenceBytes, GraphOf, Stuck, Conserved, OwnerAlive, PendingFits, Effect, Record;
    var a := s.actors[i];
    var p := a.pending;
    if s.cancelled {
      var t := Wake(s, i, bytes);
      OwnersStayAlive(s, t, i);
      SameEvidence(s, t);
    } else {
      GrantedIsEnabled(s, i);
      var t := s.(actors := s.actors[i := a.(grant := false, parked := false, where := InUser)],
                  resources := if p.resource in s.resources
                               then s.resources[p.resource := Effect(s.resources[p.resource], a.id, p)] else s.resources);
      OwnersStayAlive(s, t, i);
      SameEvidence(s, t);
      if p.resource in s.resources {
        EffectConserved(s, i);
        EffectOwner(t, i, s.resources[p.resource], p);
      }
      forall j | 0 <= j < |t.actors| && t.actors[j].parked ensures PendingFits(t, t.actors[j]) {
        OthersStillFit(s, t, i, j);
      }
      assert Verdict(t) by { StuckStable(s, t); }
      RecordInv(t, Applied(a.id, p.op, p.resource, Delivered(s, p), bytes));
    }
  }

  lemma {:induction false} EffectOwner(t: State, i: nat, r: Resource, p: Pending)
    requires i < |t.actors| && !t.actors[i].finished && OwnerAlive(t, r.owner)
    ensures OwnerAlive(t, Effect(r, t.actors[i].id, p).owner) && Effect(r, t.actors[i].id, p).capacity == r.capacity
  {
  }

  /** Some of the resources were given back by the actor `id`. */
  ghost predicate GivenBack(s: State, t: State, id: string) {
    && t.resources.Keys == s.resources.Keys
    && forall r :: r in s.resources ==>
         t.resources[r] == s.resources[r] || t.resources[r] == Released(s.resources[r], id)
  }

  lemma {:induction false} GivenBackFits(s: State, t: State, id: string, a: Actor)
    requires GivenBack(s, t, id) && PendingFits(s, a) && a.id != id && a.id != ""
    ensures PendingFits(t, a)
  {
    if a.pending.resource in s.resources {
      assert t.resources[a.pending.resource] == s.resources[a.pending.resource]
          || t.resources[a.pending.resource] == Released(s.resources[a.pending.resource], id);
    }
  }

  lemma {:induction false} GivenBackConserved(s: State, t: State, id: string)
    requires GivenBack(s, t, id) && Resources(s)
    ensures forall r :: r in t.resources ==>
              Conserved(t.resources[r]) && t.resources[r].capacity == s.resources[r].capacity
              && (t.resources[r].owner == "" || t.resources[r].owner == s.resources[r].owner)
  {
    hide OwnerAlive;
    forall r | r in t.resources
      ensures Conserved(t.resources[r]) && t.resources[r].capacity == s.resources[r].capacity
              && (t.resources[r].owner == "" || t.resources[r].owner == s.resources[r].owner)
    {
      assert Conserved(s.resources[r]);
      assert t.resources[r] == s.resources[r] || t.resources[r] == Released(s.resources[r], id);
    }
  }

  lemma {:induction false} NobodyAlive(s: State)
    ensures OwnerAlive(s, "")
  {
  }

  lemma {:induction false} UnwindInv(s: State, i: nat, resource: string)
    requires Inv(s) && i < |s.actors| && s.actors[i].where == InUser
    ensures Inv(UnwindRelease(s, i, resource))
  {
    hide EvidenceBytes, GraphOf, Stuck, Conserved, OwnerAlive, PendingFits, Enabled;
    var t := UnwindRelease(s, i, resource);
    assert GivenBack(s, t, s.actors[i].id);
    GivenBackConserved(s, t, s.actors[i].id);
    OwnersStayAlive(s, t, i);
    NobodyAlive(t);
    SameEvidence(s, t);
    StuckStable(s, t);
    if !s.cancelled {
      RunningActor(s, i);
      forall j | 0 <= j < |t.actors| && t.actors[j].parked ensures PendingFits(t, t.actors[j]) {
        GivenBackFits(s, t, s.actors[i].id, s.actors[j]);
      }
    }
  }

  /** An actor that leaves takes no owner with it that it did not release. */
  lemma {:induction false} ExitOwners(s: State, i: nat)
    requires Inv(s) && i < |s.actors|
    ensures forall r :: r in s.resources ==> OwnerAlive(Exit(s, i), Released(s.resources[r], s.actors[i].id).owner)
  {
    hide EvidenceBytes, GraphOf, Stuck, Conserved, PendingFits, Enabled, Discipline;
    var t := Exit(s, i);
    forall r | r in s.resources ensures OwnerAlive(t, Released(s.resources[r], s.actors[i].id).owner) {
      var owner := Released(s.resources[r], s.actors[i].id).owner;
      assert OwnerAlive(s, s.resources[r].owner);
      if owner != "" {
        var j :| 0 <= j < |s.actors| && s.actors[j].id == owner && !s.actors[j].finished;
        assert t.actors[j] == s.actors[j];
      }
    }
  }

  /** What is still pending after an exit still fits. */
  lemma {:induction false} ExitPendings(s: State, i: nat)
    requires Inv(s) && i < |s.actors| && s.actors[i].where == InUser && !Exit(s, i).cancelled
    ensures Pendings(Exit(s, i))
  {
    hide EvidenceBytes, GraphOf, Stuck, Conserved, OwnerAlive, PendingFits, Enabled, Verdict, Evidence;
    var t := Exit(s, i);
    assert GivenBack(s, t, s.actors[i].id);
    RunningActor(s, i);
    forall j | 0 <= j < |t.actors| && t.actors[j].parked ensures PendingFits(t, t.actors[j]) {
      GivenBackFits(s, t, s.actors[i].id, s.actors[j]);
    }
  }

  lemma {:induction false} ExitResources(s: State, i: nat)
    requires Inv(s) && i < |s.actors|
    ensures Resources(Exit(s, i)) && Identities(Exit(s, i)) && Threads(Exit(s, i))
  {
    hide EvidenceBytes, GraphOf, Stuck, Conserved, OwnerAlive, PendingFits, Enabled, Discipline, Verdict;
    var t := Exit(s, i);
    assert GivenBack(s, t, s.actors[i].id);
    GivenBackConserved(s, t, s.actors[i].id);
    ExitOwners(s, i);
  }

  lemma {:induction false} ExitVerdict(s: State, i: nat)
    requires Inv(s) && i < |s.actors| && s.actors[i].where == InUser
    ensures Evidence(Exit(s, i)) && Verdict(Exit(s, i)) && Discipline(Exit(s, i))
  {
    hide EvidenceBytes, GraphOf, Stuck, Conserved, OwnerAlive, PendingFits, Enabled, Resources, Pendings;
    var a := s.actors[i];
    var u := if Holds(s, a.id) && !s.cancelled then Fail(s, ResourceMisuse) else s;
    if Holds(s, a.id) && !s.cancelled { FailInv(s, ResourceMisuse); }
    var t := Exit(s, i);
    GivenBackConserved(s, t, a.id);
    SameEvidence(u, t);
    StuckStable(u, t);
    if !t.cancelled { RunningActor(s, i); }
  }

  lemma {:induction false} ExitInv(s: State, i: nat)
    requires Inv(s) && i < |s.actors| && s.actors[i].where == InUser
    ensures Inv(Exit(s, i))
  {
    hide Exit, Identities, Threads, Resources, Evidence, Verdict, Discipline;
    ExitResources(s, i);
    ExitVerdict(s, i);
    if !Exit(s, i).cancelled { ExitPendings(s, i); }
  }

  // ----- the controller's sections -----------------------------------------------------------

  /** Moving only the controller, or bookkeeping, keeps everything but the discipline. */
  lemma {:induction false} ControllerInv(s: State, t: State)
    requires Inv(s) && t.actors == s.actors && t.resources == s.resources && t.outcome == s.outcome && t.graph == s.graph
    requires t.cancelled == s.cancelled && Evidence(t) && Discipline(t)
    ensures Inv(t)
  {
    hide EvidenceBytes, Stuck, Conserved, PendingFits, Enabled, Discipline;
    OwnersUnchanged(s, t);
    SamePending(s, t);
    StuckStable(s, t);
  }

  lemma {:induction false} OwnersUnchanged(s: State, t: State)
    requires t.actors == s.actors
    ensures forall owner :: OwnerAlive(s, owner) <==> OwnerAlive(t, owner)
  {
  }

  lemma {:induction false} BarrierEndInv(s: State, late: bool)
    requires Inv(s) && CanTake(s, DoBarrierEnd(late))
    ensures Inv(BarrierEnd(s, late))
  {
    hide EvidenceBytes, GraphOf, Stuck, Conserved, PendingFits, Enabled, Resources;
    var u := if !s.cancelled && (late || !AllParked(s)) then Fail(s, TimedOut) else s;
    if u != s { FailInv(s, TimedOut); }
    SameEvidence(u, BarrierEnd(s, late));
    ControllerInv(u, BarrierEnd(s, late));
  }

  lemma {:induction false} AdvanceEndInv(s: State, late: bool, lateJoin: bool)
    requires Inv(s) && CanTake(s, DoAdvanceEnd(late, lateJoin))
    ensures Inv(AdvanceEnd(s, late, lateJoin))
  {
    hide EvidenceBytes, GraphOf, Stuck, Conserved, PendingFits, Enabled, Resources;
    WaitOverInv(s, late);
    var t := AdvanceEnd(s, late, false);
    hide Inv;
    if !t.cancelled && s.actors[s.controller.actor].finished && lateJoin { FailInv(t, TimedOut); }
  }

  lemma {:induction false} WaitOverInv(s: State, late: bool)
    requires Inv(s) && CanTake(s, DoAdvanceEnd(late, false))
    ensures Inv(AdvanceEnd(s, late, false))
  {
    hide EvidenceBytes, GraphOf, Stuck, Conserved, PendingFits, Enabled, Resources;
    var arrived := s.cancelled || s.actors[s.controller.actor].version != s.controller.version;
    var u := if late || !arrived then Fail(s, TimedOut) else s;
    if late || !arrived { FailInv(s, TimedOut); }
    SameEvidence(u, AdvanceEnd(s, late, false));
    ControllerInv(u, AdvanceEnd(s, late, false));
  }

  /** Granting an enabled actor leaves everybody else at rest. */
  lemma {:induction false} GrantInv(s: State, k: nat, row: Row)
    requires Inv(s) && s.controller == Idle && !s.cancelled && k < |s.actors| && Enabled(s, k)
    requires Fits(s, s.events == [], row.bytes)
    ensures Inv(s.(events := s.events + [row], decisions := s.decisions + 1,
                   actors := s.actors[k := s.actors[k].(grant := true)],
                   controller := Waiting(k, s.actors[k].version)))
  {
    hide EvidenceBytes, Stuck, Conserved, OwnerAlive;
    var a := s.actors[k];
    var t := s.(events := s.events + [row], decisions := s.decisions + 1,
                actors := s.actors[k := a.(grant := true)], controller := Waiting(k, a.version));
    FitsIsExact(s, row);
    SameEvidence(t, s.(events := s.events + [row]));
    OwnersStayAlive(s, t, k);
    StuckStable(s, t);
    forall j | 0 <= j < |t.actors| && t.actors[j].parked ensures PendingFits(t, t.actors[j]) {
      assert PendingFits(s, s.actors[j]);
    }
  }

  lemma {:induction false} AdvanceInv(s: State, k: Option<nat>, late: bool, bytes: nat)
    requires Inv(s) && CanTake(s, DoAdvance(k, late, bytes))
    ensures Inv(Advance(s, k, late, bytes))
  {
    hide Inv, Fail, Fits;
    if late {
      FailInv(s, TimedOut);
    } else if s.cancelled {
    } else if k.None? || !Enabled(s, k.value) {
      FailInv(s, DisabledChoice);
    } else if s.decisions >= s.maxDecisions {
      FailInv(s, DecisionExhausted);
    } else if !Fits(s, s.events == [], bytes) {
      FailInv(s, EvidenceExhausted);
    } else {
      var a := s.actors[k.value];
      GrantInv(s, k.value, Granted(a.id, a.pending.op, a.pending.resource, bytes));
    }
  }

  lemma {:induction false} ObserveInv(s: State, late: bool, answer: Answer, bytes: nat)
    requires Inv(s)
    ensures Inv(Observe(s, late, answer, bytes))
  {
    hide Fail, Fits, EvidenceBytes, Threads, Resources, Pendings, Verdict;
    FailInv(s, TimedOut);
    FailInv(s, ObservationFailed);
    FailInv(s, EvidenceExhausted);
    if !s.cancelled && answer == Sound && !late && Fits(s, s.observations == [], bytes) {
      var t := s.(observations := s.observations + [bytes]);
      ObservationFitsIsExact(s, bytes);
      SameEnabled(s, t);
      ControllerInv(s, t);
    }
  }

  lemma {:induction false} CancelInv(s: State)
    requires Inv(s)
    ensures Inv(Cancel(s))
  {
    hide EvidenceBytes, GraphOf, Stuck, Conserved, PendingFits, Enabled;
    if s.outcome == Completed && !s.finished {
      FailInv(s, Cancelled);
    } else {
      var t := Cancel(s);
      SameEvidence(s, t);
      OwnersUnchanged(s, t);
      StuckStable(s, t);
    }
  }

  // ----- the deadlock verdict -------------------------------------------------------------------

  ghost predicate WaitsWith(a: Actor, w: Wait) {
    !a.finished && a.parked && w == Wait(a.id, a.pending.op, a.pending.resource)
  }

  ghost predicate SomeoneWaits(actors: seq<Actor>, i: nat, w: Wait) {
    exists j :: i <= j < |actors| && WaitsWith(actors[j], w)
  }

  lemma {:induction false} WaitsUnfold(actors: seq<Actor>, i: nat, w: Wait)
    requires i <= |actors|
    ensures w in WaitsFrom(actors, i) <==> i < |actors| && (WaitsWith(actors[i], w) || w in WaitsFrom(actors, i + 1))
  {
  }

  lemma {:induction false} SomeoneUnfold(actors: seq<Actor>, i: nat, w: Wait)
    requires i <= |actors|
    ensures SomeoneWaits(actors, i, w) <==> i < |actors| && (WaitsWith(actors[i], w) || SomeoneWaits(actors, i + 1, w))
  {
    hide WaitsWith;
  }

  lemma {:induction false} WaitsAre(actors: seq<Actor>, i: nat, w: Wait)
    requires i <= |actors|
    ensures w in WaitsFrom(actors, i) <==> SomeoneWaits(actors, i, w)
    decreases |actors| - i
  {
    hide WaitsFrom, WaitsWith, SomeoneWaits;
    WaitsUnfold(actors, i, w);
    SomeoneUnfold(actors, i, w);
    if i < |actors| { WaitsAre(actors, i + 1, w); }
  }

  /** A parked actor whose operation is not enabled waits for something nobody can provide. */
  lemma {:induction false} NotEnabledIsStuck(s: State, i: nat)
    requires Inv(s) && !s.cancelled && NoneEnabled(s) && AllParked(s)
    requires i < |s.actors| && s.actors[i].parked && !s.actors[i].finished
    ensures WaitStuck(s.resources, GraphOf(s), Wait(s.actors[i].id, s.actors[i].pending.op, s.actors[i].pending.resource))
  {
    hide EvidenceBytes, Stuck, WaitsFrom, Discipline, Verdict;
    var a := s.actors[i];
    var g := GraphOf(s);
    assert !Enabled(s, i) && PendingFits(s, a);
    var r := s.resources[a.pending.resource];
    assert Conserved(r) && OwnerAlive(s, r.owner);
    if a.pending.op == Lock {
      var j :| 0 <= j < |s.actors| && s.actors[j].id == r.owner && !s.actors[j].finished;
      var w := Wait(s.actors[j].id, s.actors[j].pending.op, s.actors[j].pending.resource);
      WaitsAre(s.actors, 0, w);
      assert WaitsWith(s.actors[j], w);
      assert w in g.waits;
      var m :| 0 <= m < |g.waits| && g.waits[m] == w;
      assert Waits(g, r.owner);
    }
  }

  lemma {:induction false} QueryInv(s: State, late: bool)
    requires Inv(s)
    ensures Inv(Query(s, late))
  {
    hide EvidenceBytes, GraphOf, WaitStuck, Conserved, PendingFits, Enabled, WaitsFrom;
    if late {
      FailInv(s, TimedOut);
    } else if !s.cancelled && s.outcome == Completed && NoneEnabled(s) && !AllFinished(s) && AllParked(s) {
      var t := Query(s, late);
      var g := GraphOf(s);
      DeadlockGraph(s);
      SameEvidence(s, t);
      OwnersUnchanged(s, t);
    }
  }

  /** The graph kept at the deadlock verdict is stuck as a whole. */
  lemma {:induction false} DeadlockGraph(s: State)
    requires Inv(s) && !s.cancelled && NoneEnabled(s) && !AllFinished(s) && AllParked(s)
    ensures Stuck(s.resources, GraphOf(s))
  {
    hide Inv, NoneEnabled, WaitStuck, WaitsFrom;
    var g := GraphOf(s);
    var i :| 0 <= i < |s.actors| && !s.actors[i].finished;
    var w := Wait(s.actors[i].id, s.actors[i].pending.op, s.actors[i].pending.resource);
    WaitsAre(s.actors, 0, w);
    assert WaitsWith(s.actors[i], w);
    forall k | 0 <= k < |g.waits| ensures WaitStuck(s.resources, g, g.waits[k]) {
      assert g.waits[k] in g.waits;
      WaitsAre(s.actors, 0, g.waits[k]);
      var j :| 0 <= j < |s.actors| && WaitsWith(s.actors[j], g.waits[k]);
      NotEnabledIsStuck(s, j);
    }
  }

  // ----- every run --------------------------------------------------------------------------------

  lemma {:induction false} StepInv(s: State, l: Label)
    requires Inv(s) && CanTake(s, l)
    ensures Inv(Take(s, l))
  {
    hide Inv, Fail, Request, Wake, UnwindRelease, Exit, BarrierEnd, Query, Advance, AdvanceEnd, Observe, Cancel;
    match l
    case DoRequest(i, op, resource, value) => RequestInv(s, i, op, resource, value);
    case DoWake(i, bytes) => WakeInv(s, i, bytes);
    case DoUnwind(i, resource) => UnwindInv(s, i, resource);
    case DoThrow(_) => if !s.cancelled { FailInv(s, ApplicationFailed); }
    case DoExit(i) => ExitInv(s, i);
    case DoForeignCall => FailInv(s, ResourceMisuse);
    case DoBarrierEnd(late) => BarrierEndInv(s, late);
    case DoQuery(late) => QueryInv(s, late);
    case DoAdvance(k, late, bytes) => AdvanceInv(s, k, late, bytes);
    case DoAdvanceEnd(late, lateJoin) => AdvanceEndInv(s, late, lateJoin);
    case DoObserve(late, answer, bytes) => ObserveInv(s, late, answer, bytes);
    case DoCancel => CancelInv(s);
  }

  lemma {:induction false} RunInv(s: State, labels: seq<Label>, t: State)
    requires Inv(s) && Runs(s, labels, t)
    ensures Inv(t)
    decreases |labels|
  {
    hide Inv, Take;
    if labels != [] {
      StepInv(s, labels[0]);
      RunInv(Take(s, labels[0]), labels[1..], t);
    }
  }
}
