/** The state that the controlled scheduler's mutex protects, updated in place by one method per
    critical section. Every method takes the machine's step of its label, so that whatever is
    proved of runs holds of the object. */
module Coordinators {
  import opened Schedules
  import opened ControlledSync
  import opened SyncSafety
  import opened SyncTheorems

  lemma {:induction false} RunsOn(s: State, labels: seq<Label>, t: State, l: Label)
    requires Runs(s, labels, t) && CanTake(t, l)
    ensures Runs(s, labels + [l], Take(t, l))
    decreases |labels|
  {
    hide CanTake, Take;
    if labels == [] {
      assert (labels + [l])[1..] == [];
    } else {
      RunsOn(Take(s, labels[0]), labels[1..], t, l);
      assert (labels + [l])[1..] == labels[1..] + [l];
    }
  }

  /** The position of an actor by name, if it is declared. */
  function IndexOf(actors: seq<Actor>, id: string, from: nat): (k: Option<nat>)
    requires from <= |actors|
    ensures k.Some? ==> from <= k.value < |actors| && actors[k.value].id == id
    ensures k.None? <==> forall j :: from <= j < |actors| ==> actors[j].id != id
    decreases |actors| - from
  {
    if from == |actors| then None
    else if actors[from].id == id then Some(from)
    else IndexOf(actors, id, from + 1)
  }

  function EnabledIds(s: State, from: nat): seq<string>
    requires from <= |s.actors|
    decreases |s.actors| - from
  {
    if from == |s.actors| then []
    else (if Enabled(s, from) then [s.actors[from].id] else []) + EnabledIds(s, from + 1)
  }

  lemma {:induction false} EnabledUnfolds(s: State, i: nat)
    requires i <= |s.actors|
    ensures EnabledIds(s, i)
         == if i == |s.actors| then [] else (if Enabled(s, i) then [s.actors[i].id] else []) + EnabledIds(s, i + 1)
  {
    hide Enabled;
  }

  lemma {:induction false} EnabledIdsEmpty(s: State, from: nat)
    requires from <= |s.actors|
    ensures EnabledIds(s, from) == [] <==> forall i :: from <= i < |s.actors| ==> !Enabled(s, i)
    decreases |s.actors| - from
  {
    if from < |s.actors| { EnabledIdsEmpty(s, from + 1); }
  }

  /** The resources after `id` gave back everything outside `todo`. */
  ghost function Cleared(m: map<string, Resource>, id: string, todo: set<string>): map<string, Resource> {
    map r | r in m :: if r in todo then m[r] else Released(m[r], id)
  }

  lemma {:induction false} NothingCleared(m: map<string, Resource>, id: string)
    ensures Cleared(m, id, m.Keys) == m
  {
  }

  lemma {:induction false} AllCleared(m: map<string, Resource>, id: string)
    ensures Cleared(m, id, {}) == map r | r in m :: Released(m[r], id)
  {
  }

  lemma {:induction false} ClearOne(m: map<string, Resource>, id: string, todo: set<string>, r: string)
    requires r in todo && r in m
    ensures r in Cleared(m, id, todo) && Cleared(m, id, todo)[r] == m[r]
    ensures Cleared(m, id, todo)[r := Released(m[r], id)] == Cleared(m, id, todo - {r})
    ensures m[r].owner != id ==> Released(m[r], id) == m[r] && m[r := m[r]] == m
  {
  }

  class Coordinator {
    var actors: seq<Actor>
    var resources: map<string, Resource>
    var outcome: Outcome
    var cancelled: bool
    var graph: Option<Graph>
    var decisions: nat
    var finished: bool
    var events: seq<Row>
    var observations: seq<nat>
    var controller: Controller
    const maxDecisions: nat
    const maxEvidenceBytes: nat
    ghost const start: State
    ghost var labels: seq<Label>

    function Snapshot(): State
      reads this
    {
      State(actors, resources, outcome, cancelled, graph, decisions, finished, events, observations, controller,
            maxDecisions, maxEvidenceBytes)
    }

    /** The object is where the machine's run over its labels has come to. */
    ghost predicate Valid()
      reads this
    {
      Initial(start) && Runs(start, labels, Snapshot())
    }

    constructor (ids: seq<string>, declared: map<string, Resource>, maxDecisions: nat, maxEvidenceBytes: nat)
      requires forall i :: 0 <= i < |ids| ==> ids[i] != ""
      requires forall i, j :: 0 <= i < j < |ids| ==> ids[i] != ids[j]
      requires forall r :: r in declared ==>
                 declared[r].owner == "" && declared[r].queue == [] && declared[r].sent == [] && declared[r].received == []
      requires maxEvidenceBytes >= 256
      ensures Valid() && labels == [] && controller == AtBarrier && outcome == Completed && decisions == 0 && !cancelled
      ensures |actors| == |ids| && (forall i :: 0 <= i < |ids| ==> actors[i].id == ids[i]) && resources == declared
      ensures this.maxDecisions == maxDecisions && this.maxEvidenceBytes == maxEvidenceBytes
    {
      var cast := seq(|ids|, i requires 0 <= i < |ids| =>
        Actor(ids[i], Pending(Start, "", 0), false, false, false, 0, InUser));
      actors, resources, outcome, cancelled, graph := cast, declared, Completed, false, None;
      decisions, finished, events, observations, controller := 0, false, [], [], AtBarrier;
      this.maxDecisions, this.maxEvidenceBytes := maxDecisions, maxEvidenceBytes;
      start := State(cast, declared, Completed, false, None, 0, false, [], [], AtBarrier, maxDecisions, maxEvidenceBytes);
      labels := [];
    }

    /** The section that has just run is the step of `l`. */
    ghost method Took(s: State, l: Label)
      requires Initial(start) && Runs(start, labels, s) && CanTake(s, l) && Snapshot() == Take(s, l)
      modifies `labels
      ensures Valid() && labels == old(labels) + [l]
    {
      hide Initial, Runs, CanTake, Take;
      RunsOn(start, labels, s, l);
      labels := labels + [l];
    }

    // ----- parts of sections ---------------------------------------------------------------------

    /** The actors that are parked and not finished, with what they wait for. */
    method CollectWaits() returns (waits: seq<Wait>)
      ensures waits == WaitsFrom(actors, 0)
    {
      waits := [];
      for i := 0 to |actors|
        invariant waits + WaitsFrom(actors, i) == WaitsFrom(actors, 0)
      {
        if !actors[i].finished && actors[i].parked {
          waits := waits + [Wait(actors[i].id, actors[i].pending.op, actors[i].pending.resource)];
        }
      }
    }

    /** Only the first failure is kept, with the graph of that moment; every failure cancels. */
    method MarkFailed(failure: Outcome)
      requires failure != Completed
      modifies `outcome, `graph, `cancelled
      ensures Snapshot() == Fail(old(Snapshot()), failure)
    {
      if outcome == Completed {
        ghost var g := GraphOf(Snapshot());
        outcome := failure;
        var owners := map r | r in resources :: resources[r].owner;
        var contents := map r | r in resources :: resources[r].queue;
        var waits := CollectWaits();
        assert owners == g.owners && contents == g.contents;
        graph := Some(Graph(owners, waits, contents));
      }
      cancelled := true;
    }

    method RecordRow(row: Row) returns (kept: bool)
      modifies `events, `outcome, `graph, `cancelled
      ensures Snapshot() == Record(old(Snapshot()), row)
      ensures kept <==> Fits(old(Snapshot()), old(events) == [], row.bytes)
    {
      if !Fits(Snapshot(), events == [], row.bytes) {
        MarkFailed(EvidenceExhausted);
        return false;
      }
      events := events + [row];
      return true;
    }

    /** Clears one mutex if `id` still holds it, which is misuse unless the run is cancelled. */
    method ReleaseOne(id: string, r: string)
      requires r in resources
      modifies `resources, `outcome, `graph, `cancelled
      ensures Snapshot().(resources := old(resources))
           == if old(resources)[r].owner == id && !old(cancelled) then Fail(old(Snapshot()), ResourceMisuse) else old(Snapshot())
      ensures resources == old(resources)[r := Released(old(resources)[r], id)]
    {
      hide GraphOf;
      if resources[r].owner == id {
        if !cancelled { MarkFailed(ResourceMisuse); }
        resources := resources[r := resources[r].(owner := "")];
      } else {
        assert resources[r := resources[r]] == resources;
      }
    }

    /** The loop over all resources at a worker's exit. */
    method ReleaseAll(id: string)
      modifies `resources, `outcome, `graph, `cancelled
      ensures resources == map r | r in old(resources) :: Released(old(resources)[r], id)
      ensures Snapshot().(resources := old(resources))
           == if Holds(old(Snapshot()), id) && !old(cancelled) then Fail(old(Snapshot()), ResourceMisuse) else old(Snapshot())
    {
      hide GraphOf, Cleared, Released;
      ghost var before := Snapshot();
      ghost var held := false;
      var todo := resources.Keys;
      NothingCleared(resources, id);
      while todo != {}
        invariant todo <= before.resources.Keys && resources == Cleared(before.resources, id, todo)
        invariant held ==> Holds(before, id) && cancelled
        invariant !held ==> resources == before.resources
        invariant !held ==> forall r :: r in before.resources && r !in todo ==> before.resources[r].owner != id
        invariant Snapshot().(resources := before.resources)
               == if held && !before.cancelled then Fail(before, ResourceMisuse) else before
        decreases |todo|
      {
        var r :| r in todo;
        ClearOne(before.resources, id, todo, r);
        if resources[r].owner == id { held := true; }
        ReleaseOne(id, r);
        todo := todo - {r};
      }
      AllCleared(before.resources, id);
    }

    // ----- worker sections --------------------------------------------------------------------------

    /** The first section of a request; `refused` means that it threw. */
    method BeginRequest(i: nat, op: Op, resource: string, value: int) returns (refused: bool)
      requires Valid() && CanTake(Snapshot(), DoRequest(i, op, resource, value))
      modifies this
      ensures Valid() && Snapshot() == Take(old(Snapshot()), DoRequest(i, op, resource, value))
      ensures labels == old(labels) + [DoRequest(i, op, resource, value)]
      ensures refused <==> old(cancelled) || Misused(old(Snapshot()), old(actors)[i].id, op, resource)
    {
      hide Initial, Runs, Fail;
      ghost var s := Snapshot();
      refused := cancelled;
      if !refused && op != Start && op != Checkpoint && op != Done {
        if resource !in resources {
          refused := true;
        } else {
          var r := resources[resource];
          var mutexOp := op == Lock || op == Unlock;
          refused := (mutexOp && r.kind != Mutex) || (!mutexOp && r.kind != Queue)
                     || (op == Lock && r.owner == actors[i].id) || (op == Unlock && r.owner != actors[i].id);
        }
        if refused { MarkFailed(ResourceMisuse); }
      }
      if !refused {
        actors := actors[i := actors[i].(pending := Pending(op, resource, value), parked := true, grant := false,
                                         version := actors[i].version + 1, where := InRequest)];
      }
      Took(s, DoRequest(i, op, resource, value));
    }

    /** The second section of a request, after its wait; no value when it threw. A granted
        operation is still enabled here. */
    method CompleteRequest(i: nat, bytes: nat) returns (delivered: Option<int>)
      requires Valid() && CanTake(Snapshot(), DoWake(i, bytes))
      modifies this
      ensures Valid() && Snapshot() == Take(old(Snapshot()), DoWake(i, bytes)) && labels == old(labels) + [DoWake(i, bytes)]
      ensures delivered == if old(cancelled) then None else Some(Delivered(old(Snapshot()), old(actors)[i].pending))
      ensures !old(cancelled) ==> Enabled(old(Snapshot()), i)
    {
      ghost var s := Snapshot();
      if !cancelled { AppliedIsEnabled(start, labels, s, i, bytes); }
      hide Initial, Runs, GraphOf, Fits, Record, Delivered;
      if cancelled {
        actors := actors[i := actors[i].(where := InUser)];
        delivered := None;
      } else {
        var value := Apply(i);
        var kept := RecordRow(Applied(actors[i].id, actors[i].pending.op, actors[i].pending.resource, value, bytes));
        delivered := Some(value);
      }
      Took(s, DoWake(i, bytes));
    }

    /** The effect of a granted operation. */
    method Apply(i: nat) returns (value: int)
      requires i < |actors| && Enabled(Snapshot(), i)
      modifies `actors, `resources
      ensures value == Delivered(old(Snapshot()), old(actors)[i].pending)
      ensures actors == old(actors)[i := old(actors)[i].(grant := false, parked := false, where := InUser)]
      ensures var a := old(actors)[i];
              resources == if a.pending.resource in old(resources)
                           then old(resources)[a.pending.resource := Effect(old(resources)[a.pending.resource], a.id, a.pending)]
                           else old(resources)
    {
      var a := actors[i];
      var p := a.pending;
      actors := actors[i := a.(grant := false, parked := false, where := InUser)];
      value := p.value;
      if p.op == Lock || p.op == Unlock || p.op == Send || p.op == Receive {
        var r := resources[p.resource];
        match p.op {
          case Lock => r := r.(owner := a.id);
          case Unlock => r := r.(owner := "");
          case Send => r := r.(queue := r.queue + [value], sent := r.sent + [value]);
          case Receive =>
            value := r.queue[0];
            r := r.(queue := r.queue[1..], received := r.received + [value]);
          case _ =>
        }
        resources := resources[p.resource := r];
      } else if p.resource in resources {
        assert resources[p.resource := resources[p.resource]] == resources;
      }
    }

    /** A guard that unwinds gives its mutex back, if it is still its own. */
    method ReleaseOnUnwind(i: nat, resource: string)
      requires Valid() && CanTake(Snapshot(), DoUnwind(i, resource))
      modifies this
      ensures Valid() && Snapshot() == Take(old(Snapshot()), DoUnwind(i, resource)) && labels == old(labels) + [DoUnwind(i, resource)]
    {
      hide Initial, Runs;
      ghost var s := Snapshot();
      if resource in resources {
        if resources[resource].owner == actors[i].id {
          resources := resources[resource := resources[resource].(owner := "")];
        } else {
          assert resources[resource := resources[resource]] == resources;
        }
      }
      Took(s, DoUnwind(i, resource));
    }

    /** A worker's function throws. */
    method CrashWorker(i: nat)
      requires Valid() && CanTake(Snapshot(), DoThrow(i))
      modifies this
      ensures Valid() && Snapshot() == Take(old(Snapshot()), DoThrow(i)) && labels == old(labels) + [DoThrow(i)]
    {
      hide Initial, Runs, Fail;
      ghost var s := Snapshot();
      if !cancelled { MarkFailed(ApplicationFailed); }
      Took(s, DoThrow(i));
    }

    /** A hook used from a thread that does not own it. */
    method ForeignCall()
      requires Valid()
      modifies this
      ensures Valid() && Snapshot() == Take(old(Snapshot()), DoForeignCall) && labels == old(labels) + [DoForeignCall]
    {
      hide Initial, Runs, Fail;
      ghost var s := Snapshot();
      MarkFailed(ResourceMisuse);
      Took(s, DoForeignCall);
    }

    /** A worker's last section: a held mutex is misuse, and every held mutex is released. */
    method FinishWorker(i: nat)
      requires Valid() && CanTake(Snapshot(), DoExit(i))
      modifies this
      ensures Valid() && Snapshot() == Take(old(Snapshot()), DoExit(i)) && labels == old(labels) + [DoExit(i)]
    {
      hide Initial, Runs, GraphOf, Holds, Released;
      ghost var s := Snapshot();
      ReleaseAll(actors[i].id);
      actors := actors[i := actors[i].(finished := true, parked := false, version := actors[i].version + 1, where := Exited)];
      Took(s, DoExit(i));
    }

    // ----- controller sections -----------------------------------------------------------------------

    /** The initial barrier is over, or its deadline has passed. */
    method PassBarrier(late: bool)
      requires Valid() && CanTake(Snapshot(), DoBarrierEnd(late))
      modifies this
      ensures Valid() && Snapshot() == Take(old(Snapshot()), DoBarrierEnd(late)) && labels == old(labels) + [DoBarrierEnd(late)]
    {
      hide Initial, Runs, Fail, AllParked;
      ghost var s := Snapshot();
      if !cancelled && (late || !AllParked(Snapshot())) { MarkFailed(TimedOut); }
      controller := Idle;
      Took(s, DoBarrierEnd(late));
    }

    /** The enabled query: the enabled actors in order, or a deadlock declared. */
    method QueryEnabled(late: bool) returns (ids: seq<string>)
      requires Valid() && CanTake(Snapshot(), DoQuery(late))
      modifies this
      ensures Valid() && Snapshot() == Take(old(Snapshot()), DoQuery(late)) && labels == old(labels) + [DoQuery(late)]
      ensures ids == if late || old(cancelled) || old(outcome) != Completed then [] else EnabledIds(old(Snapshot()), 0)
    {
      hide Initial, Runs, GraphOf, Enabled;
      ghost var s := Snapshot();
      ids := [];
      if late {
        MarkFailed(TimedOut);
      } else if !cancelled && outcome == Completed {
        ids := ListEnabled();
        EnabledIdsEmpty(Snapshot(), 0);
        if ids == [] && !AllFinished(Snapshot()) && AllParked(Snapshot()) { MarkFailed(ControlledDeadlock); }
      }
      Took(s, DoQuery(late));
    }

    method ListEnabled() returns (ids: seq<string>)
      ensures ids == EnabledIds(Snapshot(), 0)
    {
      hide Enabled, EnabledIds;
      ids := [];
      var i := 0;
      while i < |actors|
        invariant 0 <= i <= |actors|
        invariant ids + EnabledIds(Snapshot(), i) == EnabledIds(Snapshot(), 0)
      {
        EnabledUnfolds(Snapshot(), i);
        var here := if Enabled(Snapshot(), i) then [actors[i].id] else [];
        assert ids + (here + EnabledIds(Snapshot(), i + 1)) == ids + here + EnabledIds(Snapshot(), i + 1);
        ids := ids + here;
        i := i + 1;
      }
      EnabledUnfolds(Snapshot(), i);
    }

    /** Logs the grant and wakes the actor, unless the log is full. */
    method PermitActor(k: nat, bytes: nat)
      requires k < |actors|
      modifies `events, `outcome, `graph, `cancelled, `decisions, `actors, `controller
      ensures var s := old(Snapshot());
              var a := s.actors[k];
              Snapshot() == if !Fits(s, s.events == [], bytes) then Fail(s, EvidenceExhausted)
                            else s.(events := s.events + [Granted(a.id, a.pending.op, a.pending.resource, bytes)],
                                    decisions := s.decisions + 1, actors := s.actors[k := a.(grant := true)],
                                    controller := Waiting(k, a.version))
    {
      hide Fail, Fits;
      var a := actors[k];
      var kept := RecordRow(Granted(a.id, a.pending.op, a.pending.resource, bytes));
      if kept {
        decisions := decisions + 1;
        actors := actors[k := a.(grant := true)];
        controller := Waiting(k, a.version);
      }
    }

    /** The first section of an advance: grant, or refuse the choice. */
    method GrantActor(id: string, late: bool, bytes: nat)
      requires Valid() && controller == Idle
      modifies this
      ensures var l := DoAdvance(IndexOf(old(actors), id, 0), late, bytes);
              Valid() && Snapshot() == Take(old(Snapshot()), l) && labels == old(labels) + [l]
    {
      hide Initial, Runs, Fail, Enabled, Fits, IndexOf;
      ghost var s := Snapshot();
      ghost var l := DoAdvance(IndexOf(actors, id, 0), late, bytes);
      if late {
        MarkFailed(TimedOut);
      } else if !cancelled {
        var k := FindActor(actors, id);
        if k == |actors| || !Enabled(Snapshot(), k) {
          MarkFailed(DisabledChoice);
        } else if decisions >= maxDecisions {
          MarkFailed(DecisionExhausted);
        } else {
          PermitActor(k, bytes);
        }
      }
      Took(s, l);
    }

    /** The rest of an advance, after the controller's wait: a finished worker is joined, and the
        clock is read before and after that. */
    method EndWait(late: bool, lateJoin: bool)
      requires Valid() && CanTake(Snapshot(), DoAdvanceEnd(late, lateJoin))
      modifies this
      ensures Valid() && Snapshot() == Take(old(Snapshot()), DoAdvanceEnd(late, lateJoin))
      ensures labels == old(labels) + [DoAdvanceEnd(late, lateJoin)]
    {
      hide Initial, Runs, GraphOf, AllFinished;
      ghost var s := Snapshot();
      var everybody := AllFinished(Snapshot());
      var k, version := controller.actor, controller.version;
      if late || !(cancelled || actors[k].version != version) { MarkFailed(TimedOut); }
      controller := Idle;
      if !cancelled {
        finished := everybody;
        if actors[k].finished && lateJoin { MarkFailed(TimedOut); }
      }
      Took(s, DoAdvanceEnd(late, lateJoin));
    }

    /** The observer's answer is kept when it came in time, is sound and fits. */
    method RetainObservation(late: bool, answer: Answer, bytes: nat)
      requires Valid() && CanTake(Snapshot(), DoObserve(late, answer, bytes))
      modifies this
      ensures Valid() && Snapshot() == Take(old(Snapshot()), DoObserve(late, answer, bytes))
      ensures labels == old(labels) + [DoObserve(late, answer, bytes)]
    {
      hide Initial, Runs, Fail, Fits;
      ghost var s := Snapshot();
      if cancelled {
        if late { MarkFailed(TimedOut); }
      } else if answer == ObserverThrew {
        MarkFailed(ObservationFailed);
      } else if late {
        MarkFailed(TimedOut);
      } else if answer == NotInert || !Fits(Snapshot(), observations == [], bytes) {
        MarkFailed(EvidenceExhausted);
      } else {
        observations := observations + [bytes];
      }
      Took(s, DoObserve(late, answer, bytes));
    }

    /** Cleaning up an unfinished run cancels it; a failure is kept. */
    method CancelRun()
      requires Valid() && CanTake(Snapshot(), DoCancel)
      modifies this
      ensures Valid() && Snapshot() == Take(old(Snapshot()), DoCancel) && labels == old(labels) + [DoCancel]
    {
      hide Initial, Runs, Fail;
      ghost var s := Snapshot();
      if outcome == Completed && !finished { MarkFailed(Cancelled); }
      cancelled := true;
      Took(s, DoCancel);
    }
  }

  /** The index of the first actor of that name, or the number of actors. */
  method FindActor(actors: seq<Actor>, id: string) returns (k: nat)
    ensures k <= |actors| && IndexOf(actors, id, 0) == if k < |actors| then Some(k) else None
  {
    k := 0;
    while k < |actors| && actors[k].id != id
      invariant 0 <= k <= |actors| && IndexOf(actors, id, 0) == IndexOf(actors, id, k)
    {
      k := k + 1;
    }
  }
}
