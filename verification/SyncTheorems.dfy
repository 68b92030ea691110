/** The promises of the controlled scheduler, over whole runs. */
module SyncTheorems {
  import opened Schedules
  import opened Counting
  import opened WaitGraph
  import opened ControlledSync
  import opened SyncSafety

  lemma {:induction false} Reachable(s: State, labels: seq<Label>, t: State)
    requires Initial(s) && Runs(s, labels, t)
    ensures Inv(t)
  {
    hide Inv, Runs;
    InitialInv(s);
    RunInv(s, labels, t);
  }

  // ----- queues and their log ------------------------------------------------------

  /** In every run, what was sent to a queue is what was received from it followed by what
      it holds, and it never holds more than its capacity. */
  lemma {:induction false} QueueConservation(s: State, labels: seq<Label>, t: State, r: string)
    requires Initial(s) && Runs(s, labels, t) && r in t.resources
    ensures t.resources[r].sent == t.resources[r].received + t.resources[r].queue
    ensures |t.resources[r].queue| <= t.resources[r].capacity
  {
    Reachable(s, labels, t);
    assert Conserved(t.resources[r]);
  }

  /** The values that the log records for one kind of operation on one resource. */
  ghost function LoggedValues(events: seq<Row>, op: Op, r: string): seq<int> {
    if events == [] then []
    else
      var last := events[|events| - 1];
      LoggedValues(events[..|events| - 1], op, r)
      + if last.Applied? && last.op == op && last.resource == r then [last.value] else []
  }

  ghost predicate LogTells(s: State, r: string)
    requires r in s.resources
  {
    && LoggedValues(s.events, Send, r) <= s.resources[r].sent
    && LoggedValues(s.events, Receive, r) <= s.resources[r].received
    && (!s.cancelled ==> LoggedValues(s.events, Send, r) == s.resources[r].sent
                         && LoggedValues(s.events, Receive, r) == s.resources[r].received)
  }

  lemma {:induction false} LogAppend(events: seq<Row>, row: Row, op: Op, r: string)
    ensures LoggedValues(events + [row], op, r)
         == LoggedValues(events, op, r) + if row.Applied? && row.op == op && row.resource == r then [row.value] else []
  {
    assert (events + [row])[..|events|] == events;
  }

  ghost predicate SameHistory(s: State, t: State, r: string)
    requires r in s.resources
  {
    && t.events == s.events && (s.cancelled ==> t.cancelled)
    && r in t.resources && t.resources[r].sent == s.resources[r].sent && t.resources[r].received == s.resources[r].received
  }

  lemma {:induction false} QuietWorker(s: State, l: Label, r: string)
    requires CanTake(s, l) && (l.DoRequest? || l.DoUnwind? || l.DoThrow? || l.DoExit?) && r in s.resources
    ensures SameHistory(s, Take(s, l), r)
  {
    hide Fits, GraphOf, AllParked, AllFinished, NoneEnabled, Enabled, Misused, Holds;
  }

  lemma {:induction false} QuietLook(s: State, l: Label, r: string)
    requires CanTake(s, l) && (l.DoQuery? || l.DoObserve? || l.DoCancel?) && r in s.resources
    ensures SameHistory(s, Take(s, l), r)
  {
    hide Fits, GraphOf, AllParked, AllFinished, NoneEnabled;
  }

  /** Every section but a wake-up and a grant leaves the log and the histories alone. */
  lemma {:induction false} QuietStep(s: State, l: Label, r: string)
    requires CanTake(s, l) && !l.DoWake? && !l.DoAdvance? && r in s.resources
    ensures SameHistory(s, Take(s, l), r)
  {
    if l.DoRequest? || l.DoUnwind? || l.DoThrow? || l.DoExit? {
      hide Take, CanTake, SameHistory;
      QuietWorker(s, l, r);
    } else if l.DoQuery? || l.DoObserve? || l.DoCancel? {
      hide Take, CanTake, SameHistory;
      QuietLook(s, l, r);
    } else {
      hide GraphOf, AllParked, AllFinished, Query, Observe, Cancel;
    }
  }

  ghost function WokenRow(s: State, i: nat, bytes: nat): Row
    requires i < |s.actors|
  {
    var a := s.actors[i];
    Applied(a.id, a.pending.op, a.pending.resource, Delivered(s, a.pending), bytes)
  }

  /** A granted wake-up extends the histories by what its row says; the row is logged, or the
      run is cancelled. */
  lemma {:induction false} WakeHistory(s: State, i: nat, bytes: nat, r: string)
    requires CanTake(s, DoWake(i, bytes)) && !s.cancelled && Enabled(s, i) && r in s.resources
    ensures var t, row := Wake(s, i, bytes), WokenRow(s, i, bytes);
            && r in t.resources && row.Applied?
            && (t.events == s.events + [row] || (t.events == s.events && t.cancelled))
            && t.resources[r].sent == s.resources[r].sent + (if row.op == Send && row.resource == r then [row.value] else [])
            && t.resources[r].received == s.resources[r].received + (if row.op == Receive && row.resource == r then [row.value] else [])
  {
    hide Fits, GraphOf;
  }

  lemma {:induction false} LogWake(s: State, i: nat, bytes: nat, r: string)
    requires CanTake(s, DoWake(i, bytes)) && !s.cancelled && Enabled(s, i) && r in s.resources && LogTells(s, r)
    ensures r in Wake(s, i, bytes).resources && LogTells(Wake(s, i, bytes), r)
  {
    hide LoggedValues, Wake, WokenRow, Enabled;
    WakeHistory(s, i, bytes, r);
    LogAppend(s.events, WokenRow(s, i, bytes), Send, r);
    LogAppend(s.events, WokenRow(s, i, bytes), Receive, r);
  }

  lemma {:induction false} LogAdvance(s: State, k: Option<nat>, late: bool, bytes: nat, r: string)
    requires CanTake(s, DoAdvance(k, late, bytes)) && r in s.resources && LogTells(s, r)
    ensures r in Advance(s, k, late, bytes).resources && LogTells(Advance(s, k, late, bytes), r)
  {
    hide LoggedValues, Fits, GraphOf, Enabled;
    if k.Some? {
      var a := s.actors[k.value];
      var row := Granted(a.id, a.pending.op, a.pending.resource, bytes);
      LogAppend(s.events, row, Send, r);
      LogAppend(s.events, row, Receive, r);
    }
  }

  /** Only a granted wake-up touches the histories, and the same section logs it. */
  lemma {:induction false} LogStep(s: State, l: Label, r: string)
    requires Inv(s) && CanTake(s, l) && r in s.resources && LogTells(s, r)
    ensures r in Take(s, l).resources && LogTells(Take(s, l), r)
  {
    if l.DoWake? {
      hide Inv, LoggedValues, Record, Effect, Delivered;
      if !s.cancelled {
        GrantedIsEnabled(s, l.i);
        LogWake(s, l.i, l.bytes, r);
      }
    } else if l.DoAdvance? {
      hide Inv, Advance;
      LogAdvance(s, l.k, l.late, l.bytes, r);
    } else {
      hide Inv, Take, LoggedValues;
      QuietStep(s, l, r);
    }
  }

  lemma {:induction false} LogRun(s: State, labels: seq<Label>, t: State, r: string)
    requires Inv(s) && Runs(s, labels, t) && r in s.resources && LogTells(s, r)
    ensures r in t.resources && LogTells(t, r)
    decreases |labels|
  {
    hide Inv, Take, LogTells;
    if labels != [] {
      StepInv(s, labels[0]);
      LogStep(s, labels[0], r);
      LogRun(Take(s, labels[0]), labels[1..], t, r);
    }
  }

  /** The log never invents a value: its sends and receives are prefixes of the real
      histories, and all of them as long as the run is not cancelled. */
  lemma {:induction false} LogIsTruthful(s: State, labels: seq<Label>, t: State, r: string)
    requires Initial(s) && Runs(s, labels, t) && r in s.resources
    ensures r in t.resources && LogTells(t, r)
  {
    InitialInv(s);
    LogRun(s, labels, t, r);
  }

  // ----- one at a time ----------------------------------------------------------------

  predicate Runnable(a: Actor) {
    !a.finished && (!a.parked || a.grant)
  }

  /** Past the barrier and until cancellation, at most one actor is between boundaries. */
  lemma {:induction false} AtMostOneRuns(s: State, labels: seq<Label>, t: State, i: nat, j: nat)
    requires Initial(s) && Runs(s, labels, t) && !t.cancelled && t.controller != AtBarrier
    requires i < j < |t.actors|
    ensures !(Runnable(t.actors[i]) && Runnable(t.actors[j]))
  {
    Reachable(s, labels, t);
  }

  /** An operation that was granted is still enabled when its effect is applied. */
  lemma {:induction false} AppliedIsEnabled(s: State, labels: seq<Label>, t: State, i: nat, bytes: nat)
    requires Initial(s) && Runs(s, labels, t) && !t.cancelled && CanTake(t, DoWake(i, bytes))
    ensures Enabled(t, i) && t.controller == Waiting(i, t.actors[i].version)
  {
    Reachable(s, labels, t);
    GrantedIsEnabled(t, i);
  }

  /** How the ownership of `r` can change in one section of actor `i`: taken while free, by
      a granted lock, or given back by the very actor that owns it. */
  ghost predicate HandOver(s: State, l: Label, t: State, r: string, i: nat)
    requires r in s.resources && r in t.resources
  {
    && i < |s.actors|
    && ((l.DoWake? && l.i == i) || (l.DoUnwind? && l.i == i) || (l.DoExit? && l.i == i))
    && if s.resources[r].owner == ""
       then l.DoWake? && !s.cancelled && s.actors[i].pending.op == Lock && s.actors[i].pending.resource == r
            && t.resources[r].owner == s.actors[i].id
       else s.resources[r].owner == s.actors[i].id && t.resources[r].owner == ""
  }

  lemma {:induction false} WakeHandsOver(s: State, i: nat, bytes: nat, r: string)
    requires Inv(s) && CanTake(s, DoWake(i, bytes)) && r in s.resources && r in Wake(s, i, bytes).resources
    requires Wake(s, i, bytes).resources[r].owner != s.resources[r].owner
    ensures HandOver(s, DoWake(i, bytes), Wake(s, i, bytes), r, i)
  {
    hide Fits, GraphOf, EvidenceBytes, Stuck, Discipline, Resources;
    if !s.cancelled {
      assert Enabled(s, i) by { GrantedIsEnabled(s, i); }
      assert PendingFits(s, s.actors[i]);
    }
  }

  lemma {:induction false} AdvanceResources(s: State, k: Option<nat>, late: bool, bytes: nat)
    requires CanTake(s, DoAdvance(k, late, bytes))
    ensures Advance(s, k, late, bytes).resources == s.resources
  {
    hide Fits, GraphOf, Enabled;
  }

  lemma {:induction false} RequestResources(s: State, i: nat, op: Op, resource: string, value: int)
    requires i < |s.actors|
    ensures Request(s, i, op, resource, value).resources == s.resources
  {
    hide GraphOf, Misused;
  }

  lemma {:induction false} OtherResources(s: State, l: Label)
    requires CanTake(s, l) && !l.DoWake? && !l.DoUnwind? && !l.DoExit?
    ensures Take(s, l).resources == s.resources
  {
    hide Fits, GraphOf, AllParked, AllFinished, NoneEnabled, Enabled, Request, Advance, Wake, Exit, UnwindRelease;
    if l.DoAdvance? {
      AdvanceResources(s, l.k, l.late, l.bytes);
    } else if l.DoRequest? {
      RequestResources(s, l.i, l.op, l.resource, l.value);
    }
  }

  lemma {:induction false} UnwindHandsOver(s: State, i: nat, resource: string, r: string)
    requires i < |s.actors| && r in s.resources
    ensures var t := UnwindRelease(s, i, resource);
            r in t.resources && (t.resources[r].owner != s.resources[r].owner ==>
              s.resources[r].owner == s.actors[i].id != "" && t.resources[r].owner == "")
  {
  }

  lemma {:induction false} ExitHandsOver(s: State, i: nat, r: string)
    requires i < |s.actors| && r in s.resources
    ensures var t := Exit(s, i);
            r in t.resources && (t.resources[r].owner != s.resources[r].owner ==>
              s.resources[r].owner == s.actors[i].id != "" && t.resources[r].owner == "")
  {
    hide Holds, Fail;
  }

  lemma {:induction false} OtherOwnerChanges(s: State, l: Label, r: string)
    requires CanTake(s, l) && !l.DoWake? && r in s.resources && r in Take(s, l).resources
    requires Take(s, l).resources[r].owner != s.resources[r].owner
    ensures (l.DoUnwind? || l.DoExit?) && HandOver(s, l, Take(s, l), r, l.i)
  {
    hide UnwindRelease, Exit, Request, Wake, Threw, Fail, BarrierEnd, Query, Advance, AdvanceEnd, Observe, Cancel;
    if l.DoUnwind? {
      UnwindHandsOver(s, l.i, l.resource, r);
    } else if l.DoExit? {
      ExitHandsOver(s, l.i, r);
    } else {
      hide Take;
      OtherResources(s, l);
    }
  }

  /** No second actor takes a mutex before its owner gives it back. */
  lemma {:induction false} MutualExclusion(s: State, labels: seq<Label>, t: State, l: Label, r: string)
    requires Initial(s) && Runs(s, labels, t) && CanTake(t, l)
    requires r in t.resources && r in Take(t, l).resources
    requires Take(t, l).resources[r].owner != t.resources[r].owner
    ensures exists i: nat :: HandOver(t, l, Take(t, l), r, i)
  {
    Reachable(s, labels, t);
    if l.DoWake? {
      hide Inv, HandOver, Wake;
      WakeHandsOver(t, l.i, l.bytes, r);
    } else {
      hide Inv, HandOver, Take;
      OtherOwnerChanges(t, l, r);
    }
  }

  // ----- the verdict --------------------------------------------------------------------

  /** After the first failure neither the outcome nor the retained graph changes, and
      nothing is granted any more. */
  lemma {:induction false} FailureIsSticky(s: State, l: Label)
    requires s.outcome != Completed && s.cancelled && CanTake(s, l)
    ensures Take(s, l).outcome == s.outcome && Take(s, l).graph == s.graph && Take(s, l).cancelled
    ensures Take(s, l).decisions == s.decisions
  {
    hide Fits, GraphOf, AllParked, AllFinished, NoneEnabled, Enabled;
  }

  lemma {:induction false} FailureStays(s: State, labels: seq<Label>, t: State)
    requires s.outcome != Completed && s.cancelled && Runs(s, labels, t)
    ensures t.outcome == s.outcome && t.graph == s.graph && t.decisions == s.decisions
    decreases |labels|
  {
    hide Take;
    if labels != [] {
      FailureIsSticky(s, labels[0]);
      FailureStays(Take(s, labels[0]), labels[1..], t);
    }
  }

  /** Waiters in a circle: each waits for the mutex that the next one owns. */
  ghost predicate WaitCycle(g: Graph, cycle: seq<nat>) {
    && |cycle| >= 2 && Distinct(cycle)
    && (forall k :: 0 <= k < |cycle| ==> cycle[k] < |g.waits| && g.waits[cycle[k]].resource in g.owners)
    && (forall k :: 0 <= k < |cycle| - 1 ==> g.owners[g.waits[cycle[k]].resource] == g.waits[cycle[k + 1]].actor)
    && g.owners[g.waits[cycle[|cycle| - 1]].resource] == g.waits[cycle[0]].actor
  }

  ghost function Owning(g: Graph, i: nat): (j: nat)
    requires i < |g.waits| && g.waits[i].resource in g.owners && Waits(g, g.owners[g.waits[i].resource])
    ensures j < |g.waits| && g.waits[j].actor == g.owners[g.waits[i].resource]
  {
    var j :| 0 <= j < |g.waits| && g.waits[j].actor == g.owners[g.waits[i].resource];
    j
  }

  /** `target` lists, wait by wait, a waiting owner of the awaited mutex. */
  ghost predicate OwnersOf(g: Graph, target: seq<nat>) {
    && |target| == |g.waits|
    && forall i :: 0 <= i < |g.waits| ==>
         g.waits[i].resource in g.owners && target[i] < |g.waits|
         && g.waits[target[i]].actor == g.owners[g.waits[i].resource]
  }

  lemma {:induction false} CycleOfWaits(g: Graph, target: seq<nat>, cycle: seq<nat>)
    requires OwnersOf(g, target) && Cycle(target, cycle)
    ensures WaitCycle(g, cycle)
  {
    hide Distinct;
  }

  lemma {:induction false} FindOwners(resources: map<string, Resource>, g: Graph) returns (target: seq<nat>)
    requires Stuck(resources, g) && forall i :: 0 <= i < |g.waits| ==> g.waits[i].op == Lock
    ensures OwnersOf(g, target) && WaitsForAnother(target) && target != []
  {
    forall i | 0 <= i < |g.waits|
      ensures g.waits[i].resource in g.owners && Waits(g, g.owners[g.waits[i].resource])
              && g.owners[g.waits[i].resource] != g.waits[i].actor
    {
      assert WaitStuck(resources, g, g.waits[i]);
    }
    hide Stuck, Waits;
    target := seq(|g.waits|, i requires 0 <= i < |g.waits| => Owning(g, i));
  }

  /** A stuck graph of lock waits contains a cycle of at least two actors. */
  lemma {:induction false} LockDeadlockHasCycle(resources: map<string, Resource>, g: Graph)
    requires Stuck(resources, g) && forall i :: 0 <= i < |g.waits| ==> g.waits[i].op == Lock
    ensures exists cycle :: WaitCycle(g, cycle)
  {
    hide WaitStuck, OwnersOf, WaitsForAnother, Cycle, WaitCycle;
    var target := FindOwners(resources, g);
    EveryWaiterWaitsMeansCycle(target);
    var cycle :| Cycle(target, cycle);
    CycleOfWaits(g, target, cycle);
  }

  /** A `controlled_deadlock` verdict, in any run, means a stuck graph: every waiting actor
      waits for a mutex of another waiting actor, a full queue or an empty queue. When all
      of them wait for mutexes, some of them wait in a circle. */
  lemma {:induction false} DeadlockVerdict(s: State, labels: seq<Label>, t: State)
    requires Initial(s) && Runs(s, labels, t) && t.outcome == ControlledDeadlock
    ensures t.graph.Some? && Stuck(t.resources, t.graph.value)
    ensures (forall i :: 0 <= i < |t.graph.value.waits| ==> t.graph.value.waits[i].op == Lock) ==>
              exists cycle :: WaitCycle(t.graph.value, cycle)
  {
    hide Stuck, WaitCycle;
    Reachable(s, labels, t);
    if forall i :: 0 <= i < |t.graph.value.waits| ==> t.graph.value.waits[i].op == Lock {
      LockDeadlockHasCycle(t.resources, t.graph.value);
    }
  }

  /** The verdict is given only when nothing can move: the query declares it exactly when some
      actor is unfinished, every unfinished actor is parked and none is enabled. */
  lemma {:induction false} DeadlockExactly(s: State, labels: seq<Label>, t: State)
    requires Initial(s) && Runs(s, labels, t) && t.controller == Idle && !t.cancelled
    ensures Query(t, false).outcome == ControlledDeadlock
       <==> !AllFinished(t) && forall i :: 0 <= i < |t.actors| ==> !Enabled(t, i)
  {
    Reachable(s, labels, t);
  }

  /** The graph kept with the verdict leaves nobody out: every unfinished actor is parked, is
      among the waits, and waits for something that no one can provide. */
  lemma {:induction false} DeadlockNamesEveryone(s: State, labels: seq<Label>, t: State, i: nat)
    requires Initial(s) && Runs(s, labels, t) && t.controller == Idle && !t.cancelled
    requires Query(t, false).outcome == ControlledDeadlock && i < |t.actors| && !t.actors[i].finished
    ensures Query(t, false).graph == Some(GraphOf(t)) && t.actors[i].parked
    ensures var w := Wait(t.actors[i].id, t.actors[i].pending.op, t.actors[i].pending.resource);
            w in GraphOf(t).waits && WaitStuck(t.resources, GraphOf(t), w)
  {
    Reachable(s, labels, t);
    VerdictIsQuiet(t);
    hide Inv, WaitStuck;
    NotEnabledIsStuck(t, i);
    var w := Wait(t.actors[i].id, t.actors[i].pending.op, t.actors[i].pending.resource);
    WaitsAre(t.actors, 0, w);
    assert WaitsWith(t.actors[i], w);
  }

  lemma {:induction false} VerdictIsQuiet(t: State)
    requires Inv(t) && !t.cancelled && Query(t, false).outcome == ControlledDeadlock
    ensures NoneEnabled(t) && AllParked(t) && Query(t, false).graph == Some(GraphOf(t))
  {
    hide EvidenceBytes, GraphOf, Stuck;
  }

  /** Serialized events and observations never exceed the evidence bound. */
  lemma {:induction false} EvidenceBounded(s: State, labels: seq<Label>, t: State)
    requires Initial(s) && Runs(s, labels, t)
    ensures EvidenceBytes(t) <= t.maxEvidenceBytes
  {
    Reachable(s, labels, t);
  }
}
