/** What a complete exploration says about the scheduler itself: with workers of a given behaviour,
    the decisions of every run of the machine are a node that was visited. */
module ExploredRuns {
  import opened Schedules
  import opened ControlledSync
  import opened SyncSafety
  import opened SyncTheorems
  import opened Coordinators
  import opened SyncDeterminism
  import opened ChoiceTree
  import Explorer

  // ----- how the decisions of a log grow ------------------------------------------------------------

  lemma {:induction false} RequestLogsNothing(s: State, i: nat, op: Op, resource: string, value: int)
    requires i < |s.actors|
    ensures Request(s, i, op, resource, value).events == s.events
  {
    hide GraphOf, Misused;
  }

  lemma {:induction false} ExitLogsNothing(s: State, i: nat)
    requires i < |s.actors|
    ensures Exit(s, i).events == s.events
  {
    hide GraphOf, Holds, Released;
  }

  lemma {:induction false} WorkersLogNothing(s: State, l: Label)
    requires CanTake(s, l) && (l.DoRequest? || l.DoUnwind? || l.DoThrow? || l.DoExit? || l.DoForeignCall?)
    ensures Take(s, l).events == s.events
  {
    hide GraphOf, Request, Exit, Released;
    match l
    case DoRequest(i, op, resource, value) => RequestLogsNothing(s, i, op, resource, value);
    case DoExit(i) => ExitLogsNothing(s, i);
    case _ =>
  }

  lemma {:induction false} ControllerLogsNothing(s: State, l: Label)
    requires CanTake(s, l) && (l.DoBarrierEnd? || l.DoQuery? || l.DoAdvanceEnd? || l.DoObserve? || l.DoCancel?)
    ensures Take(s, l).events == s.events
  {
    hide Fits, GraphOf, AllParked, AllFinished, NoneEnabled;
  }

  lemma {:induction false} OnlyTwoLog(s: State, l: Label)
    requires CanTake(s, l) && !l.DoWake? && !l.DoAdvance?
    ensures Take(s, l).events == s.events
  {
    hide Take, CanTake;
    if l.DoRequest? || l.DoUnwind? || l.DoThrow? || l.DoExit? || l.DoForeignCall? {
      WorkersLogNothing(s, l);
    } else {
      ControllerLogsNothing(s, l);
    }
  }

  lemma {:induction false} WakeDecidesNothing(s: State, i: nat, bytes: nat)
    requires i < |s.actors|
    ensures Decisions(Wake(s, i, bytes).events) == Decisions(s.events)
  {
    hide Fits, GraphOf, Decisions, Effect;
    var a := s.actors[i];
    OneMoreRow(s.events, Applied(a.id, a.pending.op, a.pending.resource, Delivered(s, a.pending), bytes));
  }

  /** A grant adds its actor, which was enabled; anything else that an advance does adds nothing. */
  lemma {:induction false} AdvanceDecides(s: State, k: Option<nat>, late: bool, bytes: nat)
    requires k.Some? ==> k.value < |s.actors|
    ensures var d := Decisions(Advance(s, k, late, bytes).events);
            d == Decisions(s.events) || (!s.cancelled && k.Some? && Enabled(s, k.value) && d == Decisions(s.events) + [s.actors[k.value].id])
  {
    hide Fits, GraphOf, Decisions, Enabled;
    if k.Some? {
      var a := s.actors[k.value];
      OneMoreRow(s.events, Granted(a.id, a.pending.op, a.pending.resource, bytes));
    }
  }

  lemma {:induction false} EnabledIsListed(s: State, k: nat, from: nat)
    requires from <= k < |s.actors| && Enabled(s, k)
    ensures s.actors[k].id in EnabledIds(s, from)
    decreases k - from
  {
    hide Enabled;
    if from < k { EnabledIsListed(s, k, from + 1); }
  }

  /** An actor that the machine would grant is a choice of the node it stands at. */
  lemma {:induction false} EnabledIsAChoice(b: Behaviour, g: Shape, s: State, k: nat)
    requires Inv(s) && !s.cancelled && s.controller == Idle && k < |s.actors| && Enabled(s, k)
    requires Shows(s, After(b, g, Decisions(s.events)))
    ensures var node := ProgramOf(b, g)(Decisions(s.events)); node.Open? && s.actors[k].id in node.enabled
  {
    var h := After(b, g, Decisions(s.events));
    EnabledPlaces(s, h, k);
    assert !h.places[k].finished;
    hide Inv, After, Decisions, Enabled, EnabledPlace, PlaceIs;
    EnabledIsListed(s, k, 0);
    EnabledNames(s, h, 0);
  }

  // ----- every run stays in the tree ----------------------------------------------------------------------

  lemma {:induction false} StepStaysInTree(b: Behaviour, g: Shape, s: State, l: Label)
    requires Inv(s) && Tracks(b, g, s) && CanTake(s, l) && InTree(ProgramOf(b, g), Decisions(s.events))
    ensures InTree(ProgramOf(b, g), Decisions(Take(s, l).events))
  {
    hide Inv, Decisions, InTree, ProgramOf, Shows, Enabled;
    if l.DoWake? {
      WakeDecidesNothing(s, l.i, l.bytes);
    } else if l.DoAdvance? {
      AdvanceDecides(s, l.k, l.late, l.bytes);
      if Decisions(Take(s, l).events) != Decisions(s.events) {
        EnabledIsAChoice(b, g, s, l.k.value);
        Child(ProgramOf(b, g), Decisions(s.events), s.actors[l.k.value].id);
      }
    } else {
      hide Take;
      OnlyTwoLog(s, l);
    }
  }

  lemma {:induction false} RunStaysInTree(b: Behaviour, g: Shape, s: State, labels: seq<Label>, t: State)
    requires StartsUp(b) && Inv(s) && Tracks(b, g, s) && Behaves(b, s, labels, t) && InTree(ProgramOf(b, g), Decisions(s.events))
    ensures InTree(ProgramOf(b, g), Decisions(t.events))
    decreases |labels|
  {
    hide Inv, Tracks, Take, InTree, ProgramOf, Decisions;
    if labels != [] {
      StepInv(s, labels[0]);
      StepTracks(b, g, s, labels[0]);
      StepStaysInTree(b, g, s, labels[0]);
      RunStaysInTree(b, g, Take(s, labels[0]), labels[1..], t);
    }
  }

  /** The decisions of any run, finished or cut off anywhere, are a path of the tree. */
  lemma {:induction false} EveryRunIsAPath(b: Behaviour, g: Shape, s: State, labels: seq<Label>, t: State)
    requires StartsUp(b) && Initial(s) && Begins(s, g) && Behaves(b, s, labels, t)
    ensures InTree(ProgramOf(b, g), Decisions(t.events))
  {
    InitialInv(s);
    assert Decisions(s.events) == [];
    assert Tracks(b, g, s);
    hide Inv, Tracks, Behaves, ProgramOf;
    RunStaysInTree(b, g, s, labels, t);
  }

  /** What a complete exploration of these workers has visited includes, exactly once, the decisions
      of every run that the scheduler can make with them. */
  lemma {:induction false} CompleteExplorationCoversEveryRun(b: Behaviour, g: Shape, depth: nat, visited: seq<seq<string>>,
                                                             s: State, labels: seq<Label>, t: State)
    requires StartsUp(b) && Initial(s) && Begins(s, g) && Behaves(b, s, labels, t)
    requires visited == Preorder(ProgramOf(b, g), depth, [])
    requires forall p :: p in visited && |p| == depth ==> !ProgramOf(b, g)(p).Open?
    ensures Decisions(t.events) in visited
    ensures forall i, j :: 0 <= i < j < |visited| ==> visited[i] != visited[j]
  {
    assert DistinctPlaces(g.places) by { BeginsDistinct(s, g); }
    hide Initial, Behaves, ProgramOf, InTree, Preorder, Decisions;
    ProgramHasDistinctChoices(b, g);
    EveryRunIsAPath(b, g, s, labels, t);
    Explorer.CompleteMeansEveryNode(ProgramOf(b, g), depth, visited);
  }

  lemma {:induction false} BeginsDistinct(s: State, g: Shape)
    requires Initial(s) && Begins(s, g)
    ensures DistinctPlaces(g.places)
  {
  }
}
