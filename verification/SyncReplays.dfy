/** That replays get where their decisions lead: disciplined workers, with nothing late and evidence
    that fits, are never cancelled before a deadlock, and every path of the tree that the explorer
    explores is really taken by such a run. */
module SyncReplays {
  import opened Schedules
  import opened ControlledSync
  import opened SyncSafety
  import opened SyncTheorems
  import opened SyncMisuse
  import opened Coordinators
  import opened SyncDeterminism
  import opened ExploredRuns
  import ChoiceTree

  // ----- discipline, by the workers' own code ---------------------------------------------------------

  /** Whether a worker holds a mutex, by the requests that led to its results so far. */
  ghost function HoldsBy(b: Behaviour, id: string, results: seq<int>, resource: string): bool {
    if results == [] then false
    else
      var before := results[..|results| - 1];
      match b(id, before)
      case Ask(op, r, _) =>
        if op == Lock && r == resource then true
        else if op == Unlock && r == resource then false
        else HoldsBy(b, id, before, resource)
      case Stop => HoldsBy(b, id, before, resource)
  }

  /** Results that the worker's requests can have: only a receive returns something of its own. */
  ghost predicate Plausible(b: Behaviour, id: string, results: seq<int>) {
    results == [] ||
    (var before := results[..|results| - 1];
     && Plausible(b, id, before) && b(id, before).Ask?
     && (b(id, before).op != Receive ==> results[|results| - 1] == b(id, before).value))
  }

  /** What a worker does next is in order: declared resources of the right kind, no mutex asked for that
      it holds, none given back that it does not hold, none held at the end. */
  ghost predicate InOrder(b: Behaviour, declared: map<string, Kind>, id: string, results: seq<int>) {
    match b(id, results)
    case Ask(op, resource, _) =>
      && (OnMutex(op) ==> resource in declared && declared[resource] == Mutex)
      && (OnQueue(op) ==> resource in declared && declared[resource] == Queue)
      && (op == Lock ==> !HoldsBy(b, id, results, resource))
      && (op == Unlock ==> HoldsBy(b, id, results, resource))
    case Stop => forall resource :: !HoldsBy(b, id, results, resource)
  }

  ghost predicate Disciplined(b: Behaviour, declared: map<string, Kind>) {
    forall id, results :: Plausible(b, id, results) ==> InOrder(b, declared, id, results)
  }

  lemma {:induction false} OneMoreResult(b: Behaviour, id: string, results: seq<int>, value: int)
    ensures Plausible(b, id, results + [value])
       <==> Plausible(b, id, results) && b(id, results).Ask? && (b(id, results).op != Receive ==> value == b(id, results).value)
    ensures forall r :: HoldsBy(b, id, results + [value], r)
              <==> match b(id, results)
                   case Ask(op, resource, _) =>
                     if op == Lock && resource == r then true else if op == Unlock && resource == r then false else HoldsBy(b, id, results, r)
                   case Stop => HoldsBy(b, id, results, r)
  {
    assert (results + [value])[..|results|] == results;
  }

  // ----- the machine knows as much ----------------------------------------------------------------------------

  /** What is true of one worker: its results are plausible, its pending request is what its code asks,
      and it owns what its code holds. */
  ghost predicate OwnStory(b: Behaviour, s: State, a: Actor) {
    var results := Results(s.events, a.id);
    && Plausible(b, a.id, results)
    && (a.where == InRequest ==> b(a.id, results) == Ask(a.pending.op, a.pending.resource, a.pending.value))
    && forall r :: HoldsBy(b, a.id, results, r) <==> Owns(s, Holding(a.id, r))
  }

  ghost predicate Stories(b: Behaviour, s: State) {
    !s.cancelled ==> forall i :: 0 <= i < |s.actors| ==> OwnStory(b, s, s.actors[i])
  }

  lemma {:induction false} InitialStories(b: Behaviour, s: State)
    requires Initial(s)
    ensures Stories(b, s)
  {
    forall i | 0 <= i < |s.actors| ensures OwnStory(b, s, s.actors[i]) {
      assert Results(s.events, s.actors[i].id) == [];
    }
  }

  /** A section that leaves the log and the owners alone leaves the stories of unmoved actors alone. */
  lemma {:induction false} SameStory(b: Behaviour, s: State, t: State, a: Actor)
    requires OwnStory(b, s, a) && t.events == s.events && t.resources == s.resources
    ensures OwnStory(b, t, a)
  {
    hide Results, HoldsBy, Plausible;
    forall r ensures Owns(t, Holding(a.id, r)) <==> Owns(s, Holding(a.id, r)) { }
  }

  lemma {:induction false} WokenResult(s: State, i: nat, bytes: nat)
    requires CanTake(s, DoWake(i, bytes)) && !s.cancelled && !Wake(s, i, bytes).cancelled
    ensures var p := s.actors[i].pending;
            && Results(Wake(s, i, bytes).events, s.actors[i].id) == Results(s.events, s.actors[i].id) + [Delivered(s, p)]
            && (p.op != Receive ==> Delivered(s, p) == p.value)
  {
    hide Wake, Results, Decisions;
    WakeLogs(s, i, bytes);
    OneMoreRow(s.events, WokenRow(s, i, bytes));
  }

  /** The worker whose request was served: one result more, and its mutexes follow. */
  lemma {:induction false} OwnWakeStory(b: Behaviour, s: State, i: nat, bytes: nat)
    requires Inv(s) && !s.cancelled && CanTake(s, DoWake(i, bytes)) && !Wake(s, i, bytes).cancelled && OwnStory(b, s, s.actors[i])
    ensures OwnStory(b, Wake(s, i, bytes), Wake(s, i, bytes).actors[i])
  {
    hide Inv, Wake, Results, HoldsBy, Plausible, Owns, Delivered;
    var t, a := Wake(s, i, bytes), s.actors[i];
    var results, value := Results(s.events, a.id), Delivered(s, a.pending);
    WokenResult(s, i, bytes);
    OneMoreResult(b, a.id, results, value);
    WakeActors(s, i, bytes, i);
    forall r ensures HoldsBy(b, a.id, results + [value], r) <==> Owns(t, Holding(a.id, r)) {
      WakeOwns(s, i, bytes, Holding(a.id, r));
      assert HoldsBy(b, a.id, results, r) <==> Owns(s, Holding(a.id, r));
    }
  }

  lemma {:induction false} OtherWakeStory(b: Behaviour, s: State, i: nat, bytes: nat, j: nat)
    requires Inv(s) && !s.cancelled && CanTake(s, DoWake(i, bytes)) && !Wake(s, i, bytes).cancelled && j < |s.actors| && j != i
    requires OwnStory(b, s, s.actors[j])
    ensures OwnStory(b, Wake(s, i, bytes), Wake(s, i, bytes).actors[j])
  {
    var t, c := Wake(s, i, bytes), s.actors[j];
    assert s.actors[i].id != c.id;
    WakeLogs(s, i, bytes);
    OneMoreRow(s.events, WokenRow(s, i, bytes));
    assert Results(t.events, c.id) == Results(s.events, c.id);
    WakeActors(s, i, bytes, j);
    hide Inv, Wake, Results, HoldsBy, Plausible, Owns;
    forall r ensures Owns(t, Holding(c.id, r)) <==> Owns(s, Holding(c.id, r)) { WakeOwns(s, i, bytes, Holding(c.id, r)); }
  }

  lemma {:induction false} WakeActors(s: State, i: nat, bytes: nat, j: nat)
    requires i < |s.actors| && j < |s.actors| && !s.cancelled
    ensures |Wake(s, i, bytes).actors| == |s.actors| && Wake(s, i, bytes).actors[j].id == s.actors[j].id
    ensures j != i ==> Wake(s, i, bytes).actors[j] == s.actors[j]
    ensures Wake(s, i, bytes).actors[i].where == InUser
  {
    hide Fits, GraphOf, Delivered, Effect;
  }

  /** The actor that moved has its own story; the others keep theirs. */
  lemma {:induction false} OthersKeepStories(b: Behaviour, s: State, t: State, i: nat)
    requires Stories(b, s) && !s.cancelled && i < |s.actors| && |t.actors| == |s.actors| && t.actors == s.actors[i := t.actors[i]]
    requires t.events == s.events && t.resources == s.resources && OwnStory(b, t, t.actors[i])
    ensures Stories(b, t)
  {
    hide OwnStory;
    forall j | 0 <= j < |t.actors| ensures OwnStory(b, t, t.actors[j]) {
      if j != i { SameStory(b, s, t, s.actors[j]); }
    }
  }

  lemma {:induction false} RequestStories(b: Behaviour, s: State, i: nat, op: Op, resource: string, value: int)
    requires Stories(b, s) && !s.cancelled && Obeys(b, s, DoRequest(i, op, resource, value)) && !Request(s, i, op, resource, value).cancelled
    ensures Stories(b, Request(s, i, op, resource, value))
  {
    var t := Request(s, i, op, resource, value);
    assert OwnStory(b, s, s.actors[i]);
    hide Misused, GraphOf, Results, HoldsBy, Plausible;
    SameStory(b, s, t, s.actors[i]);
    OthersKeepStories(b, s, t, i);
  }

  /** A worker that ends holding nothing changes no owner. */
  lemma {:induction false} ExitStories(b: Behaviour, s: State, i: nat)
    requires Inv(s) && Stories(b, s) && !s.cancelled && CanTake(s, DoExit(i)) && !Holds(s, s.actors[i].id)
    ensures !Exit(s, i).cancelled && Stories(b, Exit(s, i))
  {
    var t := Exit(s, i);
    assert s.actors[i].id != "";
    assert t.resources == s.resources;
    assert OwnStory(b, s, s.actors[i]);
    hide Inv, Results, HoldsBy, Plausible, Holds;
    SameStory(b, s, t, s.actors[i]);
    OthersKeepStories(b, s, t, i);
  }

  lemma {:induction false} AdvanceStories(b: Behaviour, s: State, k: nat, late: bool, bytes: nat)
    requires Stories(b, s) && !s.cancelled && k < |s.actors| && !Advance(s, Some(k), late, bytes).cancelled
    ensures Stories(b, Advance(s, Some(k), late, bytes))
  {
    hide Fits, GraphOf, Enabled, OwnStory, Results, Decisions;
    var a, t := s.actors[k], Advance(s, Some(k), late, bytes);
    var row := Granted(a.id, a.pending.op, a.pending.resource, bytes);
    OneMoreRow(s.events, row);
    assert t.events == s.events + [row] && t.resources == s.resources;
    forall j | 0 <= j < |t.actors| ensures OwnStory(b, t, t.actors[j]) {
      assert OwnStory(b, s, s.actors[j]);
      GrantedStory(b, s, t, s.actors[j], t.actors[j]);
    }
  }

  lemma {:induction false} GrantedStory(b: Behaviour, s: State, t: State, a: Actor, c: Actor)
    requires OwnStory(b, s, a) && c.id == a.id && c.where == a.where && c.pending == a.pending && t.resources == s.resources
    requires Results(t.events, a.id) == Results(s.events, a.id)
    ensures OwnStory(b, t, c)
  {
    hide Results, HoldsBy, Plausible;
    forall r ensures Owns(t, Holding(a.id, r)) <==> Owns(s, Holding(a.id, r)) { }
  }

  lemma {:induction false} QuietStories(b: Behaviour, s: State, t: State)
    requires Stories(b, s) && (s.cancelled ==> t.cancelled) && t.actors == s.actors && t.events == s.events && t.resources == s.resources
    ensures Stories(b, t)
  {
    hide OwnStory;
    if !t.cancelled {
      forall j | 0 <= j < |t.actors| ensures OwnStory(b, t, t.actors[j]) { SameStory(b, s, t, s.actors[j]); }
    }
  }

  // ----- smooth runs ---------------------------------------------------------------------------------------------

  /** A section with nothing in its way: nothing late, evidence that fits, sound observations, no
      cancellation, and only choices that the program offers. */
  ghost predicate Smooth(b: Behaviour, g: Shape, s: State, l: Label) {
    Obeys(b, s, l) &&
    match l
    case DoWake(_, bytes) => Fits(s, s.events == [], bytes)
    case DoBarrierEnd(late) => !late
    case DoQuery(late) => !late
    case DoAdvance(k, late, bytes) =>
      && !late && k.Some? && s.decisions < s.maxDecisions && Fits(s, s.events == [], bytes)
      && Offers(b, g, Decisions(s.events), s.actors[k.value].id)
    case DoAdvanceEnd(late, lateJoin) => !late && !lateJoin
    case DoObserve(late, answer, bytes) => !late && answer == Sound && Fits(s, s.observations == [], bytes)
    case DoCancel => false
    case _ => true
  }

  ghost predicate Offers(b: Behaviour, g: Shape, decisions: seq<string>, id: string) {
    var node := ProgramOf(b, g)(decisions);
    node.Open? && id in node.enabled
  }

  ghost predicate SmoothRuns(b: Behaviour, g: Shape, s: State, labels: seq<Label>, t: State)
    decreases |labels|
  {
    if labels == [] then s == t else Smooth(b, g, s, labels[0]) && SmoothRuns(b, g, Take(s, labels[0]), labels[1..], t)
  }

  lemma {:induction false} SmoothBehaves(b: Behaviour, g: Shape, s: State, labels: seq<Label>, t: State)
    requires SmoothRuns(b, g, s, labels, t)
    ensures Behaves(b, s, labels, t)
    decreases |labels|
  {
    hide CanTake, Take, Fits, Offers;
    if labels != [] { SmoothBehaves(b, g, Take(s, labels[0]), labels[1..], t); }
  }

  // ----- nothing cancels it ----------------------------------------------------------------------------------------

  lemma {:induction false} InOrderNow(b: Behaviour, s: State, i: nat)
    requires Disciplined(b, Kinds(s)) && Stories(b, s) && !s.cancelled && i < |s.actors|
    ensures InOrder(b, Kinds(s), s.actors[i].id, Results(s.events, s.actors[i].id))
  {
    assert OwnStory(b, s, s.actors[i]);
    hide Results, HoldsBy, Plausible, InOrder, Kinds;
  }

  /** A disciplined request is not misuse. */
  lemma {:induction false} RequestIsGranted(b: Behaviour, s: State, i: nat, op: Op, resource: string, value: int)
    requires Inv(s) && Disciplined(b, Kinds(s)) && Stories(b, s) && !s.cancelled && Obeys(b, s, DoRequest(i, op, resource, value))
    ensures !Misused(s, s.actors[i].id, op, resource)
  {
    InOrderNow(b, s, i);
    assert OwnStory(b, s, s.actors[i]) && s.actors[i].id != "";
    var results := Results(s.events, s.actors[i].id);
    hide Inv, Disciplined, Results, HoldsBy, Plausible;
    assert HoldsBy(b, s.actors[i].id, results, resource) <==> Owns(s, Holding(s.actors[i].id, resource));
  }

  lemma {:induction false} NothingHeld(b: Behaviour, s: State, i: nat)
    requires Inv(s) && Disciplined(b, Kinds(s)) && Stories(b, s) && !s.cancelled && Obeys(b, s, DoExit(i))
    ensures !Holds(s, s.actors[i].id)
  {
    InOrderNow(b, s, i);
    assert OwnStory(b, s, s.actors[i]) && s.actors[i].id != "";
    var results := Results(s.events, s.actors[i].id);
    hide Inv, Disciplined, Results, HoldsBy, Plausible;
    forall r ensures !Owns(s, Holding(s.actors[i].id, r)) {
      assert HoldsBy(b, s.actors[i].id, results, r) <==> Owns(s, Holding(s.actors[i].id, r));
    }
    assert forall r :: r in s.resources ==> s.resources[r].owner == s.actors[i].id ==> Owns(s, Holding(s.actors[i].id, r));
  }

  lemma {:induction false} WakeGoesOn(s: State, i: nat, bytes: nat)
    requires CanTake(s, DoWake(i, bytes)) && !s.cancelled && Fits(s, s.events == [], bytes)
    ensures !Wake(s, i, bytes).cancelled
  {
    hide GraphOf, Effect, Delivered, EvidenceBytes;
    forall t: State | t.events == s.events && t.observations == s.observations ensures EvidenceBytes(t) == EvidenceBytes(s) {
      SameEvidence(t, s);
    }
  }

  /** A choice that the program offers is one that the machine would grant. */
  lemma {:induction false} OfferedIsEnabled(b: Behaviour, g: Shape, s: State, k: nat)
    requires Inv(s) && Tracks(b, g, s) && !s.cancelled && s.controller == Idle && k < |s.actors|
    requires Offers(b, g, Decisions(s.events), s.actors[k].id)
    ensures Enabled(s, k)
  {
    var h := After(b, g, Decisions(s.events));
    IdentitiesOf(s);
    hide Inv, After, Decisions, Enabled, EnabledPlace, PlaceIs;
    EnabledNames(s, h, 0);
    ListedIsEnabled(s, k, 0);
  }

  lemma {:induction false} ListedIsEnabled(s: State, k: nat, from: nat)
    requires Identities(s) && k < |s.actors| && from <= |s.actors| && s.actors[k].id in EnabledIds(s, from)
    ensures Enabled(s, k)
    decreases |s.actors| - from
  {
    hide Enabled;
    if !(Enabled(s, from) && s.actors[from].id == s.actors[k].id) { ListedIsEnabled(s, k, from + 1); }
  }

  lemma {:induction false} AdvanceGoesOn(s: State, k: nat, bytes: nat)
    requires !s.cancelled && k < |s.actors| && Enabled(s, k) && s.decisions < s.maxDecisions && Fits(s, s.events == [], bytes)
    ensures !Advance(s, Some(k), false, bytes).cancelled
  {
    hide GraphOf, Fits, Enabled;
  }

  lemma {:induction false} ControllerGoesOn(s: State, l: Label)
    requires CanTake(s, l) && !s.cancelled
    requires match l
             case DoBarrierEnd(late) => !late
             case DoAdvanceEnd(late, lateJoin) => !late && !lateJoin
             case DoObserve(late, answer, bytes) => !late && answer == Sound && Fits(s, s.observations == [], bytes)
             case _ => false
    ensures !Take(s, l).cancelled
  {
    hide GraphOf, Fits, AllFinished;
  }

  /** A smooth section of disciplined workers does not cancel the run, unless it finds a deadlock. */
  lemma {:induction false} SmoothGoesOn(b: Behaviour, g: Shape, s: State, l: Label)
    requires Inv(s) && Tracks(b, g, s) && Stories(b, s) && Disciplined(b, Kinds(s)) && !s.cancelled && Smooth(b, g, s, l)
    ensures !Take(s, l).cancelled || (l.DoQuery? && Take(s, l).outcome == ControlledDeadlock)
  {
    NotYetFailed(s);
    hide Inv, Tracks, Stories, Disciplined, Offers, Fits, GraphOf, Wake, Advance, AdvanceEnd, BarrierEnd, Observe, Misused, Holds,
      AllParked, AllFinished, NoneEnabled;
    match l
    case DoRequest(i, op, resource, value) => RequestIsGranted(b, s, i, op, resource, value);
    case DoWake(i, bytes) => WakeGoesOn(s, i, bytes);
    case DoExit(i) => NothingHeld(b, s, i);
    case DoAdvance(k, _, bytes) =>
      OfferedIsEnabled(b, g, s, k.value);
      AdvanceGoesOn(s, k.value, bytes);
    case DoQuery(_) =>
    case _ => ControllerGoesOn(s, l);
  }

  // ----- and the stories go on ----------------------------------------------------------------------------------------

  lemma {:induction false} WakeStories(b: Behaviour, s: State, i: nat, bytes: nat)
    requires Inv(s) && Stories(b, s) && !s.cancelled && CanTake(s, DoWake(i, bytes)) && !Wake(s, i, bytes).cancelled
    ensures Stories(b, Wake(s, i, bytes))
  {
    hide Inv, OwnStory, Wake;
    WakeActors(s, i, bytes, i);
    forall j | 0 <= j < |s.actors| ensures OwnStory(b, Wake(s, i, bytes), Wake(s, i, bytes).actors[j]) {
      if j == i { OwnWakeStory(b, s, i, bytes); } else { OtherWakeStory(b, s, i, bytes, j); }
    }
  }

  /** The same actors, log and resources. */
  ghost predicate Looks(s: State, t: State) {
    t.actors == s.actors && t.events == s.events && t.resources == s.resources && (s.cancelled ==> t.cancelled)
  }

  lemma {:induction false} QuietWait(s: State, l: Label)
    requires CanTake(s, l) && (l.DoBarrierEnd? || l.DoAdvanceEnd?)
    ensures Looks(s, Take(s, l))
  {
    hide GraphOf, AllParked, AllFinished;
  }

  lemma {:induction false} QuietLooks(s: State, l: Label)
    requires CanTake(s, l) && (l.DoQuery? || l.DoObserve?)
    ensures Looks(s, Take(s, l))
  {
    hide Fits, GraphOf, AllParked, AllFinished, NoneEnabled;
  }

  lemma {:induction false} QuietlyStories(b: Behaviour, s: State, l: Label)
    requires Stories(b, s) && CanTake(s, l) && (l.DoBarrierEnd? || l.DoQuery? || l.DoAdvanceEnd? || l.DoObserve?)
    ensures Stories(b, Take(s, l))
  {
    hide Take, CanTake, Stories;
    if l.DoBarrierEnd? || l.DoAdvanceEnd? { QuietWait(s, l); } else { QuietLooks(s, l); }
    QuietStories(b, s, Take(s, l));
  }

  lemma {:induction false} StepStories(b: Behaviour, g: Shape, s: State, l: Label)
    requires Inv(s) && Tracks(b, g, s) && Stories(b, s) && Disciplined(b, Kinds(s)) && !s.cancelled && Smooth(b, g, s, l)
    ensures Stories(b, Take(s, l))
  {
    SmoothGoesOn(b, g, s, l);
    if !Take(s, l).cancelled {
      hide Inv, Tracks, Stories, Disciplined, Offers, Fits, GraphOf, Request, Wake, Exit, Advance, AdvanceEnd, BarrierEnd, Observe, Query, Misused, Holds;
      match l
      case DoRequest(i, op, resource, value) => RequestStories(b, s, i, op, resource, value);
      case DoWake(i, bytes) => WakeStories(b, s, i, bytes);
      case DoExit(i) =>
        NothingHeld(b, s, i);
        ExitStories(b, s, i);
      case DoAdvance(k, late, bytes) => AdvanceStories(b, s, k.value, late, bytes);
      case DoBarrierEnd(_) => QuietlyStories(b, s, l);
      case DoQuery(_) => QuietlyStories(b, s, l);
      case DoAdvanceEnd(_, _) => QuietlyStories(b, s, l);
      case DoObserve(_, _, _) => QuietlyStories(b, s, l);
    } else {
      hide OwnStory, Inv;
    }
  }

  /** Everything known of a smooth run that has not come to a deadlock. */
  ghost predicate Fair(b: Behaviour, g: Shape, s: State) {
    StartsUp(b) && Inv(s) && Tracks(b, g, s) && Stories(b, s) && Disciplined(b, Kinds(s)) && !s.cancelled
  }

  lemma {:induction false} StepFair(b: Behaviour, g: Shape, s: State, l: Label)
    requires Fair(b, g, s) && Smooth(b, g, s, l)
    ensures CanTake(s, l) && (Fair(b, g, Take(s, l)) || (l.DoQuery? && Take(s, l).outcome == ControlledDeadlock && Take(s, l).cancelled))
  {
    assert Obeys(b, s, l) && CanTake(s, l);
    hide Inv, Tracks, Stories, Disciplined, StartsUp, Smooth, Obeys, Take, CanTake;
    SmoothGoesOn(b, g, s, l);
    StepStories(b, g, s, l);
    StepInv(s, l);
    StepTracks(b, g, s, l);
    CancelledKinds(s, l);
    if Take(s, l).outcome == ControlledDeadlock { FailureCancels(Take(s, l)); }
  }

  /** A smooth run of disciplined workers is not cancelled before a deadlock. */
  lemma {:induction false} SmoothRunsGoOn(b: Behaviour, g: Shape, s: State, labels: seq<Label>, t: State)
    requires Fair(b, g, s) && SmoothRuns(b, g, s, labels, t)
    ensures if t.outcome == ControlledDeadlock then t.cancelled else Fair(b, g, t)
    decreases |labels|
  {
    hide Smooth, Take, CanTake;
    if labels != [] {
      StepFair(b, g, s, labels[0]);
      if Take(s, labels[0]).cancelled {
        SmoothBehaves(b, g, Take(s, labels[0]), labels[1..], t);
        BehavingRuns(b, Take(s, labels[0]), labels[1..], t);
        hide Fair;
        FailureStays(Take(s, labels[0]), labels[1..], t);
        StaysCancelled(Take(s, labels[0]), labels[1..], t);
      } else {
        SmoothRunsGoOn(b, g, Take(s, labels[0]), labels[1..], t);
      }
    } else {
      NotYetFailed(s);
    }
  }

  lemma {:induction false} StaysCancelled(s: State, labels: seq<Label>, t: State)
    requires s.cancelled && Runs(s, labels, t)
    ensures t.cancelled
    decreases |labels|
  {
    hide Take, CanTake;
    if labels != [] {
      StillCancelled(s, labels[0]);
      StaysCancelled(Take(s, labels[0]), labels[1..], t);
    }
  }

  lemma {:induction false} InitialFair(b: Behaviour, g: Shape, s: State)
    requires StartsUp(b) && Initial(s) && Begins(s, g) && Disciplined(b, Kinds(s))
    ensures Fair(b, g, s)
  {
    InitialInv(s);
    InitialStories(b, s);
    hide Inv, Stories, Disciplined, StartsUp;
  }

  /** With disciplined workers, nothing late and evidence that fits, the only way for a run to end
      early is a deadlock. */
  lemma {:induction false} OnlyADeadlockCancels(b: Behaviour, g: Shape, s: State, labels: seq<Label>, t: State)
    requires StartsUp(b) && Initial(s) && Begins(s, g) && Disciplined(b, Kinds(s)) && SmoothRuns(b, g, s, labels, t)
    ensures !t.cancelled || t.outcome == ControlledDeadlock
  {
    InitialFair(b, g, s);
    hide Initial, Fair, SmoothRuns, Disciplined;
    SmoothRunsGoOn(b, g, s, labels, t);
    FairIsNotCancelled(b, g, t);
  }

  lemma {:induction false} FairIsNotCancelled(b: Behaviour, g: Shape, s: State)
    ensures Fair(b, g, s) ==> !s.cancelled
  {
    hide Inv, Tracks, Stories, Disciplined;
  }
}
