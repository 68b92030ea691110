/** Why a replay shows what its decisions say: with workers whose next request depends only on the
    results of their earlier ones, everything an undisturbed run has come to is a function of the
    decisions taken. That function is the program that the explorer explores. */
module SyncDeterminism {
  import opened Schedules
  import opened ControlledSync
  import opened SyncSafety
  import opened SyncTheorems
  import opened Coordinators
  import ChoiceTree

  /** A worker's next request, or its end. */
  datatype Action = Ask(op: Op, resource: string, value: int) | Stop

  /** What each worker does, by its name and the results of its requests so far. */
  type Behaviour = (string, seq<int>) -> Action

  /** Every worker begins by asking to start. */
  ghost predicate StartsUp(b: Behaviour) {
    forall id :: b(id, []) == Ask(Start, "", 0)
  }

  // ----- what a log says ------------------------------------------------------------------------

  function Results(events: seq<Row>, id: string): seq<int> {
    if events == [] then []
    else
      var last := events[|events| - 1];
      Results(events[..|events| - 1], id) + if last.Applied? && last.actor == id then [last.value] else []
  }

  ghost function Decisions(events: seq<Row>): seq<string> {
    if events == [] then []
    else
      var last := events[|events| - 1];
      Decisions(events[..|events| - 1]) + if last.Granted? then [last.actor] else []
  }

  lemma {:induction false} OneMoreRow(events: seq<Row>, row: Row)
    ensures forall id :: Results(events + [row], id) == Results(events, id) + if row.Applied? && row.actor == id then [row.value] else []
    ensures Decisions(events + [row]) == Decisions(events) + if row.Granted? then [row.actor] else []
  {
    assert (events + [row])[..|events|] == events;
  }

  // ----- runs of such workers --------------------------------------------------------------------------

  /** A section that workers of this behaviour can take; they neither throw nor misuse a hook. */
  ghost predicate Obeys(b: Behaviour, s: State, l: Label) {
    CanTake(s, l) &&
    match l
    case DoRequest(i, op, resource, value) => b(s.actors[i].id, Results(s.events, s.actors[i].id)) == Ask(op, resource, value)
    case DoExit(i) => b(s.actors[i].id, Results(s.events, s.actors[i].id)) == Stop
    case DoUnwind(_, _) => false
    case DoThrow(_) => false
    case DoForeignCall => false
    case _ => true
  }

  ghost predicate Behaves(b: Behaviour, s: State, labels: seq<Label>, t: State)
    decreases |labels|
  {
    if labels == [] then s == t else Obeys(b, s, labels[0]) && Behaves(b, Take(s, labels[0]), labels[1..], t)
  }

  lemma {:induction false} BehavingRuns(b: Behaviour, s: State, labels: seq<Label>, t: State)
    requires Behaves(b, s, labels, t)
    ensures Runs(s, labels, t)
    decreases |labels|
  {
    hide CanTake, Take;
    if labels != [] { BehavingRuns(b, Take(s, labels[0]), labels[1..], t); }
  }

  // ----- the program ---------------------------------------------------------------------------------------

  datatype Place = Place(id: string, pending: Pending, finished: bool, results: seq<int>)

  /** Where everybody stands between decisions. */
  datatype Shape = Shape(places: seq<Place>, resources: map<string, Resource>)

  function Value(resources: map<string, Resource>, p: Pending): int {
    if p.op == Receive && p.resource in resources && resources[p.resource].queue != [] then resources[p.resource].queue[0] else p.value
  }

  function AfterEffect(resources: map<string, Resource>, id: string, p: Pending): map<string, Resource> {
    if p.resource in resources then resources[p.resource := Effect(resources[p.resource], id, p)] else resources
  }

  /** The operation of place `k` has been applied. */
  function Mid(g: Shape, k: nat): Shape
    requires k < |g.places|
  {
    var p := g.places[k];
    Shape(g.places[k := p.(results := p.results + [Value(g.resources, p.pending)])], AfterEffect(g.resources, p.id, p.pending))
  }

  /** Its worker has come to its next boundary. */
  function Moved(b: Behaviour, m: Shape, k: nat): Shape
    requires k < |m.places|
  {
    var p := m.places[k];
    match b(p.id, p.results)
    case Ask(op, resource, value) => Shape(m.places[k := p.(pending := Pending(op, resource, value))], m.resources)
    case Stop =>
      Shape(m.places[k := p.(finished := true)], map r | r in m.resources :: Released(m.resources[r], p.id))
  }

  function PlaceAt(places: seq<Place>, id: string, from: nat): (k: Option<nat>)
    requires from <= |places|
    ensures k.Some? ==> from <= k.value < |places| && places[k.value].id == id
    decreases |places| - from
  {
    if from == |places| then None else if places[from].id == id then Some(from) else PlaceAt(places, id, from + 1)
  }

  /** What a sequence of decisions leads to. */
  function After(b: Behaviour, g: Shape, decisions: seq<string>): Shape {
    if decisions == [] then g
    else
      var before := After(b, g, decisions[..|decisions| - 1]);
      match PlaceAt(before.places, decisions[|decisions| - 1], 0)
      case None => before
      case Some(k) => Moved(b, Mid(before, k), k)
  }

  ghost predicate Begins(s: State, g: Shape) {
    && |g.places| == |s.actors| && g.resources == s.resources
    && forall i :: 0 <= i < |s.actors| ==> g.places[i] == Place(s.actors[i].id, Pending(Start, "", 0), false, [])
  }

  // ----- machine and program in step --------------------------------------------------------------------------

  ghost predicate PlaceIs(events: seq<Row>, p: Place, a: Actor) {
    p.id == a.id && p.pending == a.pending && p.finished == a.finished && p.results == Results(events, a.id)
  }

  ghost predicate Shows(s: State, g: Shape) {
    && |g.places| == |s.actors| && g.resources == s.resources
    && forall i :: 0 <= i < |s.actors| ==> PlaceIs(s.events, g.places[i], s.actors[i])
  }

  /** Between a grant and the next boundary: not yet woken, running, or there. */
  ghost predicate Between(b: Behaviour, s: State, g: Shape, k: nat, version: nat) {
    && k < |s.actors| && k < |g.places|
    && (var a := s.actors[k];
        if a.where == InRequest && a.grant then Shows(s, g) && a.version == version
        else if a.where == InUser then Shows(s, Mid(g, k)) && a.version == version
        else Shows(s, Moved(b, Mid(g, k), k)))
  }

  ghost predicate Starting(s: State, g: Shape) {
    && s.events == [] && |g.places| == |s.actors| && g.resources == s.resources
    && forall i :: 0 <= i < |s.actors| ==>
         g.places[i] == Place(s.actors[i].id, Pending(Start, "", 0), false, [])
         && !s.actors[i].finished && (s.actors[i].where == InUser || s.actors[i].pending == Pending(Start, "", 0))
  }

  ghost predicate Tracks(b: Behaviour, g: Shape, s: State) {
    !s.cancelled ==>
      match s.controller
      case AtBarrier => Starting(s, g)
      case Idle => Shows(s, After(b, g, Decisions(s.events)))
      case Waiting(k, version) => Pursues(b, g, s, k, version)
  }

  ghost predicate Pursues(b: Behaviour, g: Shape, s: State, k: nat, version: nat) {
    var d := Decisions(s.events);
    && d != []
    && (var before := After(b, g, d[..|d| - 1]);
        PlaceAt(before.places, d[|d| - 1], 0) == Some(k) && Between(b, s, before, k, version))
  }

  // ----- section by section --------------------------------------------------------------------------------

  lemma {:induction false} CancelledStays(s: State, l: Label)
    requires CanTake(s, l) && s.cancelled
    ensures Take(s, l).cancelled
  {
    hide Fits, GraphOf, AllParked, AllFinished, NoneEnabled, Enabled, Misused, Holds, Effect, Delivered;
  }

  /** Only actor `i`, whose log grew by `row`, has moved. */
  lemma {:induction false} OneMoved(s: State, g: Shape, t: State, h: Shape, i: nat)
    requires Identities(s) && Shows(s, g) && i < |s.actors| && |t.actors| == |s.actors| && |h.places| == |g.places|
    requires t.actors == s.actors[i := t.actors[i]] && h.places == g.places[i := h.places[i]] && h.resources == t.resources
    requires forall j :: 0 <= j < |s.actors| && j != i ==> Results(t.events, s.actors[j].id) == Results(s.events, s.actors[j].id)
    requires PlaceIs(t.events, h.places[i], t.actors[i])
    ensures Shows(t, h)
  {
    hide Results;
    forall j | 0 <= j < |t.actors| ensures PlaceIs(t.events, h.places[j], t.actors[j]) {
      if j != i { assert PlaceIs(s.events, g.places[j], s.actors[j]); }
    }
  }

  lemma {:induction false} WakeMoves(s: State, g: Shape, i: nat, bytes: nat)
    requires Identities(s) && Shows(s, g) && i < |s.actors| && !Wake(s, i, bytes).cancelled
    ensures var t := Wake(s, i, bytes); Shows(t, Mid(g, i)) && Decisions(t.events) == Decisions(s.events)
  {
    hide Fits, GraphOf, Results, Decisions, Effect;
    var a, t := s.actors[i], Wake(s, i, bytes);
    var row := Applied(a.id, a.pending.op, a.pending.resource, Delivered(s, a.pending), bytes);
    OneMoreRow(s.events, row);
    assert t.events == s.events + [row];
    assert PlaceIs(s.events, g.places[i], a);
    OneMoved(s, g, t, Mid(g, i), i);
  }

  lemma {:induction false} WakeTracks(b: Behaviour, g: Shape, s: State, i: nat, bytes: nat)
    requires Inv(s) && Tracks(b, g, s) && !s.cancelled && CanTake(s, DoWake(i, bytes)) && !Wake(s, i, bytes).cancelled
    ensures Tracks(b, g, Wake(s, i, bytes))
  {
    GrantedIsEnabled(s, i);
    var d := Decisions(s.events);
    var before, t := After(b, g, d[..|d| - 1]), Wake(s, i, bytes);
    assert Between(b, s, before, i, s.actors[i].version);
    hide After, Decisions, Shows, Mid, Moved, Delivered, Effect, Fits, GraphOf;
    WakeMoves(s, before, i, bytes);
  }

  lemma {:induction false} RequestMoves(b: Behaviour, s: State, m: Shape, i: nat, op: Op, resource: string, value: int)
    requires Identities(s) && Shows(s, m) && i < |s.actors| && !s.cancelled && !Request(s, i, op, resource, value).cancelled
    requires b(s.actors[i].id, Results(s.events, s.actors[i].id)) == Ask(op, resource, value)
    ensures Shows(Request(s, i, op, resource, value), Moved(b, m, i))
  {
    hide GraphOf, Misused, Results;
    assert PlaceIs(s.events, m.places[i], s.actors[i]);
    OneMoved(s, m, Request(s, i, op, resource, value), Moved(b, m, i), i);
  }

  lemma {:induction false} FirstRequest(g: Shape, s: State, i: nat, op: Op, resource: string, value: int)
    requires Starting(s, g) && i < |s.actors| && !s.cancelled && !Request(s, i, op, resource, value).cancelled
    requires Ask(op, resource, value) == Ask(Start, "", 0)
    ensures Starting(Request(s, i, op, resource, value), g)
  {
    hide Misused, GraphOf;
  }

  lemma {:induction false} RequestTracks(b: Behaviour, g: Shape, s: State, i: nat, op: Op, resource: string, value: int)
    requires StartsUp(b) && Inv(s) && Tracks(b, g, s) && !s.cancelled && Obeys(b, s, DoRequest(i, op, resource, value))
    requires !Request(s, i, op, resource, value).cancelled
    ensures Tracks(b, g, Request(s, i, op, resource, value))
  {
    RunningActor(s, i);
    var t := Request(s, i, op, resource, value);
    if s.controller == AtBarrier {
      hide Inv;
      assert Results(s.events, s.actors[i].id) == [];
      FirstRequest(g, s, i, op, resource, value);
    } else {
      var d := Decisions(s.events);
      var before := After(b, g, d[..|d| - 1]);
      assert Between(b, s, before, i, s.actors[i].version);
      hide After, Decisions, Shows, Mid, Moved, Misused, GraphOf, Results;
      RequestMoves(b, s, Mid(before, i), i, op, resource, value);
    }
  }

  lemma {:induction false} ExitMoves(b: Behaviour, s: State, m: Shape, i: nat)
    requires Identities(s) && Shows(s, m) && i < |s.actors| && !s.cancelled && !Exit(s, i).cancelled
    requires b(s.actors[i].id, Results(s.events, s.actors[i].id)) == Stop
    ensures Shows(Exit(s, i), Moved(b, m, i))
  {
    hide GraphOf, Holds, Results, Released;
    assert PlaceIs(s.events, m.places[i], s.actors[i]);
    OneMoved(s, m, Exit(s, i), Moved(b, m, i), i);
  }

  lemma {:induction false} ExitTracks(b: Behaviour, g: Shape, s: State, i: nat)
    requires StartsUp(b) && Inv(s) && Tracks(b, g, s) && !s.cancelled && Obeys(b, s, DoExit(i)) && !Exit(s, i).cancelled
    ensures Tracks(b, g, Exit(s, i))
  {
    RunningActor(s, i);
    assert s.controller != AtBarrier;
    var d := Decisions(s.events);
    var before := After(b, g, d[..|d| - 1]);
    assert Between(b, s, before, i, s.actors[i].version);
    hide After, Decisions, Shows, Mid, Moved, Holds, GraphOf, Results, Released;
    ExitMoves(b, s, Mid(before, i), i);
  }

  lemma {:induction false} PlaceIsUnique(s: State, g: Shape, k: nat, from: nat)
    requires Identities(s) && Shows(s, g) && from <= k < |s.actors|
    ensures PlaceAt(g.places, s.actors[k].id, from) == Some(k)
    decreases k - from
  {
    hide Results;
    assert PlaceIs(s.events, g.places[from], s.actors[from]);
    if from < k { PlaceIsUnique(s, g, k, from + 1); }
  }

  lemma {:induction false} GrantShows(s: State, g: Shape, k: nat, late: bool, bytes: nat)
    requires Inv(s) && Shows(s, g) && !s.cancelled && CanTake(s, DoAdvance(Some(k), late, bytes)) && !Advance(s, Some(k), late, bytes).cancelled
    ensures var t := Advance(s, Some(k), late, bytes);
            && |t.actors| == |s.actors| && Shows(t, g) && Decisions(t.events) == Decisions(s.events) + [s.actors[k].id]
            && t.controller == Waiting(k, s.actors[k].version) && t.actors[k].where == InRequest && t.actors[k].grant
            && t.actors[k].version == s.actors[k].version
  {
    var a, t := s.actors[k], Advance(s, Some(k), late, bytes);
    assert Enabled(s, k) && a.where == InRequest;
    hide Fits, GraphOf, Results, Decisions, Enabled;
    var row := Granted(a.id, a.pending.op, a.pending.resource, bytes);
    OneMoreRow(s.events, row);
    assert t.events == s.events + [row];
    assert PlaceIs(s.events, g.places[k], a);
    OneMoved(s, g, t, g, k);
  }

  lemma {:induction false} AdvanceTracks(b: Behaviour, g: Shape, s: State, k: Option<nat>, late: bool, bytes: nat)
    requires s.controller == Idle && !s.cancelled && (k.Some? ==> k.value < |s.actors|) && !Advance(s, k, late, bytes).cancelled
    requires Inv(s) && Tracks(b, g, s)
    ensures Tracks(b, g, Advance(s, k, late, bytes))
  {
    hide After, Decisions, Shows, Mid, Moved, Advance, Inv;
    NeedsSomeone(s, k, late, bytes);
    var d := Decisions(s.events);
    var before := After(b, g, d);
    GrantShows(s, before, k.value, late, bytes);
    IdentitiesOf(s);
    PlaceIsUnique(s, before, k.value, 0);
    assert (d + [s.actors[k.value].id])[..|d|] == d;
  }

  lemma {:induction false} NeedsSomeone(s: State, k: Option<nat>, late: bool, bytes: nat)
    requires !s.cancelled && (k.Some? ==> k.value < |s.actors|) && !Advance(s, k, late, bytes).cancelled
    ensures k.Some?
  {
    hide GraphOf, Fits, Enabled;
  }

  lemma {:induction false} IdentitiesOf(s: State)
    requires Inv(s)
    ensures Identities(s)
  {
    hide Threads, Resources, Pendings, Discipline, Evidence, Verdict;
  }

  lemma {:induction false} AdvanceEndTracks(b: Behaviour, g: Shape, s: State, late: bool, lateJoin: bool)
    requires Inv(s) && Tracks(b, g, s) && !s.cancelled && CanTake(s, DoAdvanceEnd(late, lateJoin))
    requires !AdvanceEnd(s, late, lateJoin).cancelled
    ensures Tracks(b, g, AdvanceEnd(s, late, lateJoin))
  {
    var d, t, k := Decisions(s.events), AdvanceEnd(s, late, lateJoin), s.controller.actor;
    var before := After(b, g, d[..|d| - 1]);
    assert Between(b, s, before, k, s.controller.version) && s.actors[k].version != s.controller.version;
    assert After(b, g, d) == Moved(b, Mid(before, k), k);
    hide After, Decisions, Mid, Moved, Inv, Results;
    assert Shows(t, After(b, g, d));
  }

  lemma {:induction false} BarrierTracks(b: Behaviour, g: Shape, s: State, late: bool)
    requires Inv(s) && Tracks(b, g, s) && !s.cancelled && CanTake(s, DoBarrierEnd(late)) && !BarrierEnd(s, late).cancelled
    ensures Tracks(b, g, BarrierEnd(s, late))
  {
    hide GraphOf, EvidenceBytes;
    var t := BarrierEnd(s, late);
    forall i | 0 <= i < |t.actors| ensures PlaceIs(t.events, g.places[i], t.actors[i]) {
      assert s.actors[i].parked && s.actors[i].where == InRequest;
    }
    assert Shows(t, g);
  }

  /** Every section keeps machine and program in step. */
  lemma {:induction false} StepTracks(b: Behaviour, g: Shape, s: State, l: Label)
    requires StartsUp(b) && Inv(s) && Tracks(b, g, s) && Obeys(b, s, l)
    ensures Tracks(b, g, Take(s, l))
  {
    var t := Take(s, l);
    if s.cancelled {
      CancelledStays(s, l);
    } else if !t.cancelled {
      hide Inv, Tracks, Request, Wake, Exit, Advance, AdvanceEnd, BarrierEnd, Query, Observe, Cancel, Fail;
      match l
      case DoRequest(i, op, resource, value) => RequestTracks(b, g, s, i, op, resource, value);
      case DoWake(i, bytes) => WakeTracks(b, g, s, i, bytes);
      case DoExit(i) => ExitTracks(b, g, s, i);
      case DoBarrierEnd(late) => BarrierTracks(b, g, s, late);
      case DoAdvance(k, late, bytes) => AdvanceTracks(b, g, s, k, late, bytes);
      case DoAdvanceEnd(late, lateJoin) => AdvanceEndTracks(b, g, s, late, lateJoin);
      case DoQuery(late) => QuietTracks(b, g, s, l);
      case DoObserve(late, answer, bytes) => QuietTracks(b, g, s, l);
      case DoCancel => QuietTracks(b, g, s, l);
    }
  }

  lemma {:induction false} QuietTracks(b: Behaviour, g: Shape, s: State, l: Label)
    requires Tracks(b, g, s) && !s.cancelled && CanTake(s, l) && (l.DoQuery? || l.DoObserve? || l.DoCancel?) && !Take(s, l).cancelled
    ensures Tracks(b, g, Take(s, l))
  {
    hide GraphOf, Fits, NoneEnabled, AllFinished, AllParked, After, Decisions, Results, Mid, Moved;
  }

  lemma {:induction false} RunTracks(b: Behaviour, g: Shape, s: State, labels: seq<Label>, t: State)
    requires StartsUp(b) && Inv(s) && Tracks(b, g, s) && Behaves(b, s, labels, t)
    ensures Inv(t) && Tracks(b, g, t)
    decreases |labels|
  {
    hide Inv, Tracks, Take;
    if labels != [] {
      StepInv(s, labels[0]);
      StepTracks(b, g, s, labels[0]);
      RunTracks(b, g, Take(s, labels[0]), labels[1..], t);
    }
  }

  /** Whatever the interleaving, the clock and the sizes of the rows: an undisturbed run that stands
      between decisions is where its decisions lead. */
  lemma {:induction false} DecisionsDetermineTheState(b: Behaviour, g: Shape, s: State, labels: seq<Label>, t: State)
    requires StartsUp(b) && Initial(s) && Begins(s, g) && Behaves(b, s, labels, t)
    requires !t.cancelled && t.controller == Idle
    ensures Shows(t, After(b, g, Decisions(t.events)))
  {
    InitialInv(s);
    hide Inv, Behaves, After, Shows;
    RunTracks(b, g, s, labels, t);
  }

  // ----- the node of a replay ---------------------------------------------------------------------------------

  predicate EnabledPlace(g: Shape, k: nat)
    requires k < |g.places|
  {
    var p := g.places[k].pending;
    if g.places[k].finished then false
    else if p.op == Start || p.op == Checkpoint || p.op == Done then true
    else if p.resource !in g.resources then false
    else
      var r := g.resources[p.resource];
      match p.op
      case Lock => r.owner == ""
      case Unlock => r.owner == g.places[k].id
      case Send => |r.queue| < r.capacity
      case _ => p.op == Receive && r.queue != []
  }

  function EnabledFrom(g: Shape, from: nat): seq<string>
    requires from <= |g.places|
    decreases |g.places| - from
  {
    if from == |g.places| then []
    else (if EnabledPlace(g, from) then [g.places[from].id] else []) + EnabledFrom(g, from + 1)
  }

  function NodeOf(g: Shape): ChoiceTree.Node {
    if forall i :: 0 <= i < |g.places| ==> g.places[i].finished then ChoiceTree.Finished
    else if EnabledFrom(g, 0) == [] then ChoiceTree.Deadlocked
    else ChoiceTree.Open(EnabledFrom(g, 0))
  }

  /** The program that the explorer sees: what is shown after each sequence of decisions. */
  function ProgramOf(b: Behaviour, g: Shape): ChoiceTree.Program {
    (decisions: seq<string>) => NodeOf(After(b, g, decisions))
  }

  lemma {:induction false} EnabledPlaces(s: State, g: Shape, i: nat)
    requires Inv(s) && !s.cancelled && s.controller == Idle && Shows(s, g) && i < |s.actors|
    ensures Enabled(s, i) <==> EnabledPlace(g, i)
    ensures s.actors[i].finished == g.places[i].finished && s.actors[i].id == g.places[i].id
  {
    hide EvidenceBytes, GraphOf, Stuck, Conserved, OwnerAlive, PendingFits, Results;
    assert PlaceIs(s.events, g.places[i], s.actors[i]);
    assert AtRest(s.actors[i]);
  }

  lemma {:induction false} EnabledNames(s: State, g: Shape, from: nat)
    requires Inv(s) && !s.cancelled && s.controller == Idle && Shows(s, g) && from <= |s.actors|
    ensures EnabledIds(s, from) == EnabledFrom(g, from)
    decreases |s.actors| - from
  {
    hide Inv, Enabled, EnabledPlace, PlaceIs;
    if from < |s.actors| {
      EnabledPlaces(s, g, from);
      EnabledNames(s, g, from + 1);
    }
  }

  /** An undisturbed run that stands between decisions shows the node of those decisions: the enabled
      actors of an open node, everybody finished, or the deadlock that the query then declares. */
  lemma {:induction false} ReplayShowsItsNode(b: Behaviour, g: Shape, s: State, labels: seq<Label>, t: State)
    requires StartsUp(b) && Initial(s) && Begins(s, g) && Behaves(b, s, labels, t)
    requires !t.cancelled && t.controller == Idle
    ensures var node := ProgramOf(b, g)(Decisions(t.events));
            && (node == ChoiceTree.Finished <==> AllFinished(t))
            && (node.Open? ==> EnabledIds(t, 0) == node.enabled)
            && (node == ChoiceTree.Deadlocked <==> Query(t, false).outcome == ControlledDeadlock)
  {
    DecisionsDetermineTheState(b, g, s, labels, t);
    BehavingRuns(b, s, labels, t);
    Reachable(s, labels, t);
    DeadlockExactly(s, labels, t);
    var h := After(b, g, Decisions(t.events));
    hide Initial, Behaves, Runs, After, Decisions, Query, Inv, Enabled, EnabledPlace, PlaceIs;
    EnabledNames(t, h, 0);
    EnabledIdsEmpty(t, 0);
    forall i | 0 <= i < |t.actors| ensures t.actors[i].finished == h.places[i].finished { EnabledPlaces(t, h, i); }
  }

  // ----- no choice twice -------------------------------------------------------------------------------------------

  ghost predicate DistinctPlaces(places: seq<Place>) {
    forall i, j :: 0 <= i < j < |places| ==> places[i].id != places[j].id
  }

  lemma {:induction false} AfterKeepsNames(b: Behaviour, g: Shape, decisions: seq<string>)
    ensures var h := After(b, g, decisions); |h.places| == |g.places| && forall i :: 0 <= i < |g.places| ==> h.places[i].id == g.places[i].id
  {
    if decisions != [] { AfterKeepsNames(b, g, decisions[..|decisions| - 1]); }
  }

  lemma {:induction false} EnabledAreLater(g: Shape, from: nat)
    requires from <= |g.places| && DistinctPlaces(g.places)
    ensures forall x :: x in EnabledFrom(g, from) ==> exists k :: from <= k < |g.places| && g.places[k].id == x
    ensures forall i, j :: 0 <= i < j < |EnabledFrom(g, from)| ==> EnabledFrom(g, from)[i] != EnabledFrom(g, from)[j]
    decreases |g.places| - from
  {
    hide EnabledPlace;
    if from < |g.places| {
      EnabledAreLater(g, from + 1);
      var here, later := if EnabledPlace(g, from) then [g.places[from].id] else [], EnabledFrom(g, from + 1);
      assert EnabledFrom(g, from) == here + later;
      forall i, j | 0 <= i < j < |here + later| ensures (here + later)[i] != (here + later)[j] {
        if i < |here| { assert (here + later)[j] in later; }
      }
    }
  }

  /** The program of distinct workers never offers a choice twice, so the explorer's tree is theirs. */
  lemma {:induction false} ProgramHasDistinctChoices(b: Behaviour, g: Shape)
    requires DistinctPlaces(g.places)
    ensures ChoiceTree.DistinctChoices(ProgramOf(b, g))
  {
    forall path: seq<string>, i, j | ProgramOf(b, g)(path).Open? && 0 <= i < j < |ProgramOf(b, g)(path).enabled|
      ensures ProgramOf(b, g)(path).enabled[i] != ProgramOf(b, g)(path).enabled[j]
    {
      AfterKeepsNames(b, g, path);
      EnabledAreLater(After(b, g, path), 0);
    }
  }
}
