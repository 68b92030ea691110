/** Every path of the explored tree is the decisions of a real run. */
module SyncReached {
  import opened Schedules
  import opened ControlledSync
  import opened SyncSafety
  import opened SyncTheorems
  import opened SyncMisuse
  import opened Coordinators
  import opened SyncDeterminism
  import opened ExploredRuns
  import opened SyncReplays
  import opened ChoiceTree

  // ----- smooth runs, one section at a time --------------------------------------------------------

  ghost predicate Reaches(b: Behaviour, g: Shape, s: State, t: State) {
    exists labels :: SmoothRuns(b, g, s, labels, t)
  }

  lemma {:induction false} SmoothAppend(b: Behaviour, g: Shape, s: State, labels: seq<Label>, t: State, l: Label)
    requires SmoothRuns(b, g, s, labels, t) && Smooth(b, g, t, l)
    ensures CanTake(t, l) && SmoothRuns(b, g, s, labels + [l], Take(t, l))
    decreases |labels|
  {
    Takeable(b, g, t, l);
    hide Smooth, Take, CanTake;
    if labels == [] {
      assert (labels + [l])[1..] == [];
    } else {
      Takeable(b, g, s, labels[0]);
      SmoothAppend(b, g, Take(s, labels[0]), labels[1..], t, l);
      assert (labels + [l])[1..] == labels[1..] + [l];
    }
  }

  lemma {:induction false} Takeable(b: Behaviour, g: Shape, s: State, l: Label)
    requires Smooth(b, g, s, l)
    ensures CanTake(s, l)
  {
    hide CanTake, Fits, Offers, Results;
  }

  /** A smooth section other than a query leads from a fair state to a fair state. */
  lemma {:induction false} GoOn(b: Behaviour, g: Shape, start: State, s: State, l: Label)
    requires Reaches(b, g, start, s) && Fair(b, g, s) && Smooth(b, g, s, l) && !l.DoQuery?
    ensures CanTake(s, l) && Reaches(b, g, start, Take(s, l)) && Fair(b, g, Take(s, l)) && !Take(s, l).cancelled
  {
    hide Smooth, Fair, Take, CanTake, SmoothRuns;
    var labels :| SmoothRuns(b, g, start, labels, s);
    SmoothAppend(b, g, start, labels, s, l);
    StepFair(b, g, s, l);
    FairIsNotCancelled(b, g, Take(s, l));
  }

  // ----- room for evidence -------------------------------------------------------------------------------

  /** `rows` more rows of `size` bytes fit. */
  ghost predicate Room(s: State, size: nat, rows: nat) {
    EvidenceBytes(s) + rows * (size + 1) <= s.maxEvidenceBytes
  }

  lemma {:induction false} RoomFits(s: State, size: nat, rows: nat)
    requires Room(s, size, rows) && rows > 0
    ensures Fits(s, s.events == [], size) && Fits(s, s.observations == [], size)
  {
    hide EvidenceBytes;
    assert rows * (size + 1) == (rows - 1) * (size + 1) + (size + 1);
  }

  lemma {:induction false} RoomAfter(s: State, t: State, size: nat, rows: nat, row: Row)
    requires Room(s, size, rows) && rows > 0 && t.maxEvidenceBytes == s.maxEvidenceBytes
    requires || (t.events == s.events + [row] && row.bytes == size && t.observations == s.observations)
             || (t.events == s.events && t.observations == s.observations + [size])
    ensures Room(t, size, rows - 1)
  {
    AppendBytes(RowSizes(s.events), size);
    AppendBytes(s.observations, size);
    if t.events != s.events { assert RowSizes(t.events) == RowSizes(s.events) + [size]; }
    assert EvidenceBytes(t) <= EvidenceBytes(s) + size + 1;
    hide EvidenceBytes;
    assert rows * (size + 1) == (rows - 1) * (size + 1) + (size + 1);
  }

  lemma {:induction false} SameRoom(s: State, t: State, size: nat, rows: nat)
    requires Room(s, size, rows) && t.maxEvidenceBytes == s.maxEvidenceBytes && t.events == s.events && t.observations == s.observations
    ensures Room(t, size, rows)
  {
    SameEvidence(s, t);
    hide EvidenceBytes;
  }

  // ----- the stages of one decision ---------------------------------------------------------------------------

  /** What stays with a run: how far it is, and how much room it has. */
  ghost predicate Has(start: State, s: State, path: seq<string>, size: nat, rows: nat) {
    && Decisions(s.events) == path && s.decisions == |path| && Room(s, size, rows)
    && s.maxDecisions == start.maxDecisions && s.maxEvidenceBytes == start.maxEvidenceBytes
  }

  ghost predicate Rests(b: Behaviour, g: Shape, start: State, s: State, path: seq<string>, size: nat, rows: nat) {
    Reaches(b, g, start, s) && Fair(b, g, s) && Has(start, s, path, size, rows) && s.controller == Idle
  }

  /** Actor `k` is between its grant and its next boundary. */
  ghost predicate Moves(b: Behaviour, g: Shape, start: State, s: State, path: seq<string>, size: nat, rows: nat, k: nat) {
    Reaches(b, g, start, s) && Fair(b, g, s) && Has(start, s, path, size, rows) && k < |s.actors| && s.controller.Waiting?
    && s.controller.actor == k
  }

  lemma {:induction false} ListedIndex(s: State, id: string, from: nat) returns (k: nat)
    requires from <= |s.actors| && id in EnabledIds(s, from)
    ensures k < |s.actors| && s.actors[k].id == id
    decreases |s.actors| - from
  {
    hide Enabled;
    if Enabled(s, from) && s.actors[from].id == id { k := from; } else { k := ListedIndex(s, id, from + 1); }
  }

  /** Whoever the program offers is an actor of the machine. */
  lemma {:induction false} OfferedIndex(b: Behaviour, g: Shape, s: State, id: string) returns (k: nat)
    requires Fair(b, g, s) && s.controller == Idle && Offers(b, g, Decisions(s.events), id)
    ensures k < |s.actors| && s.actors[k].id == id && IndexOf(s.actors, id, 0) == Some(k)
  {
    var h := After(b, g, Decisions(s.events));
    assert Shows(s, h);
    hide Inv, Stories, Disciplined, After, Decisions, Enabled, EnabledPlace, PlaceIs, StartsUp, IndexOf;
    EnabledNames(s, h, 0);
    var j := ListedIndex(s, id, 0);
    k := IndexOf(s.actors, id, 0).value;
  }

  lemma {:induction false} GrantStage(b: Behaviour, g: Shape, start: State, s: State, path: seq<string>, id: string, size: nat, rows: nat)
    returns (t: State, k: nat)
    requires Rests(b, g, start, s, path, size, rows) && rows > 0 && |path| < s.maxDecisions && Offers(b, g, path, id)
    ensures Moves(b, g, start, t, path + [id], size, rows - 1, k) && t.controller == Waiting(k, t.actors[k].version)
    ensures t.actors[k].where == InRequest && t.actors[k].grant && IndexOf(s.actors, id, 0) == Some(k)
    ensures var l := DoAdvance(Some(k), false, size); CanTake(s, l) && t == Take(s, l)
  {
    hide Fair, Reaches, Decisions, Room, Fits, Offers, Smooth, CanTake, Advance;
    k := OfferedIndex(b, g, s, id);
    var l := DoAdvance(Some(k), false, size);
    RoomFits(s, size, rows);
    GrantIsSmooth(b, g, s, k, size);
    GoOn(b, g, start, s, l);
    t := Take(s, l);
    GrantLeads(b, g, s, k, size);
    FairIsNotCancelled(b, g, s);
    Granting(s, k, size);
    RoomAfter(s, t, size, rows, Granted(s.actors[k].id, s.actors[k].pending.op, s.actors[k].pending.resource, size));
  }

  lemma {:induction false} GrantIsSmooth(b: Behaviour, g: Shape, s: State, k: nat, size: nat)
    requires k < |s.actors| && s.controller == Idle && s.decisions < s.maxDecisions && Fits(s, s.events == [], size)
    requires Offers(b, g, Decisions(s.events), s.actors[k].id)
    ensures Smooth(b, g, s, DoAdvance(Some(k), false, size))
  {
    hide Offers, Decisions, Fits;
  }

  lemma {:induction false} GrantLeads(b: Behaviour, g: Shape, s: State, k: nat, size: nat)
    requires Fair(b, g, s) && s.controller == Idle && k < |s.actors| && !Advance(s, Some(k), false, size).cancelled
    ensures var t := Advance(s, Some(k), false, size);
            && |t.actors| == |s.actors| && Decisions(t.events) == Decisions(s.events) + [s.actors[k].id]
            && t.controller == Waiting(k, t.actors[k].version) && t.actors[k].where == InRequest && t.actors[k].grant
  {
    var h := After(b, g, Decisions(s.events));
    assert Shows(s, h);
    hide Stories, Tracks, After, Decisions, Shows, Advance, StartsUp, Disciplined, Inv;
    GrantShows(s, h, k, false, size);
  }

  lemma {:induction false} Granting(s: State, k: nat, size: nat)
    requires k < |s.actors| && !s.cancelled && !Advance(s, Some(k), false, size).cancelled
    ensures var t := Advance(s, Some(k), false, size);
            && t.events == s.events + [Granted(s.actors[k].id, s.actors[k].pending.op, s.actors[k].pending.resource, size)]
            && t.observations == s.observations && t.decisions == s.decisions + 1
            && t.maxDecisions == s.maxDecisions && t.maxEvidenceBytes == s.maxEvidenceBytes
  {
    hide Fits, GraphOf, Enabled;
  }

  lemma {:induction false} WakeStage(b: Behaviour, g: Shape, start: State, s: State, path: seq<string>, size: nat, rows: nat, k: nat)
    returns (t: State)
    requires Moves(b, g, start, s, path, size, rows, k) && rows > 0 && s.controller == Waiting(k, s.actors[k].version)
    requires s.actors[k].where == InRequest && s.actors[k].grant
    ensures Moves(b, g, start, t, path, size, rows - 1, k) && t.controller == Waiting(k, t.actors[k].version)
    ensures t.actors[k].where == InUser && CanTake(s, DoWake(k, size)) && t == Take(s, DoWake(k, size))
  {
    var l := DoWake(k, size);
    RoomFits(s, size, rows);
    assert Smooth(b, g, s, l);
    GoOn(b, g, start, s, l);
    t := Take(s, l);
    FairIsNotCancelled(b, g, s);
    hide Smooth, Fair, Decisions, Room, Fits, Reaches;
    WakeDecidesNothing(s, k, size);
    WakeLogs(s, k, size);
    Waking(s, k, size);
    RoomAfter(s, t, size, rows, WokenRow(s, k, size));
  }

  lemma {:induction false} Waking(s: State, k: nat, size: nat)
    requires k < |s.actors| && !s.cancelled
    ensures var t := Wake(s, k, size);
            && |t.actors| == |s.actors| && t.actors[k].where == InUser && t.actors[k].version == s.actors[k].version
            && t.controller == s.controller && t.observations == s.observations && t.decisions == s.decisions
            && t.maxDecisions == s.maxDecisions && t.maxEvidenceBytes == s.maxEvidenceBytes
  {
    hide Fits, GraphOf, Effect, Delivered;
  }

  /** What the worker does next, as its code says. */
  function Next(b: Behaviour, s: State, k: nat): Label
    requires k < |s.actors|
  {
    match b(s.actors[k].id, Results(s.events, s.actors[k].id))
    case Ask(op, resource, value) => DoRequest(k, op, resource, value)
    case Stop => DoExit(k)
  }

  lemma {:induction false} BoundaryStage(b: Behaviour, g: Shape, start: State, s: State, path: seq<string>, size: nat, rows: nat, k: nat)
    returns (t: State)
    requires Moves(b, g, start, s, path, size, rows, k) && s.controller == Waiting(k, s.actors[k].version) && s.actors[k].where == InUser
    ensures Moves(b, g, start, t, path, size, rows, k) && t.actors[k].version != t.controller.version
    ensures CanTake(s, Next(b, s, k)) && t == Take(s, Next(b, s, k))
  {
    var l := Next(b, s, k);
    assert Smooth(b, g, s, l);
    GoOn(b, g, start, s, l);
    t := Take(s, l);
    FairIsNotCancelled(b, g, s);
    hide Smooth, Fair, Decisions, Room, Reaches, Next;
    Moving(s, k, l);
    SameRoom(s, t, size, rows);
  }

  lemma {:induction false} Moving(s: State, k: nat, l: Label)
    requires (l.DoRequest? || l.DoExit?) && l.i == k && CanTake(s, l) && !s.cancelled && !Take(s, l).cancelled
    ensures var t := Take(s, l);
            && |t.actors| == |s.actors| && t.actors[k].version == s.actors[k].version + 1
            && t.controller == s.controller && t.events == s.events && t.observations == s.observations && t.decisions == s.decisions
            && t.maxDecisions == s.maxDecisions && t.maxEvidenceBytes == s.maxEvidenceBytes
  {
    hide GraphOf, Misused, Holds, Released;
  }

  lemma {:induction false} RestStage(b: Behaviour, g: Shape, start: State, s: State, path: seq<string>, size: nat, rows: nat, k: nat)
    returns (t: State)
    requires Moves(b, g, start, s, path, size, rows, k) && s.actors[k].version != s.controller.version
    ensures Rests(b, g, start, t, path, size, rows) && CanTake(s, DoAdvanceEnd(false, false)) && t == Take(s, DoAdvanceEnd(false, false))
  {
    var l := DoAdvanceEnd(false, false);
    assert Smooth(b, g, s, l);
    GoOn(b, g, start, s, l);
    t := Take(s, l);
    hide Smooth, Fair, Decisions, Room, Reaches, GraphOf, AllFinished;
    SameRoom(s, t, size, rows);
  }

  lemma {:induction false} ObserveStage(b: Behaviour, g: Shape, start: State, s: State, path: seq<string>, size: nat, rows: nat)
    returns (t: State)
    requires Rests(b, g, start, s, path, size, rows) && rows > 0
    ensures Rests(b, g, start, t, path, size, rows - 1)
    ensures CanTake(s, DoObserve(false, Sound, size)) && t == Take(s, DoObserve(false, Sound, size))
  {
    var l := DoObserve(false, Sound, size);
    RoomFits(s, size, rows);
    assert Smooth(b, g, s, l);
    GoOn(b, g, start, s, l);
    t := Take(s, l);
    FairIsNotCancelled(b, g, s);
    hide Smooth, Fair, Decisions, Room, Reaches, GraphOf, Fits;
    RoomAfter(s, t, size, rows, Granted("", Start, "", size));
  }

  /** One decision more. */
  lemma {:induction false} TakesDecision(b: Behaviour, g: Shape, start: State, s: State, path: seq<string>, id: string, size: nat, rows: nat)
    returns (t: State)
    requires Rests(b, g, start, s, path, size, rows) && rows >= 3 && |path| < s.maxDecisions && Offers(b, g, path, id)
    ensures Rests(b, g, start, t, path + [id], size, rows - 3)
  {
    hide Rests, Offers, Reaches, Fair, Has;
    var granted, k := GrantStage(b, g, start, s, path, id, size, rows);
    var woken := WakeStage(b, g, start, granted, path + [id], size, rows - 1, k);
    t := ComesToRest(b, g, start, woken, path + [id], size, rows - 2, k);
  }

  lemma {:induction false} ComesToRest(b: Behaviour, g: Shape, start: State, s: State, path: seq<string>, size: nat, rows: nat, k: nat)
    returns (t: State)
    requires Moves(b, g, start, s, path, size, rows, k) && s.controller == Waiting(k, s.actors[k].version) && s.actors[k].where == InUser
    requires rows > 0
    ensures Rests(b, g, start, t, path, size, rows - 1)
  {
    hide Rests, Reaches, Fair, Has;
    var there := BoundaryStage(b, g, start, s, path, size, rows, k);
    var rested := RestStage(b, g, start, there, path, size, rows, k);
    t := ObserveStage(b, g, start, rested, path, size, rows);
  }

  // ----- the beginning --------------------------------------------------------------------------------------------

  /** The first `n` workers have asked to start. */
  ghost predicate Asked(start: State, s: State, n: nat) {
    && n <= |s.actors| == |start.actors| && s.controller == AtBarrier && s.events == [] && s.observations == [] && s.decisions == 0
    && s.maxDecisions == start.maxDecisions && s.maxEvidenceBytes == start.maxEvidenceBytes
    && (forall i :: 0 <= i < n ==> s.actors[i].parked)
    && (forall i :: n <= i < |s.actors| ==> s.actors[i].where == InUser)
  }

  lemma {:induction false} AsksNext(b: Behaviour, g: Shape, start: State, s: State, n: nat)
    requires Fair(b, g, s) && Asked(start, s, n) && n < |s.actors|
    ensures Smooth(b, g, s, DoRequest(n, Start, "", 0))
    ensures var t := Take(s, DoRequest(n, Start, "", 0)); Asked(start, t, n + 1)
  {
    assert Results(s.events, s.actors[n].id) == [];
    assert b(s.actors[n].id, []) == Ask(Start, "", 0);
    hide Inv, Tracks, Stories, Disciplined, StartsUp, GraphOf;
  }

  lemma {:induction false} AllAsk(b: Behaviour, g: Shape, start: State, s: State, n: nat) returns (t: State)
    requires Reaches(b, g, start, s) && Fair(b, g, s) && Asked(start, s, n)
    ensures Reaches(b, g, start, t) && Fair(b, g, t) && Asked(start, t, |start.actors|)
    decreases |start.actors| - n
  {
    if n == |start.actors| {
      t := s;
    } else {
      AsksNext(b, g, start, s, n);
      hide Reaches, Fair, Asked, Smooth;
      GoOn(b, g, start, s, DoRequest(n, Start, "", 0));
      t := AllAsk(b, g, start, Take(s, DoRequest(n, Start, "", 0)), n + 1);
    }
  }

  lemma {:induction false} PassesBarrier(b: Behaviour, g: Shape, start: State, s: State, size: nat, rows: nat) returns (t: State)
    requires Reaches(b, g, start, s) && Fair(b, g, s) && Asked(start, s, |start.actors|) && 4 + rows * (size + 1) <= start.maxEvidenceBytes
    ensures Rests(b, g, start, t, [], size, rows) && CanTake(s, DoBarrierEnd(false)) && t == Take(s, DoBarrierEnd(false))
  {
    var l := DoBarrierEnd(false);
    assert AllParked(s) && Smooth(b, g, s, l);
    GoOn(b, g, start, s, l);
    t := Take(s, l);
    hide Smooth, Fair, Reaches, GraphOf, AllParked;
    assert RowSizes(t.events) == [];
  }

  lemma {:induction false} ComesToTheRoot(b: Behaviour, g: Shape, s: State, size: nat, rows: nat) returns (t: State)
    requires StartsUp(b) && Initial(s) && Begins(s, g) && Disciplined(b, Kinds(s)) && 4 + (1 + rows) * (size + 1) <= s.maxEvidenceBytes
    ensures Rests(b, g, s, t, [], size, rows)
  {
    InitialFair(b, g, s);
    assert SmoothRuns(b, g, s, [], s);
    assert Asked(s, s, 0);
    hide Initial, Begins, Disciplined, StartsUp, Fair, Reaches, SmoothRuns, Rests, Asked;
    assert Reaches(b, g, s, s) by { Nowhere(b, g, s); }
    var asked := AllAsk(b, g, s, s, 0);
    var passed := PassesBarrier(b, g, s, asked, size, rows + 1);
    t := ObserveStage(b, g, s, passed, [], size, rows + 1);
  }

  lemma {:induction false} Nowhere(b: Behaviour, g: Shape, s: State)
    ensures Reaches(b, g, s, s)
  {
    assert SmoothRuns(b, g, s, [], s);
  }

  /** What coming to rest means. */
  lemma {:induction false} AtRestThere(b: Behaviour, g: Shape, start: State, s: State, path: seq<string>, size: nat, rows: nat)
    requires Rests(b, g, start, s, path, size, rows)
    ensures Reaches(b, g, start, s) && !s.cancelled && s.controller == Idle && Decisions(s.events) == path
    ensures s.maxDecisions == start.maxDecisions
  {
    hide Reaches, Room, Decisions, Inv, Tracks, Stories, Disciplined, StartsUp;
  }

  /** Every path of the tree is taken by a smooth run, as far as decisions and evidence allow. */
  lemma {:induction false} PathIsTaken(b: Behaviour, g: Shape, s: State, path: seq<string>, size: nat, rows: nat) returns (t: State)
    requires StartsUp(b) && Initial(s) && Begins(s, g) && Disciplined(b, Kinds(s)) && InTree(ProgramOf(b, g), path)
    requires |path| <= s.maxDecisions && 4 + (3 * |path| + 1 + rows) * (size + 1) <= s.maxEvidenceBytes
    ensures Rests(b, g, s, t, path, size, rows)
    decreases |path|
  {
    hide Initial, Begins, Disciplined, StartsUp, Rests, ProgramOf, Kinds, Offers;
    if path == [] {
      t := ComesToTheRoot(b, g, s, size, rows);
    } else {
      var before, id := path[..|path| - 1], path[|path| - 1];
      LastIsOffered(b, g, path);
      assert 3 * |before| + 1 + (rows + 3) == 3 * |path| + 1 + rows;
      var u := PathIsTaken(b, g, s, before, size, rows + 3);
      AtRestThere(b, g, s, u, before, size, rows + 3);
      t := TakesDecision(b, g, s, u, before, id, size, rows + 3);
      assert before + [id] == path;
    }
  }

  lemma {:induction false} LastIsOffered(b: Behaviour, g: Shape, path: seq<string>)
    requires path != [] && InTree(ProgramOf(b, g), path)
    ensures Offers(b, g, path[..|path| - 1], path[|path| - 1]) && InTree(ProgramOf(b, g), path[..|path| - 1])
  {
    hide ProgramOf;
  }

  /** The tree that the explorer explores is the tree of real runs: a path within the bounds is in it if
      and only if some smooth run of the scheduler comes to rest with exactly those decisions. */
  lemma {:induction false} TreeOfRuns(b: Behaviour, g: Shape, s: State, path: seq<string>, size: nat)
    requires StartsUp(b) && Initial(s) && Begins(s, g) && Disciplined(b, Kinds(s))
    requires |path| <= s.maxDecisions && 4 + (3 * |path| + 1) * (size + 1) <= s.maxEvidenceBytes
    ensures InTree(ProgramOf(b, g), path)
       <==> exists t :: Reaches(b, g, s, t) && !t.cancelled && t.controller == Idle && Decisions(t.events) == path
  {
    hide Initial, Begins, Disciplined, StartsUp, Rests, ProgramOf, Kinds, InTree, Decisions, SmoothRuns;
    if InTree(ProgramOf(b, g), path) {
      var t := PathIsTaken(b, g, s, path, size, 0);
      AtRestThere(b, g, s, t, path, size, 0);
    }
    forall t | Reaches(b, g, s, t) && Decisions(t.events) == path ensures InTree(ProgramOf(b, g), path) {
      var labels :| SmoothRuns(b, g, s, labels, t);
      SmoothBehaves(b, g, s, labels, t);
      EveryRunIsAPath(b, g, s, labels, t);
    }
  }

  /** So a node is shown by a run that really gets there: with its enabled actors, with everybody
      finished, or with the deadlock that the query then declares. */
  lemma {:induction false} EveryNodeIsShown(b: Behaviour, g: Shape, s: State, path: seq<string>, size: nat) returns (t: State)
    requires StartsUp(b) && Initial(s) && Begins(s, g) && Disciplined(b, Kinds(s)) && InTree(ProgramOf(b, g), path)
    requires |path| <= s.maxDecisions && 4 + (3 * |path| + 1) * (size + 1) <= s.maxEvidenceBytes
    ensures Reaches(b, g, s, t) && !t.cancelled && t.controller == Idle && Decisions(t.events) == path
    ensures var node := ProgramOf(b, g)(path);
            && (node == ChoiceTree.Finished <==> AllFinished(t))
            && (node.Open? ==> EnabledIds(t, 0) == node.enabled)
            && (node == ChoiceTree.Deadlocked <==> Query(t, false).outcome == ControlledDeadlock)
  {
    hide Initial, Begins, Disciplined, StartsUp, Rests, ProgramOf, Kinds, InTree, Decisions, SmoothRuns, Query, AllFinished, EnabledIds;
    t := PathIsTaken(b, g, s, path, size, 0);
    AtRestThere(b, g, s, t, path, size, 0);
    var labels :| SmoothRuns(b, g, s, labels, t);
    SmoothBehaves(b, g, s, labels, t);
    ReplayShowsItsNode(b, g, s, labels, t);
  }
}
