/** `explore_finite` as a whole: check the declaration, sort the actors, enumerate, run, and
    write the receipt. */
module FiniteExploration {
  import opened Schedules
  import opened Sorting
  import opened Merges
  import opened Admission
  import opened Requests
  import opened Coverages
  import opened Evidence
  import opened Campaigns
  import opened Counting
  import opened Values
  import opened ItfCodec
  import opened Canonical
  import opened CanonicalStates
  import opened Signals
  import opened Utf8
  import Enumerate

  datatype Space = Space(
    identity: Identity, actors: seq<ActorChain>, inputs: seq<Input>, maxPreemptions: nat, requireModelComparison: bool,
    stateVariables: seq<string>, instrumentationVariables: seq<string>)

  datatype Limits = Limits(maxEnumeratedSchedules: nat, maxRuns: nat, maxEvidenceBytes: nat)

  datatype Receipt = Receipt(
    complete: bool, enumerationExhausted: bool, denominatorKnown: bool, eligible: nat,
    attempted: nat, completed: nat, comparisonRuns: nat, rows: seq<Row>,
    states: seq<string>, transitions: map<Edge, nat>, categories: map<Category, nat>,
    firstCounterexample: Option<nat>, firstFailure: Option<nat>, stopReason: StopReason)

  /** The operation of each declared actor. */
  function ActorMap(actors: seq<ActorChain>): map<string, string> {
    if actors == [] then map[]
    else
      var last := actors[|actors| - 1];
      ActorMap(actors[..|actors| - 1])[last.actor := last.operation]
  }

  /** The steps of all chains, one chain after the other. */
  function AllSteps(actors: seq<ActorChain>): seq<Step> {
    if actors == [] then []
    else
      var last := actors[|actors| - 1];
      AllSteps(actors[..|actors| - 1]) + seq(|last.checkpoints|, i requires 0 <= i < |last.checkpoints| => Step(last.actor, last.checkpoints[i]))
  }

  predicate ValidDeclaration(space: Space, limits: Limits) {
    && 0 < |space.actors| <= 8 && 0 < |space.inputs| <= 64 && space.maxPreemptions <= 64
    && 0 < limits.maxEnumeratedSchedules <= 4096 && limits.maxRuns <= 65536
    && 0 < limits.maxEvidenceBytes <= 64 * 1048576
    && ValidChains(space.actors) && TotalSteps(space.actors) <= 64
    && (forall i :: 0 <= i < |space.inputs| ==>
          Encodes(PROFILE, space.identity, space.inputs[i], AllSteps(space.actors)) && |space.inputs[i].text| <= MAX_INPUT)
    && (forall i, j :: 0 <= i < j < |space.inputs| ==> space.inputs[i].text != space.inputs[j].text)
    && ValidVariables(space)
  }

  /** How the observations of a campaign over this space are read. */
  function LensOf(space: Space, lenient: string -> Result<int>): Lens {
    Lens(Elements(space.stateVariables), Elements(space.instrumentationVariables), lenient)
  }

  predicate ValidVariables(space: Space) {
    && 0 < |space.stateVariables| <= 1024 && |space.instrumentationVariables| <= 1024
    && (forall i :: 0 <= i < |space.stateVariables| ==> Identifier(space.stateVariables[i]))
    && (forall i, j :: 0 <= i < j < |space.stateVariables| ==> space.stateVariables[i] != space.stateVariables[j])
    && (forall i :: 0 <= i < |space.instrumentationVariables| ==>
          Identifier(space.instrumentationVariables[i]) && space.instrumentationVariables[i] !in space.stateVariables)
    && (forall i, j :: 0 <= i < j < |space.instrumentationVariables| ==>
          space.instrumentationVariables[i] != space.instrumentationVariables[j])
  }

  // ----- sorting the actors ---------------------------------------------------------------------

  ghost predicate Sorted(chains: seq<ActorChain>) {
    forall i, j :: 0 <= i < j < |chains| ==> StringLess(chains[i].actor, chains[j].actor)
  }

  ghost predicate SameChains(a: seq<ActorChain>, b: seq<ActorChain>) {
    forall c :: c in a <==> c in b
  }

  /** Puts one more chain in its place. */
  method Insert(sorted: seq<ActorChain>, chain: ActorChain) returns (r: seq<ActorChain>)
    requires Sorted(sorted) && forall k :: 0 <= k < |sorted| ==> sorted[k].actor != chain.actor
    ensures Sorted(r) && |r| == |sorted| + 1 && forall c :: c in r <==> c in sorted || c == chain
  {
    var k := 0;
    while k < |sorted| && StringLess(sorted[k].actor, chain.actor)
      invariant 0 <= k <= |sorted|
      invariant forall j :: 0 <= j < k ==> StringLess(sorted[j].actor, chain.actor)
    {
      k := k + 1;
    }
    if k < |sorted| { LessIsTotal(sorted[k].actor, chain.actor); }
    r := sorted[..k] + [chain] + sorted[k..];
    forall j | k < j < |r| ensures StringLess(chain.actor, r[j].actor) {
      if j > k + 1 { LessIsTransitive(chain.actor, sorted[k].actor, sorted[j - 1].actor); }
    }
    forall c | c in sorted ensures c in r {
      var j :| 0 <= j < |sorted| && sorted[j] == c;
      assert r[if j < k then j else j + 1] == c;
    }
    assert r[k] == chain;
  }

  /** The chains in ascending order of their actors. */
  method SortActors(actors: seq<ActorChain>) returns (sorted: seq<ActorChain>)
    requires DistinctActors(actors)
    ensures Sorted(sorted) && |sorted| == |actors| && SameChains(sorted, actors)
  {
    sorted := [];
    for i := 0 to |actors|
      invariant Sorted(sorted) && |sorted| == i && SameChains(sorted, actors[..i])
    {
      forall k | 0 <= k < |sorted| ensures sorted[k].actor != actors[i].actor {
        assert sorted[k] in actors[..i];
      }
      sorted := Insert(sorted, actors[i]);
      assert actors[..i + 1] == actors[..i] + [actors[i]];
    }
    assert actors[..|actors|] == actors;
  }

  lemma {:induction false} LessIsIrreflexive(s: string)
    ensures !StringLess(s, s)
  {
    if s != "" { LessIsIrreflexive(s[1..]); }
  }

  lemma {:induction false} SortedAreDistinct(chains: seq<ActorChain>)
    requires Sorted(chains)
    ensures DistinctActors(chains)
  {
    forall i, j | 0 <= i < j < |chains| ensures chains[i].actor != chains[j].actor {
      LessIsIrreflexive(chains[i].actor);
    }
  }

  /** Merges do not depend on the order in which the chains are listed. */
  lemma {:induction false} SameMerges(a: seq<ActorChain>, b: seq<ActorChain>, steps: seq<Step>)
    requires SameChains(a, b)
    ensures IsMerge(a, steps) <==> IsMerge(b, steps)
  {
    if IsMerge(a, steps) { MergeOfSame(a, b, steps); }
    if IsMerge(b, steps) { MergeOfSame(b, a, steps); }
  }

  lemma {:induction false} MergeOfSame(a: seq<ActorChain>, b: seq<ActorChain>, steps: seq<Step>)
    requires SameChains(a, b) && IsMerge(a, steps)
    ensures IsMerge(b, steps)
  {
    forall k | 0 <= k < |steps| ensures Declared(b, steps[k].actor) {
      var i :| 0 <= i < |a| && a[i].actor == steps[k].actor;
      assert a[i] in b;
    }
    forall i | 0 <= i < |b| ensures Projection(steps, b[i].actor) == b[i].checkpoints {
      assert b[i] in a;
    }
  }

  // ----- lengths ---------------------------------------------------------------------------------------

  lemma {:induction false} CompletionLength(chains: seq<ActorChain>, pos: seq<nat>, prior: Option<nat>, used: nat, bound: nat, s: seq<Step>)
    requires Within(chains, pos) && (prior.Some? ==> prior.value < |chains|) && s in Completions(chains, pos, prior, used, bound)
    ensures |s| == Remaining(chains, pos)
    decreases Remaining(chains, pos), 1
  {
    if Remaining(chains, pos) != 0 {
      assert s in Branches(chains, pos, prior, used, bound, 0);
      InBranches(chains, pos, prior, used, bound, 0, s);
      var j :| 0 <= j < |chains| && s in Branch(chains, pos, prior, used, bound, j);
      BranchLength(chains, pos, prior, used, bound, j, s);
    }
  }

  lemma {:induction false} BranchLength(chains: seq<ActorChain>, pos: seq<nat>, prior: Option<nat>, used: nat, bound: nat, j: nat, s: seq<Step>)
    requires Within(chains, pos) && (prior.Some? ==> prior.value < |chains|) && j < |chains|
    requires s in Branch(chains, pos, prior, used, bound, j)
    ensures |s| == Remaining(chains, pos)
    decreases Remaining(chains, pos), 0
  {
    hide Completions;
    assert Eligible(chains, pos, prior, used, bound, j);
    RemainingAfterAdvance(chains, pos, j, 0);
    var next, spent := Advance(chains, pos, j), used + Cost(chains, pos, prior, j);
    InExtend(StepAt(chains, pos, j), Completions(chains, next, Some(j), spent, bound), s);
    CompletionLength(chains, next, Some(j), spent, bound, s[1..]);
  }

  /** Every enumerated schedule runs every chain to its end. */
  lemma {:induction false} ScheduleLengths(chains: seq<ActorChain>, bound: nat, schedules: seq<seq<Step>>)
    requires schedules <= AllSchedules(chains, bound)
    ensures forall k :: 0 <= k < |schedules| ==> |schedules[k]| == Remaining(chains, Origin(chains))
  {
    hide Remaining, Completions;
    forall k | 0 <= k < |schedules| ensures |schedules[k]| == Remaining(chains, Origin(chains)) {
      assert schedules[k] == AllSchedules(chains, bound)[k];
      CompletionLength(chains, Origin(chains), None, 0, bound, schedules[k]);
    }
  }

  /** Every merge has as many steps as the chains together. */
  lemma {:induction false} MergeLength(actors: seq<ActorChain>, steps: seq<Step>)
    requires DistinctActors(actors) && IsMerge(actors, steps)
    ensures |steps| == TotalSteps(actors)
  {
    hide IsMerge, AllSchedules;
    var all := AllSchedules(actors, Preemptions(None, steps));
    AllSchedulesAreTheMerges(actors, Preemptions(None, steps), steps);
    var k :| 0 <= k < |all| && all[k] == steps;
    ScheduleLengths(actors, Preemptions(None, steps), all);
    AllRemains(actors);
  }

  // ----- the receipt ------------------------------------------------------------------------------------

  /** A merge of the declared chains within the bound, with one of the declared inputs. */
  ghost predicate EligibleRun(space: Space, c: Candidate) {
    c.input < |space.inputs| && IsMerge(space.actors, c.steps) && Preemptions(None, c.steps) <= space.maxPreemptions
  }

  ghost predicate Once(rows: seq<Row>) {
    forall j, k :: 0 <= j < k < |rows| ==> rows[j].candidate != rows[k].candidate
  }

  ghost predicate OnlyEligible(space: Space, rows: seq<Row>) {
    forall k :: 0 <= k < |rows| ==> EligibleRun(space, rows[k].candidate)
  }

  ghost predicate PassedIn(rows: seq<Row>, c: Candidate) {
    exists k :: 0 <= k < |rows| && rows[k].candidate == c && rows[k].category == Passed
  }

  /** All runs but the last ended with confirmed cleanup, under pairwise distinct execution ids. */
  ghost predicate AllButLastClean(rows: seq<Row>, runner: nat -> Reply) {
    && (forall k :: 0 <= k < |rows| - 1 ==> Clean(runner(k)))
    && (forall j, k :: 0 <= j < k < |rows| - 1 ==> runner(j).execution.id != runner(k).execution.id)
  }

  /** What every receipt of a valid declaration says truthfully. */
  ghost predicate Truthful(lens: Lens, r: Receipt, space: Space, limits: Limits, runner: nat -> Reply, sizes: nat -> nat) {
    && r.attempted == |r.rows| == TotalCount(r.categories) <= limits.maxRuns && r.attempted <= r.eligible
    && r.completed == NumberOf(r.rows, Passed) == CountAt(r.categories, Passed)
    && (forall c :: CountAt(r.categories, c) == NumberOf(r.rows, c))
    && First(r.rows, r.firstFailure, false) && First(r.rows, r.firstCounterexample, true)
    && Serialized(r.rows, runner) && Retained(r.rows) && RetainedBytes(r.rows, sizes) <= limits.maxEvidenceBytes
    && Once(r.rows) && OnlyEligible(space, r.rows) && AllButLastClean(r.rows, runner)
    && AllStand(lens, r.rows, runner, ActorMap(space.actors), space.requireModelComparison)
    && Genuine(lens, r.rows, runner, ActorMap(space.actors), space.requireModelComparison)
    && FirstMismatch(r.rows, runner, ActorMap(space.actors), r.firstCounterexample)
    && OmittedExactly(r.rows, sizes, limits.maxEvidenceBytes)
    && r.comparisonRuns == ComparedCount(r.rows, runner, ActorMap(space.actors))
    && TotalCount(r.transitions) >= r.completed * TotalSteps(space.actors)
  }

  /** Some eligible run is not among the rows. */
  ghost predicate MoreToRun(space: Space, rows: seq<Row>) {
    exists c :: EligibleRun(space, c) && forall k :: 0 <= k < |rows| ==> rows[k].candidate != c
  }

  /** What the stop reason of a receipt says: about the declared space, the polls, or the last row. */
  ghost predicate Ends(lens: Lens, r: Receipt, space: Space, limits: Limits, runner: nat -> Reply, interrupts: Interrupts, polls: Polls) {
    match r.stopReason
    case Complete => Undisturbed(interrupts, polls)
    case NonPassRuns =>
      Undisturbed(interrupts, polls) && AllRetained(r.rows) && r.enumerationExhausted && r.completed < r.attempted == r.eligible
    case EnumerationLimit =>
      && Undisturbed(interrupts, polls) && MoreToRun(space, r.rows)
      && r.attempted == r.eligible == limits.maxEnumeratedSchedules * |space.inputs|
    case RunLimit => |r.rows| == limits.maxRuns < r.eligible
    case _ =>
      && HaltedFor(r.stopReason, r.rows, runner, ActorMap(space.actors), limits.maxRuns, interrupts, polls)
      && CrowdedLast(lens, r.rows, runner, r.states, r.transitions)
  }

  /** What the receipt says about how many runs there are: the number is known if it is within the limit
      and nothing interfered, and it is then the number of eligible runs. */
  ghost predicate Denominators(r: Receipt, limits: Limits, inputs: nat, interrupts: Interrupts, total: nat) {
    && (r.denominatorKnown ==> r.eligible == total)
    && ((forall n :: !interrupts.stop(n) && !interrupts.late(n)) ==> (r.denominatorKnown <==> total <= limits.maxEnumeratedSchedules * inputs))
    && (r.enumerationExhausted <==> r.denominatorKnown && r.attempted == r.eligible)
  }

  /** A receipt cut short by a row that does not serialize: no runs are reported, the rows before it
      are there, and the category counts and the first entries already include the lost row. */
  ghost predicate CutShort(lens: Lens, r: Receipt, space: Space, runner: nat -> Reply, lost: Row) {
    && r.attempted == 0 && r.completed == 0 && !r.complete
    && AllStand(lens, r.rows + [lost], runner, ActorMap(space.actors), space.requireModelComparison)
    && FirstMismatch(r.rows + [lost], runner, ActorMap(space.actors), r.firstCounterexample)
    && !RowDumps(runner(|r.rows|), lost.category)
    && Counted(r.rows + [lost], r.categories)
    && First(r.rows + [lost], r.firstFailure, false) && First(r.rows + [lost], r.firstCounterexample, true)
  }

  /** What a complete campaign has established. */
  ghost predicate Exhaustive(lens: Lens, r: Receipt, space: Space, runner: nat -> Reply) {
    && r.attempted == r.completed == r.eligible && AllPassed(r.rows)
    && (forall c :: PassedIn(r.rows, c) <==> EligibleRun(space, c))
    && TotalCount(r.transitions) == r.completed * TotalSteps(space.actors)
    && Distinct(r.states) && Elements(r.states) == AllTexts(lens, runner, |r.rows|)
    && Tallied(r.states, r.transitions, AllMoves(lens, runner, |r.rows|))
    && (space.requireModelComparison ==> r.comparisonRuns == r.completed)
  }

  lemma {:induction false} InProduct(schedules: seq<seq<Step>>, inputs: nat, c: Candidate)
    ensures c in Product(schedules, inputs) <==> c.input < inputs && c.steps in schedules
  {
    if schedules != [] {
      var init, last := schedules[..|schedules| - 1], schedules[|schedules| - 1];
      InProduct(init, inputs, c);
      assert schedules == init + [last];
      if c.input < inputs && c.steps == last { assert WithInputs(last, inputs)[c.input] == c; }
    }
  }

  lemma {:induction false} ProductDistinct(schedules: seq<seq<Step>>, inputs: nat)
    requires forall a, b :: 0 <= a < b < |schedules| ==> schedules[a] != schedules[b]
    ensures forall j, k :: 0 <= j < k < |Product(schedules, inputs)| ==> Product(schedules, inputs)[j] != Product(schedules, inputs)[k]
  {
    if schedules != [] {
      var init, last := schedules[..|schedules| - 1], schedules[|schedules| - 1];
      ProductDistinct(init, inputs);
      var before, here := Product(init, inputs), WithInputs(last, inputs);
      forall j, k | 0 <= j < |before| && 0 <= k < |here| ensures before[j] != here[k] {
        assert before[j] in before;
        InProduct(init, inputs, before[j]);
      }
    }
  }

  /** Which candidates the enumeration and the inputs make up, whatever order the actors are in. */
  lemma {:induction false} EligibleCandidates(space: Space, sorted: seq<ActorChain>, c: Candidate)
    requires Sorted(sorted) && SameChains(sorted, space.actors)
    ensures c in Product(AllSchedules(sorted, space.maxPreemptions), |space.inputs|) <==> EligibleRun(space, c)
  {
    hide AllSchedules, IsMerge, Product;
    InProduct(AllSchedules(sorted, space.maxPreemptions), |space.inputs|, c);
    SortedAreDistinct(sorted);
    AllSchedulesAreTheMerges(sorted, space.maxPreemptions, c.steps);
    SameMerges(sorted, space.actors, c.steps);
  }

  /** No candidate of a valid declaration can fail to encode. */
  lemma {:induction false} EligibleRunsEncode(space: Space, limits: Limits, c: Candidate)
    requires ValidDeclaration(space, limits) && EligibleRun(space, c)
    ensures Encodes(PROFILE, space.identity, space.inputs[c.input], c.steps)
  {
    hide IsMerge, Plain, StepNames, Preemptions;
    assert Encodes(PROFILE, space.identity, space.inputs[c.input], AllSteps(space.actors));
    MergeLength(space.actors, c.steps);
    CandidatesEncode(space.actors, c.steps, space.identity, space.inputs[c.input]);
  }

  /** Rows that follow the candidate list run eligible candidates, none of them twice. */
  lemma {:induction false} RowsAreEligible(space: Space, sorted: seq<ActorChain>, schedules: seq<seq<Step>>, rows: seq<Row>)
    requires Sorted(sorted) && SameChains(sorted, space.actors)
    requires schedules <= AllSchedules(sorted, space.maxPreemptions)
    requires Candidates(rows) <= Product(schedules, |space.inputs|)
    ensures OnlyEligible(space, rows) && Once(rows)
  {
    hide AllSchedules, Product, EligibleRun;
    var all := AllSchedules(sorted, space.maxPreemptions);
    var product := Product(all, |space.inputs|);
    ProductPrefix(all, |space.inputs|, |schedules|);
    assert all[..|schedules|] == schedules;
    SortedAreDistinct(sorted);
    AllSchedulesAscend(sorted, space.maxPreemptions);
    ProductDistinct(all, |space.inputs|);
    assert forall k :: 0 <= k < |rows| ==> rows[k].candidate == Candidates(rows)[k] == product[k];
    forall k | 0 <= k < |rows| ensures EligibleRun(space, rows[k].candidate) {
      assert product[k] in product;
      EligibleCandidates(space, sorted, product[k]);
    }
  }

  /** Passing rows for the whole candidate list are passing rows for exactly the eligible runs. */
  lemma {:induction false} EveryEligibleRunPassed(space: Space, sorted: seq<ActorChain>, rows: seq<Row>)
    requires Sorted(sorted) && SameChains(sorted, space.actors) && AllPassed(rows)
    requires Candidates(rows) == Product(AllSchedules(sorted, space.maxPreemptions), |space.inputs|)
    ensures forall c :: PassedIn(rows, c) <==> EligibleRun(space, c)
  {
    hide AllSchedules, Product, EligibleRun;
    forall c ensures PassedIn(rows, c) <==> EligibleRun(space, c) {
      EligibleCandidates(space, sorted, c);
      if c in Candidates(rows) {
        var k :| 0 <= k < |rows| && Candidates(rows)[k] == c;
        assert rows[k].candidate == c;
      }
      if PassedIn(rows, c) {
        var k :| 0 <= k < |rows| && rows[k].candidate == c;
        assert Candidates(rows)[k] == c;
      }
    }
  }

  function Reason(r: Enumerate.StopReason): StopReason {
    match r
    case NotStopped => Unset
    case Cancelled => StopReason.Cancelled
    case TimeBudget => StopReason.TimeBudget
    case EnumerationLimit => StopReason.EnumerationLimit
  }

  lemma {:induction false} ButTheLast(rows: seq<Row>, runner: nat -> Reply, ids: set<string>, halt: bool, reason: StopReason)
    requires Accounted(rows, runner, ids, halt, reason)
    ensures AllButLastClean(rows, runner) && Retained(rows)
  {
    hide Clean;
  }

  lemma {:induction false} CountsOf(rows: seq<Row>, attempted: nat, completed: nat, categories: map<Category, nat>,
                                    firstFailure: Option<nat>, firstCounterexample: Option<nat>)
    requires CountsAgree(rows, attempted, completed, categories, firstFailure, firstCounterexample)
    ensures attempted == |rows| == TotalCount(categories)
    ensures completed == NumberOf(rows, Passed) == CountAt(categories, Passed) <= attempted
    ensures forall c :: CountAt(categories, c) == NumberOf(rows, c)
    ensures First(rows, firstFailure, false) && First(rows, firstCounterexample, true)
    ensures completed == attempted <==> AllPassed(rows)
  {
    AllOfThemPassed(rows);
  }

  /** A receipt written from counters that agree with the rows is truthful. */
  lemma {:induction false} TruthfulReceipt(lens: Lens, r: Receipt, space: Space, limits: Limits, runner: nat -> Reply, sizes: nat -> nat,
                                           sorted: seq<ActorChain>, schedules: seq<seq<Step>>, ids: set<string>, halt: bool,
                                           reason: StopReason, bytes: nat, moves: seq<Move>)
    requires Sorted(sorted) && SameChains(sorted, space.actors) && schedules <= AllSchedules(sorted, space.maxPreemptions)
    requires Candidates(r.rows) <= Product(schedules, |space.inputs|) && r.eligible == |schedules| * |space.inputs|
    requires CountsAgree(r.rows, r.attempted, r.completed, r.categories, r.firstFailure, r.firstCounterexample)
    requires RowsKept(r.rows, runner, sizes, limits.maxEvidenceBytes, bytes)
    requires bytes <= limits.maxEvidenceBytes && r.attempted <= limits.maxRuns
    requires Standing(lens, r.rows, runner, ActorMap(space.actors), space.requireModelComparison, TotalSteps(space.actors), moves, r.states, r.comparisonRuns)
    requires Accounted(r.rows, runner, ids, halt, reason) && TotalCount(r.transitions) == |moves|
    ensures Truthful(lens, r, space, limits, runner, sizes)
  {
    CountsOf(r.rows, r.attempted, r.completed, r.categories, r.firstFailure, r.firstCounterexample);
    RowsAreEligible(space, sorted, schedules, r.rows);
    ButTheLast(r.rows, runner, ids, halt, reason);
    hide CountsAgree, Accounted, NumberOf, TotalCount, RetainedBytes, Serialized, Genuine, First, OnlyEligible, Once, AllButLastClean, Product,
      AllSchedules, AllStand, FirstMismatch, OmittedExactly, ActorMap, ComparedCount;
    StandingPasses(lens, r.rows, runner, ActorMap(space.actors), space.requireModelComparison);
    CounterexampleIsMismatch(lens, r.rows, runner, ActorMap(space.actors), space.requireModelComparison, r.firstCounterexample);
  }

  /** With every candidate run and passed, the receipt is exhaustive. */
  lemma {:induction false} ExhaustiveReceipt(lens: Lens, r: Receipt, space: Space, runner: nat -> Reply, sorted: seq<ActorChain>, moves: seq<Move>)
    requires Sorted(sorted) && SameChains(sorted, space.actors)
    requires Candidates(r.rows) == Product(AllSchedules(sorted, space.maxPreemptions), |space.inputs|)
    requires r.attempted == r.completed == r.eligible
    requires CountsAgree(r.rows, r.attempted, r.completed, r.categories, r.firstFailure, r.firstCounterexample)
    requires Standing(lens, r.rows, runner, ActorMap(space.actors), space.requireModelComparison, TotalSteps(space.actors), moves, r.states, r.comparisonRuns)
    requires Distinct(r.states) && Tallied(r.states, r.transitions, moves) && TotalCount(r.transitions) == |moves|
    ensures Exhaustive(lens, r, space, runner)
  {
    CountsOf(r.rows, r.attempted, r.completed, r.categories, r.firstFailure, r.firstCounterexample);
    EveryEligibleRunPassed(space, sorted, r.rows);
    hide CountsAgree, NumberOf, TotalCount, RetainedBytes, AllStand, First, Distinct, Product, AllSchedules, EligibleRun, PassedIn, AllMoves, AllTexts,
      Tallied, ComparedCount, ActorMap, AllPassed;
    if space.requireModelComparison { AllCompared(lens, r.rows, runner, ActorMap(space.actors), true); }
  }

  lemma {:induction false} EnumeratedLengths(space: Space, sorted: seq<ActorChain>, schedules: seq<seq<Step>>)
    requires DistinctActors(space.actors) && Sorted(sorted) && SameChains(sorted, space.actors)
    requires schedules <= AllSchedules(sorted, space.maxPreemptions)
    ensures forall k :: 0 <= k < |schedules| ==> |schedules[k]| == TotalSteps(space.actors)
  {
    hide AllSchedules, IsMerge, Sorted;
    SortedAreDistinct(sorted);
    forall k | 0 <= k < |schedules| ensures |schedules[k]| == TotalSteps(space.actors) {
      assert schedules[k] == AllSchedules(sorted, space.maxPreemptions)[k];
      AllSchedulesAreTheMerges(sorted, space.maxPreemptions, schedules[k]);
      SameMerges(sorted, space.actors, schedules[k]);
      MergeLength(space.actors, schedules[k]);
    }
  }

  lemma {:induction false} CoverageCounts(coverage: Coverage)
    requires coverage.Valid()
    ensures Distinct(coverage.stateRows) && Tallied(coverage.stateRows, coverage.transitions, coverage.moves)
    ensures TotalCount(coverage.transitions) == |coverage.moves|
  {
    hide TotalCount, Tallied;
  }

  /** When the cap cut the enumeration off, some eligible run is left. */
  lemma {:induction false} CapLeavesMore(space: Space, sorted: seq<ActorChain>, schedules: seq<seq<Step>>, rows: seq<Row>)
    requires Sorted(sorted) && SameChains(sorted, space.actors) && schedules < AllSchedules(sorted, space.maxPreemptions)
    requires Candidates(rows) == Product(schedules, |space.inputs|) && |space.inputs| > 0
    ensures MoreToRun(space, rows)
  {
    hide AllSchedules, Product, EligibleRun, Sorted;
    var all := AllSchedules(sorted, space.maxPreemptions);
    SortedAreDistinct(sorted);
    AllSchedulesAscend(sorted, space.maxPreemptions);
    var c := Candidate(all[|schedules|], 0);
    InProduct(all, |space.inputs|, c);
    EligibleCandidates(space, sorted, c);
    InProduct(schedules, |space.inputs|, c);
    assert forall k :: 0 <= k < |schedules| ==> schedules[k] == all[k];
    forall k | 0 <= k < |rows| ensures rows[k].candidate != c {
      assert Candidates(rows)[k] in Product(schedules, |space.inputs|);
    }
  }

  // ----- an obliging campaign ----------------------------------------------------------------------------

  ghost function AllSizes(sizes: nat -> nat, n: nat): nat {
    if n == 0 then 0 else AllSizes(sizes, n - 1) + sizes(n - 1)
  }

  lemma {:induction false} RetainedWithin(rows: seq<Row>, sizes: nat -> nat)
    ensures RetainedBytes(rows, sizes) <= AllSizes(sizes, |rows|)
    decreases |rows|
  {
    if rows != [] { RetainedWithin(rows[..|rows| - 1], sizes); }
  }

  lemma {:induction false} MoreSizes(sizes: nat -> nat, m: nat, n: nat)
    requires m <= n
    ensures AllSizes(sizes, m) <= AllSizes(sizes, n)
    decreases n
  {
    if m < n { MoreSizes(sizes, m, n - 1); }
  }

  /** Nothing is raised, everything is within the limits, and every reply is a genuine pass for its
      own candidate under an identity of its own. */
  ghost predicate Obliging(lens: Lens, space: Space, limits: Limits, runner: nat -> Reply, sizes: nat -> nat, interrupts: Interrupts,
                           candidates: seq<Candidate>)
  {
    && (forall n :: !interrupts.stop(n) && !interrupts.late(n))
    && |candidates| <= limits.maxEnumeratedSchedules * |space.inputs| && |candidates| <= limits.maxRuns
    && AllSizes(sizes, |candidates|) <= limits.maxEvidenceBytes
    && (forall k :: 0 <= k < |candidates| ==> Obliges(lens, space, runner, candidates, k))
    && (forall j, k :: 0 <= j < k < |candidates| ==> OwnIdentities(runner(j), runner(k)))
  }

  ghost predicate OwnIdentities(a: Reply, b: Reply) {
    a.Sample? && b.Sample? ==> a.execution.id != b.execution.id
  }

  ghost predicate Obliges(lens: Lens, space: Space, runner: nat -> Reply, candidates: seq<Candidate>, k: nat)
    requires k < |candidates|
  {
    GenuinePass(lens, runner(k), candidates[k], ActorMap(space.actors), space.requireModelComparison) && RowDumps(runner(k), Passed)
  }

  lemma {:induction false} FreshIdentity(runner: nat -> Reply, n: nat, k: nat)
    requires n <= k && runner(k).Sample? && runner(k).execution.id.Some?
    requires forall j :: 0 <= j < n ==> OwnIdentities(runner(j), runner(k))
    ensures runner(k).execution.id.value !in IdsBefore(runner, n)
    decreases n
  {
    if n > 0 { FreshIdentity(runner, n - 1, k); }
  }

  /** An obliging reply leaves only two categories, and its row serializes with either. */
  lemma {:induction false} ObligingRow(lens: Lens, space: Space, limits: Limits, runner: nat -> Reply, sizes: nat -> nat,
                                       interrupts: Interrupts, candidates: seq<Candidate>, k: nat, category: Category)
    requires Obliging(lens, space, limits, runner, sizes, interrupts, candidates) && k < |candidates|
    requires Stands(lens, category, runner(k), candidates[k], ActorMap(space.actors), IdsBefore(runner, k), space.requireModelComparison)
    ensures (category == Passed || category == CoverageFailed) && RowDumps(runner(k), category) && runner(k).Sample?
    ensures Identified(runner(k), candidates[k], ActorMap(space.actors), IdsBefore(runner, k)) && SaysClean(runner(k).execution)
  {
    var declared, ids := ActorMap(space.actors), IdsBefore(runner, k);
    assert Obliges(lens, space, runner, candidates, k);
    HasIdentity(lens, runner(k), candidates[k], declared, space.requireModelComparison);
    FreshIdentity(runner, k, k);
    PassedIsGenuine(lens, runner(k), candidates[k], declared, ids, space.requireModelComparison);
    hide Obliging, IdsBefore, ActorMap, GenuinePass, RowDumps;
    OnlyPassOrCoverage(lens, runner(k), candidates[k], declared, ids, space.requireModelComparison, category);
    CoverageRowDumps(runner(k));
  }

  lemma {:induction false} HasIdentity(lens: Lens, reply: Reply, candidate: Candidate, declared: map<string, string>, needsComparison: bool)
    requires GenuinePass(lens, reply, candidate, declared, needsComparison)
    ensures reply.Sample? && reply.execution.id.Some?
  {
    hide Validated, Readable;
  }

  lemma {:induction false} OnlyPassOrCoverage(lens: Lens, reply: Reply, candidate: Candidate, declared: map<string, string>,
                                              ids: set<string>, needsComparison: bool, category: Category)
    requires Stands(lens, Passed, reply, candidate, declared, ids, needsComparison)
    requires Stands(lens, category, reply, candidate, declared, ids, needsComparison)
    ensures category == Passed || category == CoverageFailed
    ensures Identified(reply, candidate, declared, ids) && SaysClean(reply.execution)
  {
    hide Validated, Presentable, ValidId, Says;
    ExaminedAsItSays(reply, candidate, declared, ids, needsComparison, Passed);
    ExaminedAsItSays(reply, candidate, declared, ids, needsComparison, category);
    ExaminedNotes(reply, candidate, declared, ids, needsComparison);
    SaysPassed(reply, candidate, declared, ids, needsComparison);
    hide Examine;
  }

  lemma {:induction false} SaysPassed(reply: Reply, candidate: Candidate, declared: map<string, string>, ids: set<string>, needsComparison: bool)
    requires Says(Passed, reply, candidate, declared, ids, needsComparison)
    ensures Identified(reply, candidate, declared, ids) && SaysClean(reply.execution)
  {
    hide ValidId;
  }

  lemma {:induction false} CoverageRowDumps(reply: Reply)
    requires RowDumps(reply, Passed) && reply.Sample?
    ensures RowDumps(reply, CoverageFailed)
  {
    CoverageText();
    hide ValidText, Clip;
  }

  /** The campaign ended because the last run found no room in the coverage. */
  ghost predicate TooMuch(lens: Lens, r: Receipt, runner: nat -> Reply) {
    r.stopReason == CoverageLimit && r.rows != [] && Crowded(lens, runner(|r.rows| - 1), r.states, r.transitions)
  }

  /** Every row is clean and passed, but for one that the coverage did not take. */
  ghost predicate RowsOblige(rows: seq<Row>, runner: nat -> Reply, declared: map<string, string>) {
    forall k :: 0 <= k < |rows| ==>
      && (rows[k].category == Passed || rows[k].category == CoverageFailed) && runner(k).Sample?
      && CleanAt(rows, runner, declared, k)
  }

  lemma {:induction false} ObligingRows(lens: Lens, rows: seq<Row>, space: Space, limits: Limits, runner: nat -> Reply, sizes: nat -> nat,
                                        interrupts: Interrupts, candidates: seq<Candidate>)
    requires AllStand(lens, rows, runner, ActorMap(space.actors), space.requireModelComparison) && Candidates(rows) <= candidates
    requires Obliging(lens, space, limits, runner, sizes, interrupts, candidates)
    ensures RowsOblige(rows, runner, ActorMap(space.actors))
  {
    hide ActorMap, Stands, CleanAt, Obliging, RowDumps, Identified, SaysClean;
    forall k | 0 <= k < |rows|
      ensures (rows[k].category == Passed || rows[k].category == CoverageFailed) && runner(k).Sample?
              && CleanAt(rows, runner, ActorMap(space.actors), k)
    {
      assert Candidates(rows)[k] == candidates[k];
      ObligingRow(lens, space, limits, runner, sizes, interrupts, candidates, k, rows[k].category);
      ItIsClean(rows, runner, ActorMap(space.actors), k);
    }
  }

  lemma {:induction false} ObligingBounds(lens: Lens, space: Space, limits: Limits, runner: nat -> Reply, sizes: nat -> nat,
                                          interrupts: Interrupts, polls: Polls, candidates: seq<Candidate>)
    requires Obliging(lens, space, limits, runner, sizes, interrupts, candidates)
    ensures !Struck(interrupts.stop, polls.stops) && !Struck(interrupts.late, polls.looks)
    ensures |candidates| <= limits.maxEnumeratedSchedules * |space.inputs| && |candidates| <= limits.maxRuns
    ensures AllSizes(sizes, |candidates|) <= limits.maxEvidenceBytes
  {
    hide Obliges, OwnIdentities;
  }

  /** With such rows only two reasons to stop are left. */
  lemma {:induction false} ReasonsLeft(reason: StopReason, rows: seq<Row>, runner: nat -> Reply, declared: map<string, string>, maxRuns: nat,
                                       interrupts: Interrupts, polls: Polls)
    requires HaltedFor(reason, rows, runner, declared, maxRuns, interrupts, polls) && RowsOblige(rows, runner, declared)
    requires !Struck(interrupts.stop, polls.stops) && !Struck(interrupts.late, polls.looks) && forall k :: 0 <= k < |rows| ==> !rows[k].omitted
    ensures reason == RunLimit || (reason == CoverageLimit && rows != [] && rows[|rows| - 1].category == CoverageFailed && runner(|rows| - 1).Sample?)
  {
    hide CleanAt, Struck;
  }

  lemma {:induction false} AllRowsPassed(rows: seq<Row>, runner: nat -> Reply, declared: map<string, string>)
    requires RowsOblige(rows, runner, declared) && AllRetained(rows)
    ensures AllPassed(rows)
  {
    hide CleanAt;
  }

  /** An obliging campaign ends complete, unless its observations are too much for the coverage. */
  lemma {:induction false} ObligingCompletes(lens: Lens, r: Receipt, space: Space, limits: Limits, runner: nat -> Reply, sizes: nat -> nat,
                                             interrupts: Interrupts, polls: Polls, candidates: seq<Candidate>)
    requires Truthful(lens, r, space, limits, runner, sizes) && Ends(lens, r, space, limits, runner, interrupts, polls)
    requires Candidates(r.rows) <= candidates && r.eligible <= |candidates|
    requires forall c :: EligibleRun(space, c) ==> c in candidates
    requires Obliging(lens, space, limits, runner, sizes, interrupts, candidates)
    ensures r.stopReason == Complete || TooMuch(lens, r, runner)
  {
    hide First, FirstMismatch, Genuine, Serialized, Retained, RetainedBytes, NumberOf, TotalCount, OnlyEligible, Once, AllButLastClean, EligibleRun,
      MoreToRun, ActorMap, Crowded, OmittedExactly, AllStand, AllRetained, AllPassed, RowsOblige, HaltedFor, Obliging, AllSizes, Struck, Candidates,
      CountAt, ComparedCount;
    ObligingRows(lens, r.rows, space, limits, runner, sizes, interrupts, candidates);
    ObligingBounds(lens, space, limits, runner, sizes, interrupts, polls, candidates);
    assert |r.rows| == |Candidates(r.rows)|;
    NothingOmitted(r.rows, sizes, |candidates|, limits.maxEvidenceBytes);
    match r.stopReason
    case Complete =>
    case EnumerationLimit => NothingLeft(space, r.rows, candidates);
    case NonPassRuns =>
      AllRowsPassed(r.rows, runner, ActorMap(space.actors));
      SomeoneFailed(r.rows);
    case RunLimit =>
    case _ => ReasonsLeft(r.stopReason, r.rows, runner, ActorMap(space.actors), limits.maxRuns, interrupts, polls);
  }

  lemma {:induction false} ItIsClean(rows: seq<Row>, runner: nat -> Reply, declared: map<string, string>, k: nat)
    requires k < |rows| && Identified(runner(k), rows[k].candidate, declared, IdsBefore(runner, k)) && SaysClean(runner(k).execution)
    ensures CleanAt(rows, runner, declared, k)
  {
  }

  lemma {:induction false} SomeoneFailed(rows: seq<Row>)
    requires NumberOf(rows, Passed) < |rows|
    ensures !AllPassed(rows)
  {
    AllOfThemPassed(rows);
  }

  lemma {:induction false} NothingOmitted(rows: seq<Row>, sizes: nat -> nat, n: nat, maxBytes: nat)
    requires OmittedExactly(rows, sizes, maxBytes) && |rows| <= n && AllSizes(sizes, n) <= maxBytes
    ensures forall k :: 0 <= k < |rows| ==> !rows[k].omitted
  {
    hide RetainedBytes;
    forall k | 0 <= k < |rows| ensures !rows[k].omitted {
      RetainedWithin(rows[..k], sizes);
      MoreSizes(sizes, k + 1, n);
    }
  }

  lemma {:induction false} NothingLeft(space: Space, rows: seq<Row>, candidates: seq<Candidate>)
    requires Candidates(rows) == candidates && forall c :: EligibleRun(space, c) ==> c in candidates
    ensures !MoreToRun(space, rows)
  {
    hide EligibleRun;
    forall c | EligibleRun(space, c) ensures exists k :: 0 <= k < |rows| && rows[k].candidate == c {
      var k :| 0 <= k < |candidates| && candidates[k] == c;
      assert Candidates(rows)[k] == rows[k].candidate;
    }
  }

  /** The end of a campaign that was not aborted. */
  method WriteReceipt(c: Campaign, space: Space, limits: Limits, ghost sorted: seq<ActorChain>, found: Enumerate.Enumeration)
    returns (r: Receipt)
    requires c.Valid() && Drives(c, space, limits) && |space.inputs| > 0
    requires Sorted(sorted) && SameChains(sorted, space.actors) && found.schedules <= AllSchedules(sorted, space.maxPreemptions)
    requires found.exhausted ==> found.schedules == AllSchedules(sorted, space.maxPreemptions)
    requires found.stopReason == Enumerate.EnumerationLimit ==>
               |found.schedules| == limits.maxEnumeratedSchedules < |AllSchedules(sorted, space.maxPreemptions)|
    requires Candidates(c.rows) <= Product(found.schedules, |space.inputs|) && |c.rows| <= limits.maxRuns
    requires found.exhausted <==> found.stopReason == Enumerate.NotStopped
    requires c.halt && c.stopReason == RunLimit ==> |c.rows| < |Product(found.schedules, |space.inputs|)|
    requires !c.halt ==> c.stopReason == Reason(found.stopReason) && Candidates(c.rows) == Product(found.schedules, |space.inputs|)
    ensures r.complete <==> r.stopReason == Complete
    ensures r.stopReason != InvalidDeclaration && Truthful(c.lens, r, space, limits, c.runner, c.sizes)
    ensures Ends(c.lens, r, space, limits, c.runner, c.interrupts, c.polls)
    ensures r.complete ==> Exhaustive(c.lens, r, space, c.runner)
    ensures r.rows == c.rows && r.eligible == |found.schedules| * |space.inputs|
    ensures r.denominatorKnown == found.exhausted && (r.enumerationExhausted <==> found.exhausted && r.attempted == r.eligible)
  {
    hide Sorted, SameChains, Candidates, Product, AllSchedules, Sound, CountsAgree, RowsKept, Standing, Accounted, Truthful, Exhaustive, Distinct,
      Tallied, TotalCount, HaltedFor, CrowdedLast, AllRetained, Ends, Attentive, ActorMap;
    var eligible := |found.schedules| * |space.inputs|;
    CoverageCounts(c.coverage);
    CountsOf(c.rows, c.attempted, c.completed, c.categories, c.firstFailure, c.firstCounterexample);
    StopReasons(c.rows, c.runner, c.ids, c.halt, c.stopReason);
    var exhausted := found.exhausted && c.attempted == eligible;
    var complete := exhausted && c.completed == eligible && !c.halt;
    var reason := if c.stopReason != Unset then c.stopReason else if c.completed == eligible then Complete else NonPassRuns;
    r := Receipt(complete, exhausted, found.exhausted, eligible, c.attempted, c.completed, c.comparisonRuns, c.rows,
                 c.coverage.stateRows, c.coverage.transitions, c.categories, c.firstCounterexample, c.firstFailure, reason);
    TruthfulReceipt(c.lens, r, space, limits, c.runner, c.sizes, sorted, found.schedules, c.ids, c.halt, c.stopReason, c.bytes, c.coverage.moves);
    if complete { ExhaustiveReceipt(c.lens, r, space, c.runner, sorted, c.coverage.moves); }
    ReceiptEnds(c, r, space, limits, sorted, found);
  }

  lemma {:induction false} ReceiptEnds(c: Campaign, r: Receipt, space: Space, limits: Limits, sorted: seq<ActorChain>, found: Enumerate.Enumeration)
    requires c.Watchful() && CrowdedLast(c.lens, c.rows, c.runner, r.states, r.transitions) && Drives(c, space, limits) && |space.inputs| > 0
    requires Sorted(sorted) && SameChains(sorted, space.actors) && found.schedules <= AllSchedules(sorted, space.maxPreemptions)
    requires found.stopReason == Enumerate.EnumerationLimit ==>
               |found.schedules| == limits.maxEnumeratedSchedules < |AllSchedules(sorted, space.maxPreemptions)|
    requires found.exhausted <==> found.stopReason == Enumerate.NotStopped
    requires c.halt && c.stopReason == RunLimit ==> |c.rows| < |Product(found.schedules, |space.inputs|)|
    requires !c.halt ==>
               c.stopReason == Reason(found.stopReason) && Candidates(c.rows) == Product(found.schedules, |space.inputs|) && AllRetained(c.rows)
    requires r.rows == c.rows && r.attempted == |r.rows| && r.completed <= r.attempted && r.eligible == |found.schedules| * |space.inputs|
    requires r.enumerationExhausted == (found.exhausted && r.attempted == r.eligible)
    requires r.stopReason == if c.stopReason != Unset then c.stopReason else if r.completed == r.eligible then Complete else NonPassRuns
    ensures Ends(c.lens, r, space, limits, c.runner, c.interrupts, c.polls)
  {
    hide Sorted, SameChains, Candidates, Product, AllSchedules, HaltedFor, CrowdedLast, Undisturbed, MoreToRun, Struck, ActorMap, AllRetained, Attentive;
    if c.halt {
      HaltedReasons(c.stopReason, c.rows, c.runner, c.declared, limits.maxRuns, c.interrupts, c.polls);
    } else {
      StruckIsHalt(c.stopReason, c.rows, c.runner, c.declared, limits.maxRuns, c.interrupts, c.polls);
      assert |Candidates(c.rows)| == r.eligible;
      if c.stopReason == EnumerationLimit { CapLeavesMore(space, sorted, found.schedules, c.rows); }
    }
  }

  /** A campaign that was not halted ended for the reason of its enumeration. */
  lemma {:induction false} StruckIsHalt(reason: StopReason, rows: seq<Row>, runner: nat -> Reply, declared: map<string, string>, maxRuns: nat,
                                        interrupts: Interrupts, polls: Polls)
    requires Attentive(reason, interrupts, polls)
    ensures reason == Cancelled || reason == TimeBudget ==> HaltedFor(reason, rows, runner, declared, maxRuns, interrupts, polls)
    ensures reason != Cancelled && reason != TimeBudget ==> Undisturbed(interrupts, polls)
  {
    hide Struck;
  }

  lemma {:induction false} HaltedReasons(reason: StopReason, rows: seq<Row>, runner: nat -> Reply, declared: map<string, string>, maxRuns: nat,
                                         interrupts: Interrupts, polls: Polls)
    requires HaltedFor(reason, rows, runner, declared, maxRuns, interrupts, polls)
    ensures reason == RunLimit ==> |rows| == maxRuns
    ensures reason != EnumerationLimit && reason != Unset && reason != Complete && reason != NonPassRuns
  {
    hide Struck, CleanAt;
  }

  ghost predicate Drives(c: Campaign, space: Space, limits: Limits) {
    && c.declared == ActorMap(space.actors) && c.needsComparison == space.requireModelComparison
    && c.maxRuns == limits.maxRuns && c.maxEvidenceBytes == limits.maxEvidenceBytes && c.total == TotalSteps(space.actors)
  }

  lemma {:induction false} ReasonIsHeeded(reason: Enumerate.StopReason, interrupts: Interrupts, polls: Polls)
    requires Enumerate.Heeded(interrupts, polls, reason)
    ensures Attentive(Reason(reason), interrupts, polls)
  {
    hide Struck;
  }

  /** The campaign over a declaration that has been checked. */
  method ExploreValid(space: Space, limits: Limits, runner: nat -> Reply, sizes: nat -> nat, lenient: string -> Result<int>,
                      interrupts: Interrupts) returns (r: Receipt, ghost polls: Polls, ghost candidates: seq<Candidate>)
    requires DistinctActors(space.actors) && |space.inputs| > 0
    ensures r.complete <==> r.stopReason == Complete
    ensures r.stopReason == InvalidDeclaration ==>
              |r.rows| < limits.maxRuns && exists lost: Row :: Candidates(r.rows + [lost]) <= candidates && CutShort(LensOf(space, lenient), r, space, runner, lost)
    ensures r.stopReason != InvalidDeclaration ==>
              && Truthful(LensOf(space, lenient), r, space, limits, runner, sizes)
              && Ends(LensOf(space, lenient), r, space, limits, runner, interrupts, polls)
              && Candidates(r.rows) <= candidates && r.eligible <= |candidates|
              && Denominators(r, limits, |space.inputs|, interrupts, |candidates|)
    ensures r.complete ==> Exhaustive(LensOf(space, lenient), r, space, runner)
    ensures forall c :: c in candidates <==> EligibleRun(space, c)
    ensures forall j, k :: 0 <= j < k < |candidates| ==> candidates[j] != candidates[k]
  {
    hide DistinctActors, Sorted, SameChains, Candidates, Product, AllSchedules, Sound, CountsAgree, RowsKept, Standing, Accounted, Truthful,
      Exhaustive, ActorMap, LensOf, TotalSteps, OneLost, CutShort, Ends, EligibleRun, Attentive, HaltedFor, CrowdedLast;
    var sorted := SortActors(space.actors);
    var found, looked := Enumerate.Enumerate(sorted, space.maxPreemptions, limits.maxEnumeratedSchedules, interrupts);
    candidates := Product(AllSchedules(sorted, space.maxPreemptions), |space.inputs|);
    TheCandidates(space, sorted, found.schedules);
    EnumeratedLengths(space, sorted, found.schedules);
    ReasonIsHeeded(found.stopReason, interrupts, looked);
    var c := new Campaign(ActorMap(space.actors), space.requireModelComparison, limits.maxRuns, limits.maxEvidenceBytes,
                          runner, sizes, interrupts, LensOf(space, lenient), Reason(found.stopReason), looked, TotalSteps(space.actors));
    var aborted := c.RunAll(found.schedules, |space.inputs|);
    polls := c.polls;
    if aborted {
      r := Receipt(false, false, found.exhausted, |found.schedules| * |space.inputs|, 0, 0, 0, c.rows, c.coverage.stateRows,
                   map[], c.categories, c.firstCounterexample, c.firstFailure, InvalidDeclaration);
      ghost var lost: Row :| Candidates(c.rows) + [lost.candidate] <= Product(found.schedules, |space.inputs|)
        && OneLost(c.lens, c.rows, lost, runner, c.declared, c.needsComparison, c.attempted, c.completed, c.categories, c.firstFailure, c.firstCounterexample);
      LostIsCut(c.lens, r, space, runner, lost, c.attempted, c.completed);
      OneRowMore(r.rows, lost);
      return;
    }
    r := WriteReceipt(c, space, limits, sorted, found);
    CountsThem(r, space, limits, sorted, found, interrupts, looked);
  }

  lemma {:induction false} CountsThem(r: Receipt, space: Space, limits: Limits, sorted: seq<ActorChain>, found: Enumerate.Enumeration,
                                      interrupts: Interrupts, looked: Polls)
    requires |space.inputs| > 0 && r.eligible == |found.schedules| * |space.inputs| && r.denominatorKnown == found.exhausted
    requires r.enumerationExhausted <==> found.exhausted && r.attempted == r.eligible
    requires found.exhausted ==> found.schedules == AllSchedules(sorted, space.maxPreemptions)
    requires Undisturbed(interrupts, looked) ==>
               (found.exhausted <==> |AllSchedules(sorted, space.maxPreemptions)| <= limits.maxEnumeratedSchedules)
    ensures Denominators(r, limits, |space.inputs|, interrupts, |Product(AllSchedules(sorted, space.maxPreemptions), |space.inputs|)|)
  {
    hide AllSchedules, Product;
    Scaled(|AllSchedules(sorted, space.maxPreemptions)|, limits.maxEnumeratedSchedules, |space.inputs|);
  }

  lemma {:induction false} Scaled(a: nat, b: nat, c: nat)
    requires c > 0
    ensures a <= b <==> a * c <= b * c
  {
    if a > b { assert a * c == b * c + (a - b) * c; } else { assert b * c == a * c + (b - a) * c; }
  }

  /** The candidates that a campaign can come to are the eligible runs, each once. */
  lemma {:induction false} TheCandidates(space: Space, sorted: seq<ActorChain>, schedules: seq<seq<Step>>)
    requires Sorted(sorted) && SameChains(sorted, space.actors) && schedules <= AllSchedules(sorted, space.maxPreemptions)
    ensures var candidates := Product(AllSchedules(sorted, space.maxPreemptions), |space.inputs|);
            && (forall c :: c in candidates <==> EligibleRun(space, c))
            && (forall j, k :: 0 <= j < k < |candidates| ==> candidates[j] != candidates[k])
            && Product(schedules, |space.inputs|) <= candidates
  {
    hide AllSchedules, Product, EligibleRun;
    var all := AllSchedules(sorted, space.maxPreemptions);
    forall c ensures c in Product(all, |space.inputs|) <==> EligibleRun(space, c) { EligibleCandidates(space, sorted, c); }
    SortedAreDistinct(sorted);
    AllSchedulesAscend(sorted, space.maxPreemptions);
    ProductDistinct(all, |space.inputs|);
    ProductPrefix(all, |space.inputs|, |schedules|);
    assert all[..|schedules|] == schedules;
  }

  /** The campaign over a whole declaration. `candidates` are the eligible runs in the order in which
      they are taken. */
  method ExploreFinite(space: Space, limits: Limits, runner: nat -> Reply, sizes: nat -> nat, lenient: string -> Result<int>,
                       interrupts: Interrupts) returns (r: Receipt, ghost polls: Polls, ghost candidates: seq<Candidate>)
    ensures r.complete <==> r.stopReason == Complete
    ensures r.stopReason == InvalidDeclaration ==>
              if ValidDeclaration(space, limits)
              then |r.rows| < limits.maxRuns && exists lost :: CutShort(LensOf(space, lenient), r, space, runner, lost)
              else r.rows == [] && r.attempted == 0 && r.completed == 0
    ensures r.stopReason != InvalidDeclaration ==>
              && ValidDeclaration(space, limits) && Truthful(LensOf(space, lenient), r, space, limits, runner, sizes)
              && Ends(LensOf(space, lenient), r, space, limits, runner, interrupts, polls)
              && Denominators(r, limits, |space.inputs|, interrupts, |candidates|)
    ensures r.complete ==> Exhaustive(LensOf(space, lenient), r, space, runner)
    ensures ValidDeclaration(space, limits) ==> forall c :: c in candidates <==> EligibleRun(space, c)
    ensures ValidDeclaration(space, limits) ==> forall j, k :: 0 <= j < k < |candidates| ==> candidates[j] != candidates[k]
    ensures ValidDeclaration(space, limits) && Obliging(LensOf(space, lenient), space, limits, runner, sizes, interrupts, candidates) ==>
              r.complete || TooMuch(LensOf(space, lenient), r, runner)
  {
    hide Truthful, Exhaustive, CutShort, Ends, EligibleRun, LensOf, Obliging, TooMuch, Candidates;
    polls, candidates := Polls(0, 0), [];
    if !ValidDeclaration(space, limits) {
      return Receipt(false, false, false, 0, 0, 0, 0, [], [], map[], map[], None, None, InvalidDeclaration), polls, candidates;
    }
    r, polls, candidates := ExploreValid(space, limits, runner, sizes, lenient, interrupts);
    if Obliging(LensOf(space, lenient), space, limits, runner, sizes, interrupts, candidates) {
      if r.stopReason == InvalidDeclaration {
        ghost var lost: Row :| Candidates(r.rows + [lost]) <= candidates && CutShort(LensOf(space, lenient), r, space, runner, lost);
        ObligingIsNotCut(LensOf(space, lenient), r, space, limits, runner, sizes, interrupts, candidates, lost);
      } else {
        ObligingCompletes(LensOf(space, lenient), r, space, limits, runner, sizes, interrupts, polls, candidates);
      }
    }
  }

  lemma {:induction false} ObligingIsNotCut(lens: Lens, r: Receipt, space: Space, limits: Limits, runner: nat -> Reply, sizes: nat -> nat,
                                            interrupts: Interrupts, candidates: seq<Candidate>, lost: Row)
    requires Obliging(lens, space, limits, runner, sizes, interrupts, candidates) && Candidates(r.rows + [lost]) <= candidates
    ensures !CutShort(lens, r, space, runner, lost)
  {
    if CutShort(lens, r, space, runner, lost) {
      var k := |r.rows|;
      hide Obliging, RowDumps;
      assert (r.rows + [lost])[k] == lost && Candidates(r.rows + [lost])[k] == candidates[k];
      ObligingRow(lens, space, limits, runner, sizes, interrupts, candidates, k, lost.category);
      assert false;
    }
  }

  lemma {:induction false} LostIsCut(lens: Lens, r: Receipt, space: Space, runner: nat -> Reply, lost: Row, attempted: nat, completed: nat)
    requires OneLost(lens, r.rows, lost, runner, ActorMap(space.actors), space.requireModelComparison, attempted, completed, r.categories,
                     r.firstFailure, r.firstCounterexample)
    requires r.attempted == 0 && r.completed == 0 && !r.complete
    ensures CutShort(lens, r, space, runner, lost)
  {
    hide RowDumps, Counted, First, NumberOf, AllStand, FirstMismatch, ActorMap;
    CounterexampleIsMismatch(lens, r.rows + [lost], runner, ActorMap(space.actors), space.requireModelComparison, r.firstCounterexample);
  }

  /** The receipt of a campaign that was cut short counts one run more than it has rows. */
  lemma {:induction false} OneMoreThanRows(lens: Lens, r: Receipt, space: Space, runner: nat -> Reply, lost: Row)
    requires CutShort(lens, r, space, runner, lost)
    ensures TotalCount(r.categories) == |r.rows| + 1 && r.attempted == 0
  {
    hide TotalCount, RowDumps, AllStand, FirstMismatch;
  }

  lemma {:induction false} StopReasons(rows: seq<Row>, runner: nat -> Reply, ids: set<string>, halt: bool, reason: StopReason)
    requires Accounted(rows, runner, ids, halt, reason)
    ensures if halt then Halting(reason) else AllRetained(rows)
  {
    hide Settled, IdsBefore;
  }

  // ----- what the numbers of the states mean ---------------------------------------------------------------

  ghost predicate SameMeaning(s: VarState, t: VarState) {
    s.Keys == t.Keys && forall k :: k in s ==> SemEq(s[k], t[k])
  }

  lemma {:induction false} ShownIn(lens: Lens, runner: nat -> Reply, n: nat, k: nat, text: string)
    requires k < n && text in RunTexts(lens, runner(k))
    ensures text in AllTexts(lens, runner, n)
  {
    hide RunTexts;
    if k < n - 1 { ShownIn(lens, runner, n - 1, k, text); }
  }

  /** Every observation of a complete campaign has a number in the receipt. */
  lemma {:induction false} HasNumber(lens: Lens, r: Receipt, space: Space, runner: nat -> Reply, j: nat, a: nat) returns (x: nat)
    requires Exhaustive(lens, r, space, runner) && j < |r.rows| && a < |RunTexts(lens, runner(j))|
    ensures x < |r.states| && r.states[x] == RunTexts(lens, runner(j))[a]
  {
    ShownIn(lens, runner, |r.rows|, j, RunTexts(lens, runner(j))[a]);
    hide RunTexts, AllTexts;
    assert RunTexts(lens, runner(j))[a] in Elements(r.states);
    x :| 0 <= x < |r.states| && r.states[x] == RunTexts(lens, runner(j))[a];
  }

  /** The state behind the `a`-th text of a run. */
  ghost function Meant(lens: Lens, reply: Reply, a: nat): (s: VarState)
    requires a < |RunTexts(lens, reply)|
    ensures CanonicalState(s) == Text(RunTexts(lens, reply)[a])
    ensures Projected(lens, reply.execution.observations.value[a].state) == Some(s)
  {
    hide CanonicalState, Projected;
    Projected(lens, reply.execution.observations.value[a].state).value
  }

  /** In a complete campaign, two observations of any two runs have the same number exactly when their
      decoded and projected states mean the same. */
  lemma {:induction false} SameNumberSameMeaning(lens: Lens, r: Receipt, space: Space, runner: nat -> Reply,
                                                 j: nat, a: nat, k: nat, b: nat, x: nat, y: nat)
    requires Exhaustive(lens, r, space, runner) && j < |r.rows| && k < |r.rows|
    requires a < |RunTexts(lens, runner(j))| && b < |RunTexts(lens, runner(k))| && x < |r.states| && y < |r.states|
    requires r.states[x] == RunTexts(lens, runner(j))[a] && r.states[y] == RunTexts(lens, runner(k))[b]
    ensures x == y <==> SameMeaning(Meant(lens, runner(j), a), Meant(lens, runner(k), b))
  {
    var s, t := Meant(lens, runner(j), a), Meant(lens, runner(k), b);
    assert x == y <==> r.states[x] == r.states[y];
    hide CanonicalState, SemEq, RunTexts, Exhaustive, Meant;
    SameTextSameMeaning(s, t);
  }
}
