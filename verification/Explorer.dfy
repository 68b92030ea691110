/** The prefix-tree explorer `explore`: a stack of decision prefixes, each replayed
    into a fresh execution, under run, stack, decision, time and evidence bounds. */
module Explorer {
  import opened ChoiceTree
  import opened Signals

  datatype StopReason =
    | NotStopped | TotalTimeout | RunBound | PrefixBound | FactoryFailed | CleanupIncomplete
    | CallbackTimeout | ExecutionFailed | EvidenceExhausted | DecisionBound
  {
    function Text(): string {
      match this
      case NotStopped => ""
      case TotalTimeout => "total_timeout"
      case RunBound => "run_bound"
      case PrefixBound => "prefix_bound"
      case FactoryFailed => "factory_failed"
      case CleanupIncomplete => "cleanup_incomplete"
      case CallbackTimeout => "callback_timeout"
      case ExecutionFailed => "execution_failed"
      case EvidenceExhausted => "evidence_exhausted"
      case DecisionBound => "decision_bound"
    }
  }

  datatype Cleanup = NotStarted | Confirmed | Incomplete | TeardownFailed
  {
    function Text(): string {
      match this
      case NotStarted => "not_started"
      case Confirmed => "confirmed"
      case Incomplete => "incomplete"
      case TeardownFailed => "teardown_failed"
    }
  }

  datatype Outcome = Completed | ControlledDeadlock | Failed

  /** What one replay showed: the execution's report, its enabled choices and how it was cleaned up. */
  datatype Attempt = Attempt(outcome: Outcome, finished: bool, enabled: seq<string>,
                             cleanup: Cleanup, budgetExceeded: bool)

  /** A retained row carries its whole serialized size; an omission row is built here. */
  datatype Row =
    | Retained(ordinal: nat, prefix: seq<string>, bytes: nat)
    | Omitted(ordinal: nat, cleanup: Cleanup)

  /** What lies outside the explorer: whether its n-th look at the clock finds the deadline passed;
      and, run by run, whether the factory throws, whether the execution fails as it starts (0) or in
      its i-th advance (i), how its cleanup ends, whether a callback overran its budget, and how
      large its row is. */
  datatype World = World(
    late: nat -> bool, factoryThrows: nat -> bool, disturbed: (nat, nat) -> bool,
    cleanup: nat -> Cleanup, overran: nat -> bool, rowBytes: nat -> nat)

  const FAILURE_RESERVE: nat := 256
  const MAX_STACK: nat := 4096
  const MAX_RUNS: nat := 4096

  // ----- the serialized size of the evidence ---------------------------------------

  function Digits(n: nat): (d: nat)
    ensures d >= 1
  {
    if n < 10 then 1 else 1 + Digits(n / 10)
  }

  function BoolBytes(b: bool): nat { if b then 4 else 5 }

  /** An omission row without its status and its ordinal. */
  const OMISSION: string := "{\"cleanup\":\"\",\"evidenceError\":\"receipt_byte_bound_exceeded\",\"ordinal\":}"

  function RowBytes(row: Row): nat {
    match row
    case Retained(_, _, bytes) => bytes
    case Omitted(ordinal, cleanup) => |OMISSION| + |cleanup.Text()| + Digits(ordinal)
  }

  /** Rows inside their array, with a comma between neighbours. */
  function RowsBytes(rows: seq<Row>): nat {
    if rows == [] then 0
    else RowsBytes(rows[..|rows| - 1]) + RowBytes(rows[|rows| - 1]) + (if |rows| == 1 then 0 else 1)
  }

  datatype Evidence = Evidence(complete: bool, runs: nat, terminals: nat, deadlocks: nat, evidenceComplete: bool,
                               stopReason: StopReason, totalBudgetExceeded: bool, rows: seq<Row>)

  /** The evidence object without what changes: flags, counters, stop reason and rows. */
  const FRAME: string :=
    "{\"budgetExceeded\":{\"total\":},\"complete\":,\"coverage\":\"finite-enabled-prefix-tree\",\"deadlocks\":,"
    + "\"evidenceComplete\":,\"modelComparison\":false,\"profile\":\"mirrorcpp.controlled-sync-experimental/v1\","
    + "\"rows\":[],\"runs\":,\"schema\":\"mirrors.controlled-sync-exploration/v1\",\"stopReason\":\"\",\"terminals\":}"

  /** No stop reason and no cleanup status is longer than this. */
  lemma {:induction false} ReasonIsMeasured(reason: StopReason)
    ensures |reason.Text()| <= 18
  {
  }

  lemma {:induction false} OmissionIsMeasured(cleanup: Cleanup)
    ensures |cleanup.Text()| <= 15 && |OMISSION| == 71
  {
  }

  function EvidenceBytes(e: Evidence): nat {
    BaseBytes(e.rows, e.runs, e.terminals, e.deadlocks) + BoolBytes(e.totalBudgetExceeded) + BoolBytes(e.complete)
    + BoolBytes(e.evidenceComplete) + |e.stopReason.Text()|
  }

  /** The size without the three flags and the stop reason. */
  function BaseBytes(rows: seq<Row>, runs: nat, terminals: nat, deadlocks: nat): nat {
    |FRAME| + RowsBytes(rows) + Digits(runs) + Digits(terminals) + Digits(deadlocks)
  }

  lemma {:induction false} FlagBytes(e: Evidence)
    ensures BaseBytes(e.rows, e.runs, e.terminals, e.deadlocks) + 12 <= EvidenceBytes(e)
    ensures EvidenceBytes(e) <= BaseBytes(e.rows, e.runs, e.terminals, e.deadlocks) + 33
  {
    ReasonIsMeasured(e.stopReason);
  }

  lemma {:induction false} OneMoreDigit(n: nat)
    ensures Digits(n) <= Digits(n + 1) <= Digits(n) + 1
    decreases n
  {
    if n >= 10 {
      assert (n + 1) / 10 == n / 10 || (n + 1) / 10 == n / 10 + 1;
      OneMoreDigit(n / 10);
    }
  }

  lemma {:induction false} DigitsBound(n: nat)
    requires n < 10000
    ensures Digits(n) <= 4
  {
    var tens, hundreds := n / 10, n / 100;
    assert Digits(hundreds / 10) == 1;
    assert Digits(hundreds) <= 2;
    assert tens / 10 == hundreds && Digits(tens) <= 3;
  }

  lemma {:induction false} RowsAppend(rows: seq<Row>, row: Row)
    ensures RowsBytes(rows + [row]) == RowsBytes(rows) + RowBytes(row) + if rows == [] then 0 else 1
  {
    assert (rows + [row])[..|rows|] == rows;
  }

  /** One more run, terminal or deadlock costs at most one more digit. */
  lemma {:induction false} CounterGrowth(rows: seq<Row>, runs: nat, terminals: nat, deadlocks: nat)
    ensures BaseBytes(rows, runs + 1, terminals, deadlocks) <= BaseBytes(rows, runs, terminals, deadlocks) + 1
    ensures BaseBytes(rows, runs, terminals + 1, deadlocks) <= BaseBytes(rows, runs, terminals, deadlocks) + 1
    ensures BaseBytes(rows, runs, terminals, deadlocks + 1) <= BaseBytes(rows, runs, terminals, deadlocks) + 1
  {
    OneMoreDigit(runs);
    OneMoreDigit(terminals);
    OneMoreDigit(deadlocks);
  }

  /** An omission row and its comma take at most 91 bytes. */
  lemma {:induction false} OmissionGrowth(rows: seq<Row>, runs: nat, terminals: nat, deadlocks: nat, cleanup: Cleanup)
    requires 0 < runs <= MAX_RUNS
    ensures BaseBytes(rows + [Omitted(runs - 1, cleanup)], runs, terminals, deadlocks)
         <= BaseBytes(rows, runs, terminals, deadlocks) + 91
  {
    RowsAppend(rows, Omitted(runs - 1, cleanup));
    DigitsBound(runs - 1);
    OmissionIsMeasured(cleanup);
  }

  /** One row per visited prefix, in order; only the last can lack its evidence, and only if the flag says so. */
  ghost predicate Listed(rows: seq<Row>, visited: seq<seq<string>>, sizes: nat -> nat, evidenceComplete: bool) {
    && |rows| == |visited|
    && (forall i :: 0 <= i < |rows| ==> rows[i].ordinal == i)
    && (forall i :: 0 <= i < |rows| && rows[i].Retained? ==> rows[i] == Retained(i, visited[i], sizes(i)))
    && (forall i :: 0 <= i < |rows| - 1 ==> rows[i].Retained?)
    && (evidenceComplete ==> forall i :: 0 <= i < |rows| ==> rows[i].Retained?)
  }

  lemma {:induction false} ListedAppend(before: seq<Row>, rows: seq<Row>, visited: seq<seq<string>>, prefix: seq<string>,
                                        sizes: nat -> nat, complete: bool)
    requires Listed(before, visited, sizes, true)
    requires |rows| == |before| + 1 && rows[..|before|] == before && rows[|before|].ordinal == |before|
    requires rows[|before|].Retained? ==> rows[|before|] == Retained(|before|, prefix, sizes(|before|))
    requires complete ==> rows[|before|].Retained?
    ensures Listed(rows, visited + [prefix], sizes, complete)
  {
    assert forall i :: 0 <= i < |before| ==> rows[i] == before[i];
  }

  /** What the first `n` rows take when all of them are retained, a comma each. */
  ghost function AllRowBytes(sizes: nat -> nat, n: nat): nat {
    if n == 0 then 0 else AllRowBytes(sizes, n - 1) + sizes(n - 1) + 1
  }

  lemma {:induction false} RowsWithin(rows: seq<Row>, visited: seq<seq<string>>, sizes: nat -> nat)
    requires Listed(rows, visited, sizes, true)
    ensures RowsBytes(rows) <= AllRowBytes(sizes, |rows|)
    decreases |rows|
  {
    if rows != [] {
      var n := |rows| - 1;
      RowsWithin(rows[..n], visited[..n], sizes);
    }
  }

  lemma {:induction false} MoreRowBytes(sizes: nat -> nat, m: nat, n: nat)
    requires m <= n
    ensures AllRowBytes(sizes, m) <= AllRowBytes(sizes, n)
    decreases n
  {
    if m < n { MoreRowBytes(sizes, m, n - 1); }
  }

  /** The evidence with its next row retained would eat into the reserve. */
  ghost predicate Overfull(e: Evidence, row: Row, maxEvidenceBytes: nat) {
    exists flag: bool :: EvidenceBytes(Tried(e, row, flag)) + FAILURE_RESERVE > maxEvidenceBytes
  }

  /** The evidence as it is measured when a row is tried; `flag` is whether the stack is empty. */
  ghost function Tried(e: Evidence, row: Row, flag: bool): Evidence {
    Evidence(flag, e.runs, e.terminals, e.deadlocks, true, NotStopped, false, (if e.rows == [] then [] else e.rows[..|e.rows| - 1]) + [row])
  }

  lemma {:induction false} DoesNotFit(e: Evidence, before: seq<Row>, row: Row, tried: Evidence, maxEvidenceBytes: nat)
    requires |e.rows| == |before| + 1 && e.rows[..|before|] == before
    requires tried == Evidence(tried.complete, e.runs, e.terminals, e.deadlocks, true, NotStopped, false, before + [row])
    requires EvidenceBytes(tried) + FAILURE_RESERVE > maxEvidenceBytes
    ensures Overfull(e, row, maxEvidenceBytes)
  {
    hide EvidenceBytes;
    assert Tried(e, row, tried.complete) == tried;
  }

  /** When every row of the tree fits together with the reserve, no row is too large. */
  ghost predicate Roomy(sizes: nat -> nat, n: nat, maxEvidenceBytes: nat) {
    |FRAME| + AllRowBytes(sizes, n) + 12 + 14 + FAILURE_RESERVE <= maxEvidenceBytes
  }

  lemma {:induction false} RoomForARow(e: Evidence, row: Row, flag: bool, visited: seq<seq<string>>, sizes: nat -> nat, n: nat, maxEvidenceBytes: nat)
    requires Roomy(sizes, n, maxEvidenceBytes) && 0 < |e.rows| == |visited| <= n
    requires e.runs <= MAX_RUNS && e.terminals <= MAX_RUNS && e.deadlocks <= MAX_RUNS
    requires Listed(e.rows[..|e.rows| - 1] + [row], visited, sizes, true)
    ensures EvidenceBytes(Tried(e, row, flag)) + FAILURE_RESERVE <= maxEvidenceBytes
  {
    hide Listed, RowsBytes, AllRowBytes;
    var rows := e.rows[..|e.rows| - 1] + [row];
    RowsWithin(rows, visited, sizes);
    MoreRowBytes(sizes, |rows|, n);
    DigitsBound(e.runs);
    DigitsBound(e.terminals);
    DigitsBound(e.deadlocks);
    assert |NotStopped.Text()| == 0;
  }

  // ----- the pending part of the tree ----------------------------------------------

  /** What the stack still owes, in the order it will be popped. */
  ghost function Pending(program: Program, depth: nat, stack: seq<seq<string>>): seq<seq<string>>
    requires forall p :: p in stack ==> |p| <= depth
  {
    if stack == [] then []
    else Preorder(program, depth, stack[|stack| - 1]) + Pending(program, depth, stack[..|stack| - 1])
  }

  /** The stack segment that the choices from the `i`-th on become: last choice at the bottom. */
  function Pushed(prefix: seq<string>, enabled: seq<string>, i: nat): seq<seq<string>>
    requires i <= |enabled|
    decreases |enabled| - i
  {
    if i == |enabled| then [] else Pushed(prefix, enabled, i + 1) + [prefix + [enabled[i]]]
  }

  ghost predicate OnTree(program: Program, depth: nat, stack: seq<seq<string>>) {
    forall p :: p in stack ==> |p| <= depth && InTree(program, p)
  }

  lemma {:induction false} PendingPush(program: Program, depth: nat, stack: seq<seq<string>>, p: seq<string>)
    requires (forall q :: q in stack ==> |q| <= depth) && |p| <= depth
    ensures Pending(program, depth, stack + [p]) == Preorder(program, depth, p) + Pending(program, depth, stack)
  {
    assert (stack + [p])[..|stack|] == stack;
  }

  lemma {:induction false} PendingPushed(program: Program, depth: nat, stack: seq<seq<string>>, prefix: seq<string>, i: nat)
    requires OnTree(program, depth, stack) && InTree(program, prefix)
    requires program(prefix).Open? && |prefix| < depth && i <= |program(prefix).enabled|
    ensures OnTree(program, depth, stack + Pushed(prefix, program(prefix).enabled, i))
    ensures Pending(program, depth, stack + Pushed(prefix, program(prefix).enabled, i))
         == Below(program, depth, prefix, i) + Pending(program, depth, stack)
    decreases |program(prefix).enabled| - i
  {
    hide InTree, Preorder, Pending;
    var enabled := program(prefix).enabled;
    if i == |enabled| {
      assert stack + Pushed(prefix, enabled, i) == stack;
    } else {
      PendingPushed(program, depth, stack, prefix, i + 1);
      var lower, child := stack + Pushed(prefix, enabled, i + 1), prefix + [enabled[i]];
      Child(program, prefix, enabled[i]);
      PendingPush(program, depth, lower, child);
      Associate(stack, Pushed(prefix, enabled, i + 1), [child]);
      Associate(Preorder(program, depth, child), Below(program, depth, prefix, i + 1), Pending(program, depth, stack));
    }
  }

  lemma {:induction false} Associate<T>(a: seq<T>, b: seq<T>, c: seq<T>)
    ensures a + (b + c) == (a + b) + c
  {
  }

  /** Every prefix on the stack owes at least its own node. */
  lemma {:induction false} StackIsOwed(program: Program, depth: nat, stack: seq<seq<string>>)
    requires forall p :: p in stack ==> |p| <= depth
    ensures |Pending(program, depth, stack)| >= |stack|
    decreases |stack|
  {
    if stack != [] { StackIsOwed(program, depth, stack[..|stack| - 1]); }
  }

  /** A stack above its bound is owed by a tree above that bound. */
  lemma {:induction false} TreeAboveTheStack(program: Program, depth: nat, visited: seq<seq<string>>, stack: seq<seq<string>>,
                                             terminals: nat, deadlocks: nat)
    requires Explored(program, depth, visited, stack, terminals, deadlocks)
    ensures |Preorder(program, depth, [])| >= |visited| + |stack|
  {
    hide InTree, Preorder, Tally, Pending;
    StackIsOwed(program, depth, stack);
  }

  /** The loop invariant on the tree: the visited nodes followed by what the stack owes are
      the preorder, the counters tally the visited leaves, and no visited node was too deep. */
  ghost predicate Explored(program: Program, depth: nat, visited: seq<seq<string>>, stack: seq<seq<string>>,
                           terminals: nat, deadlocks: nat) {
    && OnTree(program, depth, stack)
    && visited + Pending(program, depth, stack) == Preorder(program, depth, [])
    && terminals == Tally(program, visited, Finished)
    && deadlocks == Tally(program, visited, Deadlocked)
    && (forall p :: p in visited && |p| == depth ==> !program(p).Open?)
  }

  lemma {:induction false} NothingExplored(program: Program, depth: nat)
    ensures Explored(program, depth, [], [[]], 0, 0)
  {
    var empty: seq<seq<string>> := [];
    PendingPush(program, depth, empty, []);
    assert empty + [[]] == [[]];
  }

  /** An empty stack means that the whole tree was visited. */
  lemma {:induction false} ExploredAll(program: Program, depth: nat, visited: seq<seq<string>>, terminals: nat, deadlocks: nat)
    requires Explored(program, depth, visited, [], terminals, deadlocks)
    ensures visited == Preorder(program, depth, [])
    ensures terminals == Tally(program, visited, Finished) && deadlocks == Tally(program, visited, Deadlocked)
    ensures forall p :: p in visited && |p| == depth ==> !program(p).Open?
  {
    hide Preorder, Tally;
  }

  /** What popping the top of the stack yields. */
  lemma {:induction false} PopTop(program: Program, depth: nat, visited: seq<seq<string>>, stack: seq<seq<string>>,
               terminals: nat, deadlocks: nat)
    requires Explored(program, depth, visited, stack, terminals, deadlocks) && stack != []
    ensures InTree(program, stack[|stack| - 1]) && |stack[|stack| - 1]| <= depth
    ensures visited < visited + [stack[|stack| - 1]] <= Preorder(program, depth, [])
  {
    var top := stack[|stack| - 1];
    assert top in stack;
    assert Preorder(program, depth, [])[..|visited|] == visited;
    assert Preorder(program, depth, [])[|visited|] == top;
  }

  lemma {:induction false} TallyBound(program: Program, visited: seq<seq<string>>, kind: Node)
    ensures Tally(program, visited, kind) <= |visited|
    decreases |visited|
  {
    if visited != [] { TallyBound(program, visited[..|visited| - 1], kind); }
  }

  lemma {:induction false} TallyAppend(program: Program, visited: seq<seq<string>>, p: seq<string>, kind: Node)
    ensures Tally(program, visited + [p], kind) == Tally(program, visited, kind) + if program(p) == kind then 1 else 0
  {
    assert (visited + [p])[..|visited|] == visited;
  }

  lemma {:induction false} LeavesAreVisited(program: Program, depth: nat, visited: seq<seq<string>>, stack: seq<seq<string>>,
                                            terminals: nat, deadlocks: nat)
    requires Explored(program, depth, visited, stack, terminals, deadlocks)
    ensures terminals <= |visited| && deadlocks <= |visited|
  {
    hide Preorder, OnTree, Tally, Pending;
    TallyBound(program, visited, Finished);
    TallyBound(program, visited, Deadlocked);
  }

  /** Moving the top of the stack to the visited nodes and its subtrees onto the stack. */
  lemma {:induction false} MoveTop(program: Program, depth: nat, visited: seq<seq<string>>, stack: seq<seq<string>>)
    requires OnTree(program, depth, stack) && stack != []
    requires var top := stack[|stack| - 1]; program(top).Open? ==> |top| < depth
    ensures var top, rest := stack[|stack| - 1], stack[..|stack| - 1];
            var next := if program(top).Open? then rest + Pushed(top, program(top).enabled, 0) else rest;
            && OnTree(program, depth, next)
            && visited + [top] + Pending(program, depth, next) == visited + Pending(program, depth, stack)
  {
    hide InTree;
    var top, rest := stack[|stack| - 1], stack[..|stack| - 1];
    assert top in stack && OnTree(program, depth, rest);
    if program(top).Open? {
      PendingPushed(program, depth, rest, top, 0);
      Regroup(visited, top, Below(program, depth, top, 0), Pending(program, depth, rest));
    } else {
      Regroup(visited, top, [], Pending(program, depth, rest));
    }
  }

  lemma {:induction false} Regroup<T>(a: seq<T>, x: T, b: seq<T>, c: seq<T>)
    ensures a + [x] + (b + c) == a + (([x] + b) + c)
    ensures a + [x] + c == a + ([x] + c)
    ensures [x] + [] == [x]
  {
  }

  /** Visiting the top of the stack, a leaf or an open node above the depth bound, keeps the invariant. */
  lemma {:induction false} VisitTop(program: Program, depth: nat, visited: seq<seq<string>>, stack: seq<seq<string>>,
                 terminals: nat, deadlocks: nat)
    requires Explored(program, depth, visited, stack, terminals, deadlocks) && stack != []
    requires var top := stack[|stack| - 1]; program(top).Open? ==> |top| < depth
    ensures var top, rest := stack[|stack| - 1], stack[..|stack| - 1];
            match program(top)
            case Finished => Explored(program, depth, visited + [top], rest, terminals + 1, deadlocks)
            case Deadlocked => Explored(program, depth, visited + [top], rest, terminals, deadlocks + 1)
            case Open(enabled) => Explored(program, depth, visited + [top], rest + Pushed(top, enabled, 0), terminals, deadlocks)
  {
    hide InTree, Preorder, Pending, Tally, Pushed;
    var top := stack[|stack| - 1];
    MoveTop(program, depth, visited, stack);
    TallyAppend(program, visited, top, Finished);
    TallyAppend(program, visited, top, Deadlocked);
  }

  // ----- why it ends -----------------------------------------------------------------

  /** Neither the start of run `k` nor one of its first `n` advances fails. */
  ghost predicate Steady(world: World, k: nat, n: nat) {
    forall i :: 0 <= i <= n ==> !world.disturbed(k, i)
  }

  lemma {:induction false} SteadyOn(world: World, k: nat, i: nat, n: nat)
    requires i <= n
    ensures world.disturbed(k, i) ==> !Steady(world, k, n)
    ensures !world.disturbed(k, i) && (i == 0 || Steady(world, k, i - 1)) ==> Steady(world, k, i)
  {
  }

  /** Nothing outside gets in the way of run `k`, the replay of `prefix`. */
  ghost predicate Untroubled(world: World, k: nat, prefix: seq<string>) {
    !world.factoryThrows(k) && world.cleanup(k) == Confirmed && !world.overran(k) && Steady(world, k, |prefix|)
  }

  ghost predicate AllUntroubled(world: World, visited: seq<seq<string>>) {
    forall k :: 0 <= k < |visited| ==> Untroubled(world, k, visited[k])
  }

  /** All but perhaps the last. */
  ghost predicate EarlierUntroubled(world: World, visited: seq<seq<string>>) {
    forall k :: 0 <= k < |visited| - 1 ==> Untroubled(world, k, visited[k])
  }

  lemma {:induction false} UntroubledAppend(world: World, visited: seq<seq<string>>, prefix: seq<string>)
    requires AllUntroubled(world, visited)
    ensures EarlierUntroubled(world, visited + [prefix])
    ensures Untroubled(world, |visited|, prefix) ==> AllUntroubled(world, visited + [prefix])
  {
    hide Untroubled;
  }

  /** What the reasons that end a run in its tracks say about run `k`, the replay of `prefix`. */
  ghost predicate Spoiled(world: World, polls: nat, e: Evidence, k: nat, prefix: seq<string>, maxEvidenceBytes: nat) {
    match e.stopReason
    case TotalTimeout => Struck(world.late, polls)
    case FactoryFailed => world.factoryThrows(k)
    case CleanupIncomplete => !world.factoryThrows(k) && world.cleanup(k) != Confirmed
    case CallbackTimeout => !world.factoryThrows(k) && world.cleanup(k) == Confirmed && world.overran(k)
    case ExecutionFailed =>
      !world.factoryThrows(k) && world.cleanup(k) == Confirmed && !world.overran(k) && !Steady(world, k, |prefix|)
    case EvidenceExhausted => Overfull(e, Retained(k, prefix, world.rowBytes(k)), maxEvidenceBytes)
    case _ => false
  }

  /** What each reason to stop says: about the tree, about the clock, or about the last run. */
  ghost predicate Explains(program: Program, maxRuns: nat, depth: nat, maxEvidenceBytes: nat, world: World, polls: nat,
                           e: Evidence, visited: seq<seq<string>>) {
    match e.stopReason
    case NotStopped => false
    case TotalTimeout => Struck(world.late, polls)
    case RunBound => |visited| == maxRuns && visited < Preorder(program, depth, [])
    case PrefixBound => |Preorder(program, depth, [])| > MAX_STACK
    case DecisionBound => visited != [] && |visited[|visited| - 1]| == depth && program(visited[|visited| - 1]).Open?
    case _ => visited != [] && Spoiled(world, polls, e, |visited| - 1, visited[|visited| - 1], maxEvidenceBytes)
  }

  /** The explanation outlives further looks at the clock. */
  lemma {:induction false} StillExplains(program: Program, maxRuns: nat, depth: nat, maxEvidenceBytes: nat, world: World,
                                         polls: nat, more: nat, e: Evidence, f: Evidence, visited: seq<seq<string>>)
    requires Explains(program, maxRuns, depth, maxEvidenceBytes, world, polls, e, visited) && polls <= more
    requires f.stopReason == e.stopReason && f.rows == e.rows
    requires f.runs == e.runs && f.terminals == e.terminals && f.deadlocks == e.deadlocks
    ensures Explains(program, maxRuns, depth, maxEvidenceBytes, world, more, f, visited)
  {
    hide Preorder, Steady, EvidenceBytes, Struck;
    if Struck(world.late, polls) { LaterPolls(world.late, polls, more); }
    assert forall row, flag :: Tried(f, row, flag) == Tried(e, row, flag);
  }

  // ----- the explorer ----------------------------------------------------------------

  class Exploration {
    const program: Program
    const maxRuns: nat
    const maxDecisions: nat
    const maxEvidenceBytes: nat
    const world: World
    var prefixes: seq<seq<string>>
    var complete: bool
    var evidenceComplete: bool
    var totalBudgetExceeded: bool
    var runs: nat
    var terminals: nat
    var deadlocks: nat
    var stopReason: StopReason
    var rows: seq<Row>
    var polls: nat
    ghost var visited: seq<seq<string>>

    function Snapshot(): Evidence
      reads this
    {
      Evidence(complete && prefixes == [], runs, terminals, deadlocks, evidenceComplete, stopReason, totalBudgetExceeded, rows)
    }

    ghost function Base(): nat
      reads this
    {
      BaseBytes(rows, runs, terminals, deadlocks)
    }

    /** The budget is exceeded exactly when a look at the clock has found it so. */
    ghost predicate Timed()
      reads `totalBudgetExceeded, `polls, `complete, `stopReason
    {
      (totalBudgetExceeded <==> Struck(world.late, polls)) && (complete <==> stopReason == NotStopped)
      && (complete ==> !totalBudgetExceeded)
    }

    ghost predicate Recorded()
      reads this
    {
      && Timed() && (complete ==> evidenceComplete)
      && |visited| == |rows| == runs <= maxRuns <= MAX_RUNS && terminals <= runs && deadlocks <= runs
      && Listed(rows, visited, world.rowBytes, evidenceComplete)
    }

    ghost predicate Running()
      reads this
    {
      && Recorded() && complete && AllUntroubled(world, visited)
      && Explored(program, maxDecisions, visited, prefixes, terminals, deadlocks)
      && Base() + 267 <= maxEvidenceBytes
    }

    ghost predicate Ended()
      reads this
    {
      && Recorded() && !complete && EarlierUntroubled(world, visited)
      && visited <= Preorder(program, maxDecisions, [])
      && Explains(program, maxRuns, maxDecisions, maxEvidenceBytes, world, polls, Snapshot(), visited)
      && Base() + 33 <= maxEvidenceBytes
    }

    /** The loop is over: with an empty stack, or for a reason. */
    ghost predicate Closed()
      reads this
    {
      if complete then Running() && prefixes == [] else Ended()
    }

    constructor (program: Program, maxRuns: nat, maxDecisions: nat, maxEvidenceBytes: nat, world: World)
      requires maxRuns <= MAX_RUNS
      ensures this.program == program && this.maxRuns == maxRuns && this.maxDecisions == maxDecisions
      ensures this.maxEvidenceBytes == maxEvidenceBytes && this.world == world
      ensures prefixes == [[]] && Snapshot() == NOTHING_YET
      ensures EvidenceBytes(Snapshot()) + FAILURE_RESERVE <= maxEvidenceBytes ==> Running()
    {
      hide BaseBytes, EvidenceBytes;
      this.program, this.maxRuns, this.maxDecisions, this.maxEvidenceBytes := program, maxRuns, maxDecisions, maxEvidenceBytes;
      this.world, polls := world, 0;
      prefixes, rows, visited := [[]], [], [];
      complete, evidenceComplete, totalBudgetExceeded := true, true, false;
      runs, terminals, deadlocks, stopReason := 0, 0, 0, NotStopped;
      new;
      NothingExplored(program, maxDecisions);
      FlagBytes(Snapshot());
    }

    method Stop(reason: StopReason)
      requires reason != NotStopped
      modifies `complete, `stopReason
      ensures !complete
      ensures stopReason == if old(stopReason) == NotStopped then reason else old(stopReason)
    {
      complete := false;
      if stopReason == NotStopped { stopReason := reason; }
    }

    /** Looks at the clock. */
    method Expired() returns (expired: bool)
      requires Timed()
      modifies `complete, `stopReason, `totalBudgetExceeded, `polls
      ensures Timed() && polls == old(polls) + 1 && expired == world.late(old(polls))
      ensures expired ==> totalBudgetExceeded && !complete
      ensures stopReason == if expired && old(stopReason) == NotStopped then TotalTimeout else old(stopReason)
      ensures !expired ==> totalBudgetExceeded == old(totalBudgetExceeded)
    {
      hide Struck;
      OneMorePoll(world.late, polls);
      expired := world.late(polls);
      polls := polls + 1;
      if expired {
        totalBudgetExceeded := true;
        Stop(TotalTimeout);
      }
    }

    /** Keeps the row when the evidence with it still leaves the reserve; otherwise a
        short omission row takes its place, and the reserve pays for that row. */
    method RetainRow(prefix: seq<string>, cleanup: Cleanup) returns (retained: bool)
      requires 0 < runs <= MAX_RUNS && |rows| == runs - 1 && Timed() && evidenceComplete
      requires Base() + 266 <= maxEvidenceBytes
      modifies `rows, `evidenceComplete, `complete, `stopReason
      ensures Timed() && |rows| == runs && rows[..runs - 1] == old(rows)
      ensures retained ==> complete == old(complete) && evidenceComplete && stopReason == old(stopReason)
      ensures retained ==> rows[runs - 1] == Retained(runs - 1, prefix, world.rowBytes(runs - 1))
      ensures retained ==> Base() + 268 <= maxEvidenceBytes
      ensures !retained ==> stopReason == if old(stopReason) == NotStopped then EvidenceExhausted else old(stopReason)
      ensures !retained ==> !complete && !evidenceComplete && rows[runs - 1] == Omitted(runs - 1, cleanup)
      ensures !retained && old(stopReason) == NotStopped ==>
                Overfull(Snapshot(), Retained(runs - 1, prefix, world.rowBytes(runs - 1)), maxEvidenceBytes)
      ensures Base() + 33 <= maxEvidenceBytes
    {
      hide BaseBytes, EvidenceBytes, Struck, Overfull, Tried;
      ghost var before, reason := rows, stopReason;
      var row := Retained(runs - 1, prefix, world.rowBytes(runs - 1));
      rows := rows + [row];
      FlagBytes(Snapshot());
      if EvidenceBytes(Snapshot()) + FAILURE_RESERVE <= maxEvidenceBytes { return true; }
      ghost var tried := Snapshot();
      rows := rows[..|rows| - 1];
      assert rows == before;
      evidenceComplete := false;
      Stop(EvidenceExhausted);
      OmissionGrowth(rows, runs, terminals, deadlocks, cleanup);
      rows := rows + [Omitted(runs - 1, cleanup)];
      if reason == NotStopped { DoesNotFit(Snapshot(), before, row, tried, maxEvidenceBytes); }
      return false;
    }

    /** Replays `prefix` into a fresh execution, one decision at a time. The deadline and
        failures may strike anywhere; undisturbed, the program shows the node of the prefix. */
    method Replay(prefix: seq<string>) returns (attempt: Attempt)
      requires InTree(program, prefix) && Timed() && runs > 0
      modifies `complete, `stopReason, `totalBudgetExceeded, `polls
      ensures Timed()
      ensures stopReason != old(stopReason) ==> stopReason == TotalTimeout
      ensures complete <==> old(complete) && !totalBudgetExceeded
      ensures attempt.cleanup == world.cleanup(runs - 1) && attempt.budgetExceeded == world.overran(runs - 1)
      ensures attempt.outcome == Failed ==> !Steady(world, runs - 1, |prefix|)
      ensures complete && attempt.outcome != Failed ==> Steady(world, runs - 1, |prefix|)
      ensures complete && attempt.outcome == ControlledDeadlock ==> program(prefix) == Deadlocked
      ensures complete && attempt.outcome == Completed ==>
                if attempt.finished then program(prefix) == Finished else program(prefix) == Open(attempt.enabled)
    {
      hide InTree, Struck, Steady;
      SteadyOn(world, runs - 1, 0, |prefix|);
      var outcome := if world.disturbed(runs - 1, 0) then Failed else Completed;
      var late := Expired();
      var i := 0;
      while i < |prefix|
        invariant 0 <= i <= |prefix| && outcome != ControlledDeadlock
        invariant Timed()
        invariant stopReason != old(stopReason) ==> stopReason == TotalTimeout
        invariant complete <==> old(complete) && !totalBudgetExceeded
        invariant if outcome == Failed then !Steady(world, runs - 1, |prefix|) else Steady(world, runs - 1, i)
        decreases |prefix| - i, if outcome == Completed then 1 else 0
      {
        if !complete || outcome != Completed { break; }
        late := Expired();
        if late { break; }
        Ancestor(program, prefix, i);
        SteadyOn(world, runs - 1, i + 1, |prefix|);
        if world.disturbed(runs - 1, i + 1) || !(program(prefix[..i]).Open? && prefix[i] in program(prefix[..i]).enabled) {
          outcome := Failed;
        } else {
          i := i + 1;
        }
        late := Expired();
      }
      var node := program(prefix[..i]);
      if outcome == Completed && node == Deadlocked { outcome := ControlledDeadlock; }
      late := Expired();
      late := Expired();
      assert i == |prefix| ==> prefix[..i] == prefix;
      attempt := Attempt(outcome, node == Finished, if node.Open? then node.enabled else [], world.cleanup(runs - 1), world.overran(runs - 1));
    }

    /** Pushes the enabled choices in reverse, so that the first one is popped first. */
    method PushChoices(prefix: seq<string>, enabled: seq<string>)
      modifies `prefixes
      ensures prefixes == old(prefixes) + Pushed(prefix, enabled, 0)
    {
      var i := |enabled|;
      while i > 0
        invariant 0 <= i <= |enabled|
        invariant prefixes == old(prefixes) + Pushed(prefix, enabled, i)
      {
        i := i - 1;
        prefixes := prefixes + [prefix + [enabled[i]]];
      }
    }

    /** The exploration loop. It ends with an empty stack, or for a reason that holds. */
    method Loop() returns (late: bool)
      requires Running()
      modifies this
      ensures Closed()
    {
      hide Explored, Preorder, InTree, BaseBytes, Listed, AllUntroubled, EarlierUntroubled;
      late := false;
      while prefixes != []
        invariant Running()
        decreases maxRuns - runs
      {
        PopTop(program, maxDecisions, visited, prefixes, terminals, deadlocks);
        TreeAboveTheStack(program, maxDecisions, visited, prefixes, terminals, deadlocks);
        AllAndEarlier(world, visited);
        late := Expired();
        if late { return; }
        if runs >= maxRuns { Stop(RunBound); return; }
        if |prefixes| > MAX_STACK { Stop(PrefixBound); return; }
        var again := Iterate();
        if !again { return; }
      }
    }

    /** A look at the clock after the loop: even now the deadline takes completeness away. */
    method LookAgain() returns (late: bool)
      requires Closed()
      modifies `complete, `stopReason, `totalBudgetExceeded, `polls
      ensures Closed() && (late ==> Struck(world.late, polls))
      ensures !late ==> Snapshot() == old(Snapshot()) && (Struck(world.late, polls) <==> Struck(world.late, old(polls)))
    {
      hide Explored, Preorder, BaseBytes, Listed, AllUntroubled, EarlierUntroubled, Struck, Spoiled;
      ghost var e, looks := Snapshot(), polls;
      if complete {
        ExploredAll(program, maxDecisions, visited, terminals, deadlocks);
        AllAndEarlier(world, visited);
      }
      late := Expired();
      if e.stopReason != NotStopped {
        hide Explains;
        StillExplains(program, maxRuns, maxDecisions, maxEvidenceBytes, world, looks, polls, e, Snapshot(), visited);
      }
    }

    /** The evidence is taken, and taken again if the deadline has passed by then. */
    method Conclude() returns (evidence: Evidence)
      requires Closed()
      modifies `complete, `stopReason, `totalBudgetExceeded, `polls
      ensures Closed() && evidence == Snapshot()
    {
      hide Ended, Running;
      var late := LookAgain();
      evidence := Snapshot();
      late := LookAgain();
      if late { evidence := Snapshot(); }
    }

    /** One turn of the exploration loop: pop, run, branch. */
    method Iterate() returns (again: bool)
      requires Running() && prefixes != [] && runs < maxRuns
      modifies this
      ensures runs == old(runs) + 1
      ensures again ==> Running()
      ensures !again ==> Ended()
    {
      hide Explored, Preorder, InTree, BaseBytes, Pushed, Listed, AllUntroubled, EarlierUntroubled, Untroubled, Struck, Spoiled;
      ghost var stack, seen := prefixes, visited;
      PopTop(program, maxDecisions, visited, prefixes, terminals, deadlocks);
      var prefix := prefixes[|prefixes| - 1];
      prefixes := prefixes[..|prefixes| - 1];
      CounterGrowth(rows, runs, terminals, deadlocks);
      runs := runs + 1;
      visited := visited + [prefix];
      UntroubledAppend(world, seen, prefix);
      var usable, attempt := Run(prefix, seen);
      if !usable {
        SpoiledExplains(program, maxRuns, maxDecisions, maxEvidenceBytes, world, polls, Snapshot(), visited);
        return false;
      }
      again := Expand(prefix, attempt, seen, stack);
    }

    /** Acquires an adapter, replays the prefix and leaves exactly one row for the attempt.
        The attempt is usable when nothing stopped the exploration meanwhile. */
    method Run(prefix: seq<string>, ghost seen: seq<seq<string>>) returns (usable: bool, attempt: Attempt)
      requires complete && evidenceComplete && Timed()
      requires InTree(program, prefix) && Listed(rows, seen, world.rowBytes, true)
      requires 0 < runs <= MAX_RUNS && |rows| == runs - 1 && Base() + 266 <= maxEvidenceBytes
      modifies `rows, `evidenceComplete, `complete, `stopReason, `totalBudgetExceeded, `polls
      ensures usable == complete && Timed() && (complete ==> evidenceComplete)
      ensures |rows| == runs && Listed(rows, seen + [prefix], world.rowBytes, evidenceComplete)
      ensures Base() + (if usable then 268 else 33) <= maxEvidenceBytes
      ensures if usable then Untroubled(world, runs - 1, prefix)
              else Spoiled(world, polls, Snapshot(), runs - 1, prefix, maxEvidenceBytes)
      ensures usable ==> attempt.outcome != Failed
      ensures usable && attempt.outcome == ControlledDeadlock ==> program(prefix) == Deadlocked
      ensures usable && attempt.outcome == Completed ==>
                if attempt.finished then program(prefix) == Finished else program(prefix) == Open(attempt.enabled)
    {
      hide InTree, BaseBytes, EvidenceBytes, Listed, Struck, Steady, Spoiled, Untroubled, Overfull;
      ghost var before := rows;
      attempt := Acquire(prefix);
      ghost var e, looks := Snapshot(), polls;
      var retained := RetainRow(prefix, attempt.cleanup);
      ghost var f := Snapshot();
      assert !complete ==> Spoiled(world, polls, f, runs - 1, prefix, maxEvidenceBytes) by {
        if e.stopReason == NotStopped {
          if !retained { ExhaustedSpoils(world, polls, f, runs - 1, prefix, maxEvidenceBytes); }
        } else {
          NotExhausted(world, looks, e, f, runs - 1, prefix, maxEvidenceBytes);
        }
      }
      ListedAppend(before, rows, seen, prefix, world.rowBytes, evidenceComplete);
      var late := Expired();
      if f.stopReason != NotStopped {
        StillSpoiled(world, looks, polls, f, Snapshot(), runs - 1, prefix, maxEvidenceBytes);
      } else if late {
        TimeoutSpoils(world, polls, Snapshot(), runs - 1, prefix, maxEvidenceBytes);
      }
      usable := complete && retained;
    }

    /** Acquires an adapter and replays the prefix, up to the verdict on the attempt. */
    method Acquire(prefix: seq<string>) returns (attempt: Attempt)
      requires complete && Timed() && InTree(program, prefix) && runs > 0
      modifies `complete, `stopReason, `totalBudgetExceeded, `polls
      ensures Timed() && stopReason != EvidenceExhausted
      ensures if complete then Untroubled(world, runs - 1, prefix)
              else Spoiled(world, polls, Snapshot(), runs - 1, prefix, maxEvidenceBytes)
      ensures complete ==> attempt.outcome != Failed
      ensures complete && attempt.outcome == ControlledDeadlock ==> program(prefix) == Deadlocked
      ensures complete && attempt.outcome == Completed ==>
                if attempt.finished then program(prefix) == Finished else program(prefix) == Open(attempt.enabled)
    {
      hide InTree, EvidenceBytes, Struck, Steady, Overfull;
      attempt := Attempt(Failed, false, [], NotStarted, false);
      var late := false;
      if world.factoryThrows(runs - 1) {
        Stop(FactoryFailed);
        late := Expired();
        return;
      }
      late := Expired();
      if late { return; }
      attempt := Replay(prefix);
      if attempt.cleanup != Confirmed {
        Stop(CleanupIncomplete);
      } else if attempt.budgetExceeded {
        Stop(CallbackTimeout);
      } else if attempt.outcome == Failed {
        Stop(ExecutionFailed);
      }
    }

    /** Counts a leaf, or pushes the choices of an open node that may still be extended. */
    method Expand(prefix: seq<string>, attempt: Attempt, ghost seen: seq<seq<string>>, ghost stack: seq<seq<string>>)
      returns (again: bool)
      requires Recorded() && complete && Base() + 268 <= maxEvidenceBytes && AllUntroubled(world, visited)
      requires Explored(program, maxDecisions, seen, stack, terminals, deadlocks)
      requires stack != [] && prefix == stack[|stack| - 1] && prefixes == stack[..|stack| - 1] && visited == seen + [prefix]
      requires attempt.outcome != Failed
      requires attempt.outcome == ControlledDeadlock ==> program(prefix) == Deadlocked
      requires attempt.outcome == Completed ==>
                 if attempt.finished then program(prefix) == Finished else program(prefix) == Open(attempt.enabled)
      modifies `prefixes, `terminals, `deadlocks, `complete, `stopReason
      ensures again ==> Running()
      ensures !again ==> Ended()
    {
      hide Explored, Preorder, InTree, BaseBytes, Pushed, Listed, AllUntroubled, EarlierUntroubled, Spoiled, Struck;
      ghost var finished, stuck := terminals, deadlocks;
      PopTop(program, maxDecisions, seen, stack, terminals, deadlocks);
      CounterGrowth(rows, runs, terminals, deadlocks);
      AllAndEarlier(world, visited);
      if attempt.outcome == ControlledDeadlock {
        deadlocks := deadlocks + 1;
      } else if attempt.finished {
        terminals := terminals + 1;
      } else if |prefix| >= maxDecisions {
        Stop(DecisionBound);
        return false;
      } else {
        PushChoices(prefix, attempt.enabled);
      }
      VisitTop(program, maxDecisions, seen, stack, finished, stuck);
      LeavesAreVisited(program, maxDecisions, visited, prefixes, terminals, deadlocks);
      return true;
    }
  }

  lemma {:induction false} AllAndEarlier(world: World, visited: seq<seq<string>>)
    requires AllUntroubled(world, visited)
    ensures EarlierUntroubled(world, visited)
  {
    hide Untroubled;
  }

  lemma {:induction false} SpoiledExplains(program: Program, maxRuns: nat, depth: nat, maxEvidenceBytes: nat, world: World,
                                           polls: nat, e: Evidence, visited: seq<seq<string>>)
    requires visited != [] && Spoiled(world, polls, e, |visited| - 1, visited[|visited| - 1], maxEvidenceBytes)
    ensures Explains(program, maxRuns, depth, maxEvidenceBytes, world, polls, e, visited)
  {
    hide Preorder, Steady, Overfull, Struck;
  }

  lemma {:induction false} ExhaustedSpoils(world: World, polls: nat, e: Evidence, k: nat, prefix: seq<string>, maxEvidenceBytes: nat)
    requires e.stopReason == EvidenceExhausted && Overfull(e, Retained(k, prefix, world.rowBytes(k)), maxEvidenceBytes)
    ensures Spoiled(world, polls, e, k, prefix, maxEvidenceBytes)
  {
    hide Steady, Overfull, Struck;
  }

  lemma {:induction false} TimeoutSpoils(world: World, polls: nat, e: Evidence, k: nat, prefix: seq<string>, maxEvidenceBytes: nat)
    requires e.stopReason == TotalTimeout && Struck(world.late, polls)
    ensures Spoiled(world, polls, e, k, prefix, maxEvidenceBytes)
  {
    hide Steady, Overfull, Struck;
  }

  /** Any other reason does not depend on the rows. */
  lemma {:induction false} NotExhausted(world: World, polls: nat, e: Evidence, f: Evidence, k: nat, prefix: seq<string>, maxEvidenceBytes: nat)
    requires Spoiled(world, polls, e, k, prefix, maxEvidenceBytes) && e.stopReason != EvidenceExhausted && f.stopReason == e.stopReason
    ensures Spoiled(world, polls, f, k, prefix, maxEvidenceBytes)
  {
    hide Steady, Overfull, Struck;
  }

  lemma {:induction false} StillSpoiled(world: World, polls: nat, more: nat, e: Evidence, f: Evidence, k: nat, prefix: seq<string>,
                                        maxEvidenceBytes: nat)
    requires Spoiled(world, polls, e, k, prefix, maxEvidenceBytes) && polls <= more
    requires f.stopReason == e.stopReason && f.rows == e.rows
    requires f.runs == e.runs && f.terminals == e.terminals && f.deadlocks == e.deadlocks
    ensures Spoiled(world, more, f, k, prefix, maxEvidenceBytes)
  {
    hide Steady, EvidenceBytes, Struck;
    if Struck(world.late, polls) { LaterPolls(world.late, polls, more); }
    assert forall row, flag :: Tried(f, row, flag) == Tried(e, row, flag);
  }

  /** The evidence before the first run. */
  const NOTHING_YET: Evidence := Evidence(false, 0, 0, 0, true, NotStopped, false, [])

  /** What `explore` hands back: a refusal before any acquisition, or its evidence. */
  datatype Result = Refused | Done(evidence: Evidence)

  /** The nodes of the whole tree, each once and in preorder, are what a complete exploration visits. */
  lemma {:induction false} CompleteMeansEveryNode(program: Program, depth: nat, visited: seq<seq<string>>)
    requires DistinctChoices(program)
    requires visited == Preorder(program, depth, [])
    requires forall p :: p in visited && |p| == depth ==> !program(p).Open?
    ensures forall q :: q in visited <==> InTree(program, q)
    ensures Ordered(program, visited)
    ensures forall a, b :: 0 <= a < b < |visited| ==> visited[a] != visited[b]
  {
    hide InTree, Preorder, Ordered;
    PreorderOfTheTree(program, depth);
    forall q ensures q in visited <==> InTree(program, q) {
      if InTree(program, q) { NothingDeeper(program, depth, q); }
    }
  }

  /** What the end of the loop means for the evidence. */
  lemma {:induction false} Concluded(e: Exploration)
    requires e.Closed()
    ensures EvidenceBytes(e.Snapshot()) <= e.maxEvidenceBytes
    ensures Listed(e.rows, e.visited, e.world.rowBytes, e.evidenceComplete) && e.runs == |e.rows| <= e.maxRuns
    ensures e.Snapshot().complete <==> e.stopReason == NotStopped
    ensures e.totalBudgetExceeded <==> Struck(e.world.late, e.polls)
    ensures e.visited <= Preorder(e.program, e.maxDecisions, []) && EarlierUntroubled(e.world, e.visited)
    ensures e.terminals <= e.runs && e.deadlocks <= e.runs
    ensures !e.complete ==>
              Explains(e.program, e.maxRuns, e.maxDecisions, e.maxEvidenceBytes, e.world, e.polls, e.Snapshot(), e.visited)
    ensures e.complete ==>
              && e.visited == Preorder(e.program, e.maxDecisions, []) && e.prefixes == []
              && e.evidenceComplete && !Struck(e.world.late, e.polls) && AllUntroubled(e.world, e.visited)
              && e.terminals == Tally(e.program, e.visited, Finished)
              && e.deadlocks == Tally(e.program, e.visited, Deadlocked)
              && (forall p :: p in e.visited && |p| == e.maxDecisions ==> !e.program(p).Open?)
  {
    hide Explored, Preorder, EvidenceBytes, BaseBytes, Listed, Explains, AllUntroubled, EarlierUntroubled, Struck, Tally;
    if e.complete {
      ExploredAll(e.program, e.maxDecisions, e.visited, e.terminals, e.deadlocks);
      AllAndEarlier(e.world, e.visited);
    }
    FlagBytes(e.Snapshot());
  }

  /** Nothing outside ever gets in the way. */
  ghost predicate Calm(world: World) {
    && (forall n :: !world.late(n)) && (forall k :: !world.factoryThrows(k) && world.cleanup(k) == Confirmed && !world.overran(k))
    && (forall k, i :: !world.disturbed(k, i))
  }

  /** The tree is within every bound: runs, stack, decisions and evidence. */
  ghost predicate WithinBounds(program: Program, maxRuns: nat, depth: nat, maxEvidenceBytes: nat, sizes: nat -> nat) {
    var nodes := Preorder(program, depth, []);
    && |nodes| <= maxRuns <= MAX_RUNS && |nodes| <= MAX_STACK && (forall p :: p in nodes && |p| == depth ==> !program(p).Open?)
    && Roomy(sizes, |nodes|, maxEvidenceBytes)
  }

  /** In a calm world no reason to stop can be given for a tree within the bounds. */
  lemma {:induction false} NothingInTheWay(program: Program, maxRuns: nat, depth: nat, maxEvidenceBytes: nat, world: World, polls: nat,
                                           e: Evidence, visited: seq<seq<string>>)
    requires Calm(world) && WithinBounds(program, maxRuns, depth, maxEvidenceBytes, world.rowBytes)
    requires visited <= Preorder(program, depth, []) && Listed(e.rows, visited, world.rowBytes, e.evidenceComplete)
    requires e.runs == |e.rows| && e.terminals <= e.runs && e.deadlocks <= e.runs
    ensures !Explains(program, maxRuns, depth, maxEvidenceBytes, world, polls, e, visited)
  {
    hide Preorder, Roomy, EvidenceBytes, Tried;
    if visited != [] {
      var k := |visited| - 1;
      assert visited[k] in Preorder(program, depth, []);
      var row := Retained(k, visited[k], world.rowBytes(k));
      forall flag: bool ensures EvidenceBytes(Tried(e, row, flag)) + FAILURE_RESERVE <= maxEvidenceBytes {
        RoomForARow(e, row, flag, visited, world.rowBytes, |Preorder(program, depth, [])|, maxEvidenceBytes);
      }
    }
  }

  /** Bounds that hold the whole tree hold the evidence of its start. */
  lemma {:induction false} RoomToBegin(program: Program, maxRuns: nat, depth: nat, maxEvidenceBytes: nat, sizes: nat -> nat)
    requires WithinBounds(program, maxRuns, depth, maxEvidenceBytes, sizes)
    ensures 0 < maxRuns <= MAX_RUNS && EvidenceBytes(NOTHING_YET) + FAILURE_RESERVE <= maxEvidenceBytes
  {
    assert |NotStopped.Text()| == 0;
    MoreRowBytes(sizes, 0, |Preorder(program, depth, [])|);
    assert Preorder(program, depth, [])[0] == [];
  }

  /** The exploration as a whole. Its evidence never exceeds the byte bound. Ending complete, its
      rows are the nodes of the enabled-choice tree in preorder and its counters tally the leaves;
      ending early, its rows are a prefix of that preorder, all but the last run went well, and the
      reason it gives is true. Nothing outside getting in the way, it completes every tree within
      its bounds. */
  method Explore(program: Program, maxRuns: nat, maxDecisions: nat, maxEvidenceBytes: nat, world: World)
    returns (result: Result, ghost visited: seq<seq<string>>, ghost polls: nat)
    ensures result.Refused?
       <==> maxRuns == 0 || maxRuns > MAX_RUNS || EvidenceBytes(NOTHING_YET) + FAILURE_RESERVE > maxEvidenceBytes
    ensures result.Done? ==> EvidenceBytes(result.evidence) <= maxEvidenceBytes
    ensures result.Done? ==> Listed(result.evidence.rows, visited, world.rowBytes, result.evidence.evidenceComplete)
    ensures result.Done? ==> result.evidence.runs == |result.evidence.rows| <= maxRuns
    ensures result.Done? ==> (result.evidence.complete <==> result.evidence.stopReason == NotStopped)
    ensures result.Done? ==> (result.evidence.totalBudgetExceeded <==> Struck(world.late, polls))
    ensures result.Done? ==> visited <= Preorder(program, maxDecisions, []) && EarlierUntroubled(world, visited)
    ensures result.Done? && !result.evidence.complete ==>
              Explains(program, maxRuns, maxDecisions, maxEvidenceBytes, world, polls, result.evidence, visited)
    ensures result.Done? && result.evidence.complete ==>
              && visited == Preorder(program, maxDecisions, [])
              && result.evidence.evidenceComplete && !Struck(world.late, polls) && AllUntroubled(world, visited)
              && result.evidence.terminals == Tally(program, visited, Finished)
              && result.evidence.deadlocks == Tally(program, visited, Deadlocked)
              && (forall p :: p in visited && |p| == maxDecisions ==> !program(p).Open?)
    ensures Calm(world) && WithinBounds(program, maxRuns, maxDecisions, maxEvidenceBytes, world.rowBytes) ==>
              result.Done? && result.evidence.complete
  {
    if WithinBounds(program, maxRuns, maxDecisions, maxEvidenceBytes, world.rowBytes) {
      RoomToBegin(program, maxRuns, maxDecisions, maxEvidenceBytes, world.rowBytes);
    }
    hide WithinBounds, Calm, Preorder, EvidenceBytes, Listed, Explains, AllUntroubled, EarlierUntroubled, Struck, Tally;
    visited, polls := [], 0;
    if maxRuns == 0 || maxRuns > MAX_RUNS { return Refused, visited, polls; }
    var e := new Exploration(program, maxRuns, maxDecisions, maxEvidenceBytes, world);
    if EvidenceBytes(e.Snapshot()) + FAILURE_RESERVE > maxEvidenceBytes { return Refused, visited, polls; }
    var late := e.Loop();
    var evidence := e.Conclude();
    result, visited, polls := Done(evidence), e.visited, e.polls;
    Concluded(e);
    if Calm(world) && WithinBounds(program, maxRuns, maxDecisions, maxEvidenceBytes, world.rowBytes) {
      NothingInTheWay(program, maxRuns, maxDecisions, maxEvidenceBytes, world, polls, result.evidence, visited);
    }
  }
}
