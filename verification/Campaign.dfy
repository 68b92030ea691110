/** The exploration campaign: every enumerated schedule with every declared input goes through a
    runner, and a receipt counts what happened. The runner's replies, the polls of the clock and of
    the stop token and the sizes of the serialized rows are given as functions. */
module Campaigns {
  import opened Schedules
  import opened Counting
  import opened Coverages
  import opened Evidence
  import opened Utf8
  import opened Signals

  datatype StopReason =
    | Unset | Cancelled | TimeBudget | EnumerationLimit | RunLimit | CoverageLimit | EvidenceLimit
    | UnconfirmedCleanup | Complete | NonPassRuns | InvalidDeclaration

  datatype Row = Row(ordinal: nat, candidate: Candidate, category: Category, omitted: bool)

  // ----- the candidates, in order ---------------------------------------------------------------

  /** One schedule with the first `n` inputs. */
  function WithInputs(steps: seq<Step>, n: nat): (r: seq<Candidate>)
    ensures |r| == n
  {
    seq(n, i requires 0 <= i < n => Candidate(steps, i))
  }

  function Product(schedules: seq<seq<Step>>, inputs: nat): (r: seq<Candidate>)
    ensures |r| == |schedules| * inputs
  {
    if schedules == [] then []
    else Product(schedules[..|schedules| - 1], inputs) + WithInputs(schedules[|schedules| - 1], inputs)
  }

  ghost function Candidates(rows: seq<Row>): (r: seq<Candidate>)
    ensures |r| == |rows|
  {
    seq(|rows|, k requires 0 <= k < |rows| => rows[k].candidate)
  }

  // ----- what the counters mean -------------------------------------------------------------------

  ghost function NumberOf(rows: seq<Row>, category: Category): nat {
    if rows == [] then 0
    else NumberOf(rows[..|rows| - 1], category) + if rows[|rows| - 1].category == category then 1 else 0
  }

  ghost predicate Counted(rows: seq<Row>, categories: map<Category, nat>) {
    && (forall c :: CountAt(categories, c) == NumberOf(rows, c))
    && TotalCount(categories) == |rows|
  }

  ghost predicate AllPassed(rows: seq<Row>) {
    forall k :: 0 <= k < |rows| ==> rows[k].category == Passed
  }

  /** What the two first-of-a-kind entries look for. */
  predicate Wanted(category: Category, mismatch: bool) {
    if mismatch then category == ModelMismatch else category != Passed
  }

  ghost predicate First(rows: seq<Row>, first: Option<nat>, mismatch: bool) {
    && (first.Some? ==> first.value < |rows| && Wanted(rows[first.value].category, mismatch))
    && forall k :: 0 <= k < (if first.Some? then first.value else |rows|) ==> !Wanted(rows[k].category, mismatch)
  }

  ghost predicate Ordinals(rows: seq<Row>) {
    forall k :: 0 <= k < |rows| ==> rows[k].ordinal == k
  }

  /** Only a last row can lack its evidence or be too much for the coverage. */
  ghost predicate Retained(rows: seq<Row>) {
    forall k :: 0 <= k < |rows| - 1 ==> !rows[k].omitted && rows[k].category != CoverageFailed
  }

  ghost predicate AllRetained(rows: seq<Row>) {
    forall k :: 0 <= k < |rows| ==> !rows[k].omitted && rows[k].category != CoverageFailed
  }

  /** A row lacks its evidence exactly when that would not have fitted. */
  ghost predicate OmittedExactly(rows: seq<Row>, sizes: nat -> nat, maxBytes: nat) {
    forall k :: 0 <= k < |rows| ==> (rows[k].omitted <==> sizes(k) > maxBytes - RetainedBytes(rows[..k], sizes))
  }

  ghost predicate Serialized(rows: seq<Row>, runner: nat -> Reply) {
    forall k :: 0 <= k < |rows| ==> RowDumps(runner(k), rows[k].category)
  }

  /** No kept row has a message that was cut inside a character, so a run that throws one ends the
      campaign. */
  lemma {:induction false} CutMessageEndsIt(rows: seq<Row>, runner: nat -> Reply, k: nat)
    requires Serialized(rows, runner) && runner(k).Threw? && runner(k).kind == StandardError
    requires !ValidText(Clip(runner(k).message, MAX_ERROR))
    ensures |rows| <= k
  {
    hide ValidText, Clip;
    assert forall category :: !RowDumps(runner(k), category);
  }

  ghost function RetainedBytes(rows: seq<Row>, sizes: nat -> nat): nat {
    if rows == [] then 0
    else
      var n := |rows| - 1;
      RetainedBytes(rows[..n], sizes) + if rows[n].omitted then 0 else sizes(n)
  }

  /** The identities that the first `n` replies came with. */
  ghost function IdsBefore(runner: nat -> Reply, n: nat): set<string> {
    if n == 0 then {}
    else
      var reply := runner(n - 1);
      IdsBefore(runner, n - 1) + if reply.Sample? && reply.execution.id.Some? then {reply.execution.id.value} else {}
  }

  /** Every row's category is one that its reply stands for. */
  ghost predicate AllStand(lens: Lens, rows: seq<Row>, runner: nat -> Reply, declared: map<string, string>, needsComparison: bool) {
    forall k :: 0 <= k < |rows| ==>
      Stands(lens, rows[k].category, runner(k), rows[k].candidate, declared, IdsBefore(runner, k), needsComparison)
  }

  /** The first reply, if any, that reports a consistent disagreement with the model. */
  ghost predicate FirstMismatch(rows: seq<Row>, runner: nat -> Reply, declared: map<string, string>, first: Option<nat>) {
    && (first.Some? ==> first.value < |rows| && MismatchAt(rows, runner, declared, first.value))
    && forall k :: 0 <= k < (if first.Some? then first.value else |rows|) ==> !MismatchAt(rows, runner, declared, k)
  }

  /** Run `k` was cleaned up, under a new identity, and its comparison says that a step mismatched. */
  ghost predicate MismatchAt(rows: seq<Row>, runner: nat -> Reply, declared: map<string, string>, k: nat)
    requires k < |rows|
  {
    Identified(runner(k), rows[k].candidate, declared, IdsBefore(runner, k))
    && SaysClean(runner(k).execution) && Mismatches(runner(k))
  }

  /** The counterexample of a receipt is the first run whose reply was a mismatch. */
  lemma {:induction false} CounterexampleIsMismatch(lens: Lens, rows: seq<Row>, runner: nat -> Reply, declared: map<string, string>,
                                                    needsComparison: bool, first: Option<nat>)
    requires AllStand(lens, rows, runner, declared, needsComparison) && First(rows, first, true)
    ensures FirstMismatch(rows, runner, declared, first)
  {
    hide Stands, MismatchAt;
    forall k | 0 <= k < |rows| ensures rows[k].category == ModelMismatch <==> MismatchAt(rows, runner, declared, k) {
      OnlyMismatches(lens, rows, runner, declared, needsComparison, k);
    }
  }

  lemma {:induction false} OnlyMismatches(lens: Lens, rows: seq<Row>, runner: nat -> Reply, declared: map<string, string>,
                                          needsComparison: bool, k: nat)
    requires k < |rows|
    requires Stands(lens, rows[k].category, runner(k), rows[k].candidate, declared, IdsBefore(runner, k), needsComparison)
    ensures rows[k].category == ModelMismatch <==> MismatchAt(rows, runner, declared, k)
  {
    hide Validated, Presentable, ValidId, IdsBefore;
  }

  /** Passing rows are genuine passes. */
  lemma {:induction false} StandingPasses(lens: Lens, rows: seq<Row>, runner: nat -> Reply, declared: map<string, string>, needsComparison: bool)
    requires AllStand(lens, rows, runner, declared, needsComparison)
    ensures Genuine(lens, rows, runner, declared, needsComparison)
  {
    hide Stands, GenuinePass;
    forall k | 0 <= k < |rows| && rows[k].category == Passed
      ensures GenuinePass(lens, runner(k), rows[k].candidate, declared, needsComparison)
    {
      PassedIsGenuine(lens, runner(k), rows[k].candidate, declared, IdsBefore(runner, k), needsComparison);
    }
  }

  /** A last row that was too much for the coverage found no room in it. */
  ghost predicate CrowdedLast(lens: Lens, rows: seq<Row>, runner: nat -> Reply, stateRows: seq<string>, transitions: map<Edge, nat>) {
    rows != [] && rows[|rows| - 1].category == CoverageFailed && runner(|rows| - 1).Sample? ==>
      Crowded(lens, runner(|rows| - 1), stateRows, transitions)
  }

  ghost predicate Crowded(lens: Lens, reply: Reply, stateRows: seq<string>, transitions: map<Edge, nat>) {
    reply.Sample? && reply.execution.observations.Some? && Crowds(lens, reply.execution.observations.value, stateRows, transitions)
  }

  /** A passing row stands on genuine evidence for its own candidate. */
  ghost predicate Genuine(lens: Lens, rows: seq<Row>, runner: nat -> Reply, declared: map<string, string>, needsComparison: bool) {
    forall k :: 0 <= k < |rows| && rows[k].category == Passed ==>
      GenuinePass(lens, runner(k), rows[k].candidate, declared, needsComparison)
  }

  /** The first `n` runs have confirmed cleanup and pairwise distinct execution ids, all in `ids`. */
  ghost predicate Settled(runner: nat -> Reply, n: nat, ids: set<string>) {
    && (forall k :: 0 <= k < n ==> Clean(runner(k)) && runner(k).execution.id.value in ids)
    && (forall j, k :: 0 <= j < k < n ==> runner(j).execution.id != runner(k).execution.id)
  }

  // ----- coverage of whole campaigns --------------------------------------------------------------------

  ghost function AllMoves(lens: Lens, runner: nat -> Reply, n: nat): seq<Move> {
    if n == 0 then [] else AllMoves(lens, runner, n - 1) + Moves(RunTexts(lens, runner(n - 1)))
  }

  ghost function AllTexts(lens: Lens, runner: nat -> Reply, n: nat): set<string> {
    if n == 0 then {} else AllTexts(lens, runner, n - 1) + Elements(RunTexts(lens, runner(n - 1)))
  }

  /** Every passing run adds a move per step; while all runs pass, nothing else is there. */
  ghost predicate Conserved(lens: Lens, rows: seq<Row>, runner: nat -> Reply, total: nat, moves: seq<Move>, stateRows: seq<string>) {
    && |moves| >= NumberOf(rows, Passed) * total
    && (AllPassed(rows) ==>
          moves == AllMoves(lens, runner, |rows|) && |moves| == |rows| * total && Elements(stateRows) == AllTexts(lens, runner, |rows|))
  }

  // ----- one row more -----------------------------------------------------------------------------------------

  lemma {:induction false} OneRowMore(rows: seq<Row>, row: Row)
    ensures forall c :: NumberOf(rows + [row], c) == NumberOf(rows, c) + if c == row.category then 1 else 0
    ensures AllPassed(rows + [row]) <==> AllPassed(rows) && row.category == Passed
    ensures Candidates(rows + [row]) == Candidates(rows) + [row.candidate]
  {
    var all := rows + [row];
    assert all[..|all| - 1] == rows;
    if AllPassed(all) {
      assert all[|rows|] == row;
      assert forall k :: 0 <= k < |rows| ==> rows[k] == all[k];
    }
  }

  lemma {:induction false} CountOneMore(rows: seq<Row>, row: Row, categories: map<Category, nat>)
    requires Counted(rows, categories)
    ensures Counted(rows + [row], categories[row.category := CountAt(categories, row.category) + 1])
  {
    OneRowMore(rows, row);
    TotalAfterBump(categories, row.category);
    hide NumberOf, TotalCount;
  }

  lemma {:induction false} FirstOneMore(rows: seq<Row>, row: Row, first: Option<nat>, mismatch: bool)
    requires First(rows, first, mismatch)
    ensures First(rows + [row], if first.None? && Wanted(row.category, mismatch) then Some(|rows|) else first, mismatch)
  {
  }

  lemma {:induction false} AllOfThemPassed(rows: seq<Row>)
    ensures NumberOf(rows, Passed) <= |rows|
    ensures NumberOf(rows, Passed) == |rows| <==> AllPassed(rows)
  {
    if rows != [] {
      var init := rows[..|rows| - 1];
      AllOfThemPassed(init);
      assert rows == init + [rows[|rows| - 1]];
      OneRowMore(init, rows[|rows| - 1]);
    }
  }

  lemma {:induction false} ConservedOneMore(lens: Lens, rows: seq<Row>, row: Row, runner: nat -> Reply, total: nat,
                                            moves: seq<Move>, stateRows: seq<string>, moves': seq<Move>, stateRows': seq<string>)
    requires Conserved(lens, rows, runner, total, moves, stateRows) && moves <= moves'
    requires row.category == Passed ==>
               moves' == moves + Moves(RunTexts(lens, runner(|rows|))) && |RunTexts(lens, runner(|rows|))| == total + 1
               && Elements(stateRows') == Elements(stateRows) + Elements(RunTexts(lens, runner(|rows|)))
    ensures Conserved(lens, rows + [row], runner, total, moves', stateRows')
  {
    OneRowMore(rows, row);
    var passed := NumberOf(rows, Passed);
    hide NumberOf, Moves, RunTexts, Elements, AllPassed;
    assert (passed + 1) * total == passed * total + total;
    assert (|rows| + 1) * total == |rows| * total + total;
  }

  lemma {:induction false} SettledOneMore(runner: nat -> Reply, n: nat, ids: set<string>, ids': set<string>)
    requires Settled(runner, n, ids) && ids <= ids'
    ensures Settled(runner, n, ids')
    ensures Clean(runner(n)) && runner(n).execution.id.value in ids' && runner(n).execution.id.value !in ids ==> Settled(runner, n + 1, ids')
  {
  }

  lemma {:induction false} StandOneMore(lens: Lens, rows: seq<Row>, row: Row, runner: nat -> Reply, declared: map<string, string>, needsComparison: bool)
    requires AllStand(lens, rows, runner, declared, needsComparison)
    requires Stands(lens, row.category, runner(|rows|), row.candidate, declared, IdsBefore(runner, |rows|), needsComparison)
    ensures AllStand(lens, rows + [row], runner, declared, needsComparison)
  {
    hide Stands, IdsBefore;
  }

  lemma {:induction false} BytesOneMore(rows: seq<Row>, row: Row, sizes: nat -> nat)
    ensures RetainedBytes(rows + [row], sizes)
         == RetainedBytes(rows, sizes) + if row.omitted then 0 else sizes(|rows|)
  {
    assert (rows + [row])[..|rows|] == rows;
  }

  /** What the counters say about the rows. */
  ghost predicate CountsAgree(rows: seq<Row>, attempted: nat, completed: nat, categories: map<Category, nat>,
                              firstFailure: Option<nat>, firstCounterexample: Option<nat>)
  {
    && attempted == |rows| && completed == NumberOf(rows, Passed)
    && Counted(rows, categories) && First(rows, firstFailure, false) && First(rows, firstCounterexample, true)
  }

  ghost predicate RowsKept(rows: seq<Row>, runner: nat -> Reply, sizes: nat -> nat, maxBytes: nat, bytes: nat) {
    Ordinals(rows) && Serialized(rows, runner) && bytes == RetainedBytes(rows, sizes) && OmittedExactly(rows, sizes, maxBytes)
  }

  /** The counters are one ahead of the rows, by a row that did not serialize. */
  ghost predicate OneLost(lens: Lens, rows: seq<Row>, lost: Row, runner: nat -> Reply, declared: map<string, string>, needsComparison: bool,
                          attempted: nat, completed: nat,
                          categories: map<Category, nat>, firstFailure: Option<nat>, firstCounterexample: Option<nat>)
  {
    && !RowDumps(runner(|rows|), lost.category)
    && AllStand(lens, rows + [lost], runner, declared, needsComparison)
    && CountsAgree(rows + [lost], attempted, completed, categories, firstFailure, firstCounterexample)
  }

  lemma {:induction false} CountsOneMore(rows: seq<Row>, row: Row, attempted: nat, completed: nat, categories: map<Category, nat>,
                                         firstFailure: Option<nat>, firstCounterexample: Option<nat>)
    requires CountsAgree(rows, attempted, completed, categories, firstFailure, firstCounterexample)
    ensures CountsAgree(rows + [row], attempted + 1, if row.category == Passed then completed + 1 else completed,
                        categories[row.category := CountAt(categories, row.category) + 1],
                        if firstFailure.None? && Wanted(row.category, false) then Some(|rows|) else firstFailure,
                        if firstCounterexample.None? && Wanted(row.category, true) then Some(|rows|) else firstCounterexample)
  {
    hide Counted, First, NumberOf, Wanted;
    OneRowMore(rows, row);
    CountOneMore(rows, row, categories);
    FirstOneMore(rows, row, firstFailure, false);
    FirstOneMore(rows, row, firstCounterexample, true);
  }

  lemma {:induction false} KeptOneMore(rows: seq<Row>, row: Row, runner: nat -> Reply, sizes: nat -> nat, maxBytes: nat, bytes: nat)
    requires RowsKept(rows, runner, sizes, maxBytes, bytes) && row.ordinal == |rows| && RowDumps(runner(|rows|), row.category)
    requires row.omitted <==> sizes(|rows|) > maxBytes - bytes
    ensures RowsKept(rows + [row], runner, sizes, maxBytes, if row.omitted then bytes else bytes + sizes(|rows|))
  {
    hide RetainedBytes, RowDumps;
    BytesOneMore(rows, row, sizes);
    var all := rows + [row];
    forall k | 0 <= k < |all| ensures all[k].omitted <==> sizes(k) > maxBytes - RetainedBytes(all[..k], sizes) {
      assert all[..k] == rows[..k];
      assert k == |rows| ==> rows[..k] == rows;
    }
  }

  lemma {:induction false} Attempts(rows: seq<Row>, attempted: nat, completed: nat, categories: map<Category, nat>,
                                    firstFailure: Option<nat>, firstCounterexample: Option<nat>)
    requires CountsAgree(rows, attempted, completed, categories, firstFailure, firstCounterexample)
    ensures attempted == |rows|
  {
  }

  /** What the passing rows stand on. */
  ghost predicate Standing(lens: Lens, rows: seq<Row>, runner: nat -> Reply, declared: map<string, string>, needsComparison: bool, total: nat,
                           moves: seq<Move>, stateRows: seq<string>, comparisonRuns: nat)
  {
    && AllStand(lens, rows, runner, declared, needsComparison)
    && Conserved(lens, rows, runner, total, moves, stateRows)
    && comparisonRuns == ComparedCount(rows, runner, declared)
  }

  /** Run `k` came with a comparison in sound evidence. */
  ghost predicate ComparedIn(row: Row, runner: nat -> Reply, declared: map<string, string>, k: nat) {
    && Identified(runner(k), row.candidate, declared, IdsBefore(runner, k)) && runner(k).comparison.Some?
    && !Unsound(runner(k), row.candidate, declared, IdsBefore(runner, k))
  }

  ghost function ComparedCount(rows: seq<Row>, runner: nat -> Reply, declared: map<string, string>): nat {
    if rows == [] then 0
    else
      var n := |rows| - 1;
      ComparedCount(rows[..n], runner, declared) + if ComparedIn(rows[n], runner, declared, n) then 1 else 0
  }

  lemma {:induction false} ComparedOneMore(rows: seq<Row>, row: Row, runner: nat -> Reply, declared: map<string, string>, needsComparison: bool)
    ensures ComparedCount(rows + [row], runner, declared)
         == ComparedCount(rows, runner, declared)
            + if Examined(runner, |rows|, row.candidate, declared, IdsBefore(runner, |rows|), needsComparison).compared then 1 else 0
  {
    hide Examine, Identified, Unsound, IdsBefore;
    assert (rows + [row])[..|rows|] == rows;
    var reply, ids := runner(|rows|), IdsBefore(runner, |rows|);
    ExaminedNotes(reply, row.candidate, declared, ids, needsComparison);
    ExaminedAsItSays(reply, row.candidate, declared, ids, needsComparison, EvidenceFailed);
  }

  /** When every run has passed and each needed a comparison, each has had one. */
  lemma {:induction false} AllCompared(lens: Lens, rows: seq<Row>, runner: nat -> Reply, declared: map<string, string>, needsComparison: bool)
    requires AllStand(lens, rows, runner, declared, needsComparison) && AllPassed(rows) && needsComparison
    ensures ComparedCount(rows, runner, declared) == |rows|
    decreases |rows|
  {
    if rows != [] {
      var n := |rows| - 1;
      assert Stands(lens, rows[n].category, runner(n), rows[n].candidate, declared, IdsBefore(runner, n), needsComparison);
      PassHasComparison(lens, runner(n), rows[n].candidate, declared, IdsBefore(runner, n));
      hide Stands, IdsBefore, Identified, Unsound;
      AllCompared(lens, rows[..n], runner, declared, needsComparison);
    }
  }

  lemma {:induction false} PassHasComparison(lens: Lens, reply: Reply, candidate: Candidate, declared: map<string, string>, ids: set<string>)
    requires Stands(lens, Passed, reply, candidate, declared, ids, true)
    ensures Identified(reply, candidate, declared, ids) && reply.comparison.Some? && !Unsound(reply, candidate, declared, ids)
  {
    hide Presentable, ValidId;
  }

  /** A reason for which a campaign ends early. */
  predicate Halting(reason: StopReason) {
    reason != Unset && reason != Complete && reason != NonPassRuns && reason != InvalidDeclaration
  }

  /** While the campaign goes on every row is settled and retained; the row that halts it need not be. */
  ghost predicate Accounted(rows: seq<Row>, runner: nat -> Reply, ids: set<string>, halt: bool, reason: StopReason) {
    && (halt ==> Halting(reason))
    && Settled(runner, if halt && rows != [] then |rows| - 1 else |rows|, ids)
    && Retained(rows) && (!halt ==> AllRetained(rows) && ids == IdsBefore(runner, |rows|))
  }

  /** What the reason for an early end says: about the polls, the number of runs, or the last row. */
  ghost predicate HaltedFor(reason: StopReason, rows: seq<Row>, runner: nat -> Reply, declared: map<string, string>, maxRuns: nat,
                            interrupts: Interrupts, polls: Polls)
  {
    match reason
    case Cancelled => Struck(interrupts.stop, polls.stops)
    case TimeBudget => Struck(interrupts.late, polls.looks)
    case RunLimit => |rows| == maxRuns
    case EvidenceLimit => rows != [] && rows[|rows| - 1].omitted
    case CoverageLimit => rows != [] && !rows[|rows| - 1].omitted && rows[|rows| - 1].category == CoverageFailed
    case UnconfirmedCleanup =>
      rows != [] && !rows[|rows| - 1].omitted && rows[|rows| - 1].category != CoverageFailed
      && !CleanAt(rows, runner, declared, |rows| - 1)
    case _ => false
  }

  /** Run `k` came back under a new identity with its cleanup confirmed. */
  ghost predicate CleanAt(rows: seq<Row>, runner: nat -> Reply, declared: map<string, string>, k: nat)
    requires k < |rows|
  {
    Identified(runner(k), rows[k].candidate, declared, IdsBefore(runner, k)) && SaysClean(runner(k).execution)
  }

  /** While the campaign goes on, it has found nothing raised that its first reason does not tell. */
  ghost predicate Attentive(reason: StopReason, interrupts: Interrupts, polls: Polls) {
    match reason
    case Cancelled => Struck(interrupts.stop, polls.stops)
    case TimeBudget => Struck(interrupts.late, polls.looks)
    case _ => Undisturbed(interrupts, polls)
  }

  ghost function Examined(runner: nat -> Reply, n: nat, candidate: Candidate, declared: map<string, string>, ids: set<string>,
                          needsComparison: bool): Examination
  {
    Examine(runner(n), candidate, declared, ids, needsComparison)
  }

  ghost function Registered(ids: set<string>, x: Examination): set<string> {
    ids + if x.registered.Some? then {x.registered.value} else {}
  }

  lemma {:induction false} StandingOneMore(lens: Lens, rows: seq<Row>, row: Row, runner: nat -> Reply, declared: map<string, string>, needsComparison: bool,
                                           total: nat, moves: seq<Move>, stateRows: seq<string>, comparisonRuns: nat, ids: set<string>,
                                           moves': seq<Move>, stateRows': seq<string>)
    requires Standing(lens, rows, runner, declared, needsComparison, total, moves, stateRows, comparisonRuns)
    requires |row.candidate.steps| == total && moves <= moves'
    requires Decided(lens, Examined(runner, |rows|, row.candidate, declared, ids, needsComparison), runner(|rows|), row.candidate.steps, row.category)
    requires row.category == Passed ==> Added(lens, runner(|rows|), moves, stateRows, moves', stateRows')
    requires ids == IdsBefore(runner, |rows|)
    ensures Standing(lens, rows + [row], runner, declared, needsComparison, total, moves', stateRows',
                     comparisonRuns + if Examined(runner, |rows|, row.candidate, declared, ids, needsComparison).compared then 1 else 0)
  {
    hide AllStand, Conserved, Decided, Examine, Added, GenuinePass, NumberOf, Stands, IdsBefore, ComparedCount;
    ComparedOneMore(rows, row, runner, declared, needsComparison);
    DecidedAsItStands(lens, runner(|rows|), row.candidate, declared, ids, needsComparison, row.category);
    if row.category == Passed { ExaminedPass(lens, runner(|rows|), row.candidate, declared, ids, needsComparison); }
    OneRowMore(rows, row);
    StandOneMore(lens, rows, row, runner, declared, needsComparison);
    AddedOneMore(lens, rows, row, runner, total, moves, stateRows, moves', stateRows');
  }

  lemma {:induction false} AccountedOneMore(rows: seq<Row>, row: Row, runner: nat -> Reply, declared: map<string, string>, needsComparison: bool,
                                            ids: set<string>, before: StopReason, halt: bool, reason: StopReason)
    requires Accounted(rows, runner, ids, false, before)
    requires halt ==> Halting(reason)
    requires halt || (!row.omitted && row.category != CoverageFailed
                      && Examined(runner, |rows|, row.candidate, declared, ids, needsComparison).cleanupKnown)
    ensures Accounted(rows + [row], runner, Registered(ids, Examined(runner, |rows|, row.candidate, declared, ids, needsComparison)), halt, reason)
  {
    hide Settled, Examine, Clean;
    var x := Examined(runner, |rows|, row.candidate, declared, ids, needsComparison);
    ExaminedClean(runner(|rows|), row.candidate, declared, ids, needsComparison);
    SettledOneMore(runner, |rows|, ids, Registered(ids, x));
    if x.cleanupKnown { CleanHasId(runner(|rows|)); }
  }

  lemma {:induction false} CleanHasId(reply: Reply)
    requires Clean(reply)
    ensures reply.Sample? && reply.execution.id.Some?
  {
  }

  /** Checks the receipt of a run said to have passed and adds its observations. */
  method Present(lens: Lens, reply: Reply, steps: seq<Step>, coverage: Coverage) returns (category: Category)
    requires reply.Sample? && coverage.Valid() && coverage.lens == lens
    modifies coverage
    ensures coverage.Valid() && old(coverage.moves) <= coverage.moves
    ensures match category
            case Passed => Presentable(lens, reply.execution, steps)
            case EvidenceFailed => !Presentable(lens, reply.execution, steps)
            case CoverageFailed =>
              Validated(reply.execution, steps) && Crowded(lens, reply, coverage.stateRows, coverage.transitions)
            case _ => false
    ensures category == Passed ==>
              Added(lens, reply, old(coverage.moves), old(coverage.stateRows), coverage.moves, coverage.stateRows)
  {
    hide Sound, Validated, Presentable, Readable, RunTexts, Elements, Moves, Crowds;
    var ok := ValidateReceipt(reply.execution, steps);
    if !ok {
      NotPresentable(lens, reply.execution, steps);
      return EvidenceFailed;
    }
    Shown(lens, reply, steps);
    var verdict := coverage.Cover(reply.execution.observations.value);
    match verdict {
      case Covered => return Passed;
      case Unreadable => return EvidenceFailed;
      case Full => return CoverageFailed;
    }
  }

  /** The declared bounds and what the campaign asks its runner. */
  class Campaign {
    const declared: map<string, string>
    const needsComparison: bool
    const maxRuns: nat
    const maxEvidenceBytes: nat
    const runner: nat -> Reply
    const sizes: nat -> nat
    const interrupts: Interrupts
    const coverage: Coverage
    const lens: Lens
    ghost const total: nat
    var ids: set<string>
    var attempted: nat
    var completed: nat
    var bytes: nat
    var comparisonRuns: nat
    var rows: seq<Row>
    var categories: map<Category, nat>
    var firstFailure: Option<nat>
    var firstCounterexample: Option<nat>
    var halt: bool
    var stopReason: StopReason
    var polls: Polls

    /** What the counters and the retained rows say, whatever the campaign does next. */
    ghost predicate Tallies()
      reads `attempted, `completed, `bytes, `rows, `categories, `firstFailure, `firstCounterexample
    {
      && CountsAgree(rows, attempted, completed, categories, firstFailure, firstCounterexample)
      && RowsKept(rows, runner, sizes, maxEvidenceBytes, bytes) && bytes <= maxEvidenceBytes
    }

    ghost predicate Valid()
      reads this, coverage
    {
      && coverage.Valid() && coverage.lens == lens && Tallies()
      && Standing(lens, rows, runner, declared, needsComparison, total, coverage.moves, coverage.stateRows, comparisonRuns)
      && Accounted(rows, runner, ids, halt, stopReason) && Watchful()
      && CrowdedLast(lens, rows, runner, coverage.stateRows, coverage.transitions)
    }

    /** Nothing raised was overlooked, and an early end has the reason it gives. */
    ghost predicate Watchful()
      reads `halt, `stopReason, `rows, `polls
    {
      if halt then HaltedFor(stopReason, rows, runner, declared, maxRuns, interrupts, polls)
      else Attentive(stopReason, interrupts, polls)
    }

    constructor (declared: map<string, string>, needsComparison: bool, maxRuns: nat, maxEvidenceBytes: nat,
                 runner: nat -> Reply, sizes: nat -> nat, interrupts: Interrupts, lens: Lens, reason: StopReason, polls: Polls, ghost total: nat)
      requires Attentive(reason, interrupts, polls)
      ensures Valid() && this.lens == lens && fresh(coverage) && rows == [] && !halt && stopReason == reason
      ensures this.declared == declared && this.needsComparison == needsComparison && this.maxRuns == maxRuns
      ensures this.maxEvidenceBytes == maxEvidenceBytes && this.runner == runner && this.sizes == sizes && this.total == total
      ensures this.interrupts == interrupts
    {
      hide Sound, Attentive, CountsAgree, RowsKept, Standing, Accounted, CrowdedLast;
      NothingRun(lens, runner, sizes, maxEvidenceBytes, declared, needsComparison, total, reason);
      this.declared, this.needsComparison, this.maxRuns, this.maxEvidenceBytes := declared, needsComparison, maxRuns, maxEvidenceBytes;
      this.runner, this.sizes, this.interrupts, this.lens, this.total := runner, sizes, interrupts, lens, total;
      coverage := new Coverage(lens);
      ids, attempted, completed, bytes, comparisonRuns, rows, categories := {}, 0, 0, 0, 0, [], map[];
      firstFailure, firstCounterexample, halt, stopReason, this.polls := None, None, false, reason, polls;
    }

    /** Asks the runner and examines its reply: identity, cleanup, category and, for a pass, the
        event log and the observations. */
    method Judge(candidate: Candidate) returns (category: Category, cleanupKnown: bool)
      requires coverage.Valid() && coverage.lens == lens
      modifies `ids, `comparisonRuns, coverage
      ensures coverage.Valid() && old(coverage.moves) <= coverage.moves
      ensures var x := Examined(runner, |rows|, candidate, declared, old(ids), needsComparison);
              && cleanupKnown == x.cleanupKnown && comparisonRuns == old(comparisonRuns) + (if x.compared then 1 else 0)
              && ids == Registered(old(ids), x)
              && Decided(lens, x, runner(|rows|), candidate.steps, category)
      ensures category == Passed ==>
                Added(lens, runner(|rows|), old(coverage.moves), old(coverage.stateRows), coverage.moves, coverage.stateRows)
      ensures category == CoverageFailed && runner(|rows|).Sample? ==>
                Crowded(lens, runner(|rows|), coverage.stateRows, coverage.transitions)
    {
      hide Examine, Sound, Presentable, Validated, RunTexts, Elements, Moves, Crowded;
      var reply := runner(|rows|);
      var x := Examine(reply, candidate, declared, ids, needsComparison);
      if x.registered.Some? { ids := ids + {x.registered.value}; }
      if x.compared { comparisonRuns := comparisonRuns + 1; }
      category, cleanupKnown := x.category, x.cleanupKnown;
      if category == Passed {
        assert reply.Sample? by { PassIsSample(reply, candidate, declared, old(ids), needsComparison); }
        category := Present(lens, reply, candidate.steps, coverage);
      } else if category == CoverageFailed {
        OnlyThrownUncovered(reply, candidate, declared, old(ids), needsComparison);
      }
    }

    /** Brings every counter up to date for the run just judged; its row is not there yet. */
    method Count(ghost row: Row, category: Category)
      requires CountsAgree(rows, attempted, completed, categories, firstFailure, firstCounterexample) && row.category == category
      modifies `attempted, `completed, `categories, `firstFailure, `firstCounterexample
      ensures CountsAgree(rows + [row], attempted, completed, categories, firstFailure, firstCounterexample)
    {
      hide CountsAgree;
      Attempts(rows, attempted, completed, categories, firstFailure, firstCounterexample);
      CountsOneMore(rows, row, attempted, completed, categories, firstFailure, firstCounterexample);
      attempted := attempted + 1;
      if category == Passed { completed := completed + 1; }
      if category == ModelMismatch && firstCounterexample.None? { firstCounterexample := Some(attempted - 1); }
      if category != Passed && firstFailure.None? { firstFailure := Some(attempted - 1); }
      categories := categories[category := CountAt(categories, category) + 1];
    }

    /** Appends a row that was counted and serialized, with or without its evidence. */
    method Keep(row: Row)
      requires CountsAgree(rows + [row], attempted, completed, categories, firstFailure, firstCounterexample)
      requires RowsKept(rows, runner, sizes, maxEvidenceBytes, bytes) && row.ordinal == |rows| && RowDumps(runner(|rows|), row.category)
      requires bytes <= maxEvidenceBytes && (row.omitted <==> sizes(|rows|) > maxEvidenceBytes - bytes)
      modifies `bytes, `rows
      ensures Tallies() && rows == old(rows) + [row]
    {
      hide CountsAgree, RowsKept, RowDumps;
      KeptOneMore(rows, row, runner, sizes, maxEvidenceBytes, bytes);
      if !row.omitted { bytes := bytes + sizes(|rows|); }
      rows := rows + [row];
    }

    /** Whether the row just added ends the campaign, and why. */
    method Conclude(category: Category, omitted: bool, cleanupKnown: bool)
      requires !halt && Attentive(stopReason, interrupts, polls)
      modifies `halt, `stopReason, `polls
      ensures !halt ==> stopReason == old(stopReason) && !omitted && category != CoverageFailed && cleanupKnown
      ensures !halt ==> Attentive(stopReason, interrupts, polls)
      ensures halt ==> stopReason == if omitted then EvidenceLimit else if category == CoverageFailed then CoverageLimit
                                     else if !cleanupKnown then UnconfirmedCleanup else TimeBudget
      ensures halt && stopReason == TimeBudget ==> Struck(interrupts.late, polls.looks)
    {
      hide Struck;
      if category == CoverageFailed { stopReason, halt := CoverageLimit, true; }
      if omitted {
        stopReason, halt := EvidenceLimit, true;
      } else if !halt {
        if !cleanupKnown {
          stopReason, halt := UnconfirmedCleanup, true;
        } else {
          OneMorePoll(interrupts.late, polls.looks);
          var late := interrupts.late(polls.looks);
          polls := polls.(looks := polls.looks + 1);
          if late { stopReason, halt := TimeBudget, true; }
        }
      }
    }

    /** One pass through the loop body. The run is counted first; a row that does not serialize then
        aborts the campaign with its counters one ahead of its rows. */
    method RunCandidate(candidate: Candidate) returns (aborted: bool)
      requires Valid() && !halt && |candidate.steps| == total
      modifies this, coverage
      ensures coverage.Valid()
      ensures aborted ==> rows == old(rows) && exists lost: Row ::
                lost.candidate == candidate
                && OneLost(lens, rows, lost, runner, declared, needsComparison, attempted, completed, categories, firstFailure, firstCounterexample)
      ensures !aborted ==> Valid() && |rows| == |old(rows)| + 1 && Candidates(rows) == Candidates(old(rows)) + [candidate]
      ensures !aborted ==> if halt then stopReason != RunLimit else stopReason == old(stopReason)
    {
      hide Sound, CountsAgree, RowsKept, Standing, Accounted, Decided, Examined, Registered, Added, RowDumps, Attentive, Crowded, IdsBefore, AllStand;
      ghost var was := rows;
      KnownIds(rows, runner, ids, stopReason);
      var category, cleanupKnown := Judge(candidate);
      var size := sizes(|rows|);
      var omitted := size > maxEvidenceBytes - bytes;
      var row := Row(|rows|, candidate, category, omitted);
      Count(row, category);
      StandingOneMore(lens, rows, row, runner, declared, needsComparison, total, old(coverage.moves), old(coverage.stateRows),
                      old(comparisonRuns), old(ids), coverage.moves, coverage.stateRows);
      aborted := !RowDumps(runner(|rows|), category);
      if aborted {
        StandingStands(lens, rows + [row], runner, declared, needsComparison, total, coverage.moves, coverage.stateRows, comparisonRuns);
        assert OneLost(lens, rows, row, runner, declared, needsComparison, attempted, completed, categories, firstFailure, firstCounterexample);
        return;
      }
      OneRowMore(rows, row);
      Accept(row, cleanupKnown, old(ids));
    }

    /** Keeps a row that was judged, counted and serialized, and sees whether the campaign goes on. */
    method Accept(row: Row, cleanupKnown: bool, ghost before: set<string>)
      requires coverage.Valid() && coverage.lens == lens && !halt && bytes <= maxEvidenceBytes
      requires CountsAgree(rows + [row], attempted, completed, categories, firstFailure, firstCounterexample)
      requires RowsKept(rows, runner, sizes, maxEvidenceBytes, bytes) && row.ordinal == |rows| && RowDumps(runner(|rows|), row.category)
      requires row.omitted <==> sizes(|rows|) > maxEvidenceBytes - bytes
      requires Standing(lens, rows + [row], runner, declared, needsComparison, total, coverage.moves, coverage.stateRows, comparisonRuns)
      requires Accounted(rows, runner, before, false, stopReason) && Attentive(stopReason, interrupts, polls)
      requires CrowdedLast(lens, rows + [row], runner, coverage.stateRows, coverage.transitions)
      requires var x := Examined(runner, |rows|, row.candidate, declared, before, needsComparison);
               ids == Registered(before, x) && cleanupKnown == x.cleanupKnown
      modifies this
      ensures Valid() && rows == old(rows) + [row] && if halt then stopReason != RunLimit else stopReason == old(stopReason)
    {
      hide Sound, CountsAgree, RowsKept, Standing, Accounted, Examined, Registered, RowDumps, Attentive, CrowdedLast, HaltedFor, CleanAt, IdsBefore, Struck;
      ghost var was := rows;
      Keep(row);
      Conclude(row.category, row.omitted, cleanupKnown);
      AccountedOneMore(was, row, runner, declared, needsComparison, before, old(stopReason), halt, stopReason);
      KnownIds(was, runner, before, old(stopReason));
      Unsettled(was, row, runner, declared, needsComparison);
      if halt { HaltedByRow(stopReason, was, row, runner, declared, maxRuns, interrupts, polls); }
    }

    /** All candidates in order, until something halts the campaign. */
    method RunAll(schedules: seq<seq<Step>>, inputs: nat) returns (aborted: bool)
      requires Valid() && !halt && rows == [] && forall k :: 0 <= k < |schedules| ==> |schedules[k]| == total
      modifies this, coverage
      ensures coverage.Valid() && |rows| <= maxRuns
      ensures aborted ==> |rows| < maxRuns && exists lost: Row ::
                Candidates(rows) + [lost.candidate] <= Product(schedules, inputs)
                && OneLost(lens, rows, lost, runner, declared, needsComparison, attempted, completed, categories, firstFailure, firstCounterexample)
      ensures !aborted ==> Valid() && Candidates(rows) <= Product(schedules, inputs)
      ensures !aborted && halt && stopReason == RunLimit ==> |rows| < |Product(schedules, inputs)|
      ensures !aborted && !halt ==> Candidates(rows) == Product(schedules, inputs) && stopReason == old(stopReason)
    {
      hide Sound, CountsAgree, RowsKept, Standing, Accounted, Product, WithInputs, Candidates, OneLost, Attentive, HaltedFor, CrowdedLast;
      Starting(schedules, inputs);
      for a := 0 to |schedules|
        invariant Valid() && !halt && stopReason == old(stopReason) && |rows| <= maxRuns
        invariant Candidates(rows) == Product(schedules[..a], inputs)
      {
        OneSchedule(schedules, inputs, a);
        for i := 0 to inputs
          invariant Valid() && !halt && stopReason == old(stopReason) && |rows| <= maxRuns
          invariant Candidates(rows) == Product(schedules[..a], inputs) + WithInputs(schedules[a], i)
        {
          NextCandidate(schedules, inputs, a, i);
          Attempts(rows, attempted, completed, categories, firstFailure, firstCounterexample);
          var halted := CheckLimits();
          if halted { return false; }
          aborted := RunCandidate(Candidate(schedules[a], i));
          if aborted || halt { return; }
        }
      }
      assert schedules[..|schedules|] == schedules;
      return false;
    }

    /** Before each run: the stop token, the clock and the number of runs; for the reason of an end,
        token and clock are read again. */
    method CheckLimits() returns (halted: bool)
      requires Valid() && !halt && |rows| <= maxRuns
      modifies `halt, `stopReason, `polls
      ensures Valid() && halt == halted && (!halted ==> stopReason == old(stopReason) && |rows| < maxRuns)
      ensures halted ==> stopReason in {Cancelled, TimeBudget, RunLimit}
    {
      hide Sound, CountsAgree, RowsKept, Standing, Settled, Retained, AllRetained, Struck, CrowdedLast, CleanAt, IdsBefore;
      Attempts(rows, attempted, completed, categories, firstFailure, firstCounterexample);
      StillAccounted(rows, runner, ids);
      var cancelled, late, after := LookBoth(interrupts, polls);
      polls, halted := after, cancelled || late || attempted >= maxRuns;
      if halted {
        var cancelledNow, lateNow, last := LookBoth(interrupts, polls);
        polls, halt := last, true;
        stopReason := if cancelled || cancelledNow then Cancelled else if late || lateNow then TimeBudget else RunLimit;
      }
    }
  }

  /** Before the first run everything agrees. */
  lemma {:induction false} NothingRun(lens: Lens, runner: nat -> Reply, sizes: nat -> nat, maxBytes: nat, declared: map<string, string>,
                                      needsComparison: bool, total: nat, reason: StopReason)
    ensures CountsAgree([], 0, 0, map[], None, None) && RowsKept([], runner, sizes, maxBytes, 0)
    ensures Standing(lens, [], runner, declared, needsComparison, total, [], [], 0) && Accounted([], runner, {}, false, reason)
    ensures CrowdedLast(lens, [], runner, [], map[])
  {
    hide Stands, ComparedIn;
  }

  lemma {:induction false} KnownIds(rows: seq<Row>, runner: nat -> Reply, ids: set<string>, reason: StopReason)
    requires Accounted(rows, runner, ids, false, reason)
    ensures ids == IdsBefore(runner, |rows|)
  {
    hide Settled, Retained, AllRetained, IdsBefore;
  }

  lemma {:induction false} StandingStands(lens: Lens, rows: seq<Row>, runner: nat -> Reply, declared: map<string, string>, needsComparison: bool,
                                          total: nat, moves: seq<Move>, stateRows: seq<string>, comparisonRuns: nat)
    requires Standing(lens, rows, runner, declared, needsComparison, total, moves, stateRows, comparisonRuns)
    ensures AllStand(lens, rows, runner, declared, needsComparison)
  {
    hide AllStand, Conserved;
  }

  /** The cleanup of the last run is known exactly when it came back clean. */
  lemma {:induction false} Unsettled(rows: seq<Row>, row: Row, runner: nat -> Reply, declared: map<string, string>, needsComparison: bool)
    ensures Examined(runner, |rows|, row.candidate, declared, IdsBefore(runner, |rows|), needsComparison).cleanupKnown
       <==> CleanAt(rows + [row], runner, declared, |rows|)
  {
    hide Examine, Identified, SaysClean, IdsBefore;
    ExaminedNotes(runner(|rows|), row.candidate, declared, IdsBefore(runner, |rows|), needsComparison);
  }

  lemma {:induction false} HaltedByRow(reason: StopReason, rows: seq<Row>, row: Row, runner: nat -> Reply, declared: map<string, string>,
                                       maxRuns: nat, interrupts: Interrupts, polls: Polls)
    requires reason == if row.omitted then EvidenceLimit else if row.category == CoverageFailed then CoverageLimit
                       else if !CleanAt(rows + [row], runner, declared, |rows|) then UnconfirmedCleanup else TimeBudget
    requires reason == TimeBudget ==> Struck(interrupts.late, polls.looks)
    ensures HaltedFor(reason, rows + [row], runner, declared, maxRuns, interrupts, polls)
  {
    hide CleanAt, Struck;
  }

  /** Only an exception makes an examination end as a failure of the coverage. */
  lemma {:induction false} OnlyThrownUncovered(reply: Reply, candidate: Candidate, declared: map<string, string>, ids: set<string>, needsComparison: bool)
    requires Examine(reply, candidate, declared, ids, needsComparison).category == CoverageFailed
    ensures reply.Threw?
  {
    hide Examine;
    ExaminedAsItSays(reply, candidate, declared, ids, needsComparison, CoverageFailed);
  }

  lemma {:induction false} StillAccounted(rows: seq<Row>, runner: nat -> Reply, ids: set<string>)
    requires Settled(runner, |rows|, ids)
    ensures rows != [] ==> Settled(runner, |rows| - 1, ids)
  {
    hide Clean;
  }

  lemma {:induction false} Starting(schedules: seq<seq<Step>>, inputs: nat)
    ensures Candidates([]) == Product(schedules[..0], inputs)
  {
  }

  /** From the candidates of the first `a` schedules to those of one more. */
  lemma {:induction false} OneSchedule(schedules: seq<seq<Step>>, inputs: nat, a: nat)
    requires a < |schedules|
    ensures WithInputs(schedules[a], 0) == []
    ensures Product(schedules[..a + 1], inputs) == Product(schedules[..a], inputs) + WithInputs(schedules[a], inputs)
  {
    assert schedules[..a + 1][..a] == schedules[..a];
  }

  lemma {:induction false} NextCandidate(schedules: seq<seq<Step>>, inputs: nat, a: nat, i: nat)
    requires a < |schedules| && i < inputs
    ensures WithInputs(schedules[a], i + 1) == WithInputs(schedules[a], i) + [Candidate(schedules[a], i)]
    ensures Product(schedules[..a], inputs) + WithInputs(schedules[a], i) <= Product(schedules, inputs)
    ensures Product(schedules[..a], inputs) + WithInputs(schedules[a], i + 1) <= Product(schedules, inputs)
  {
    OneSchedule(schedules, inputs, a);
    ProductPrefix(schedules, inputs, a + 1);
    var before, here := Product(schedules[..a], inputs), WithInputs(schedules[a], inputs);
    assert here[..i] == WithInputs(schedules[a], i) && here[..i + 1] == WithInputs(schedules[a], i + 1);
    hide Product, WithInputs;
    assert before + here[..i] == (before + here)[..|before| + i];
    assert before + here[..i + 1] == (before + here)[..|before| + i + 1];
  }

  lemma {:induction false} ProductPrefix(schedules: seq<seq<Step>>, inputs: nat, a: nat)
    requires a <= |schedules|
    ensures Product(schedules[..a], inputs) <= Product(schedules, inputs)
    decreases |schedules| - a
  {
    if a == |schedules| {
      assert schedules[..a] == schedules;
    } else {
      OneSchedule(schedules, inputs, a);
      ProductPrefix(schedules, inputs, a + 1);
    }
  }

  lemma {:induction false} AddedOneMore(lens: Lens, rows: seq<Row>, row: Row, runner: nat -> Reply, total: nat,
                                        moves: seq<Move>, stateRows: seq<string>, moves': seq<Move>, stateRows': seq<string>)
    requires Conserved(lens, rows, runner, total, moves, stateRows) && moves <= moves'
    requires row.category == Passed ==>
               Added(lens, runner(|rows|), moves, stateRows, moves', stateRows') && |RunTexts(lens, runner(|rows|))| == total + 1
    ensures Conserved(lens, rows + [row], runner, total, moves', stateRows')
  {
    hide Conserved, RunTexts, Moves, Elements;
    ConservedOneMore(lens, rows, row, runner, total, moves, stateRows, moves', stateRows');
  }
}
