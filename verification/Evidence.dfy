/** What a runner hands back for one schedule, and what the campaign makes of it. */
module Evidence {
  import opened Schedules
  import opened CheckpointMachine
  import opened CheckpointTheorems
  import opened Coverages
  import opened Counting
  import opened Utf8

  /** A schedule with one of the declared inputs, by its index. */
  datatype Candidate = Candidate(steps: seq<Step>, input: nat)

  datatype Category =
    | Passed | CleanupFailed | ModelMismatch | ComparisonFailed | ComparisonMissing | TimedOutRun | CancelledRun
    | ScheduleFailed | ExecutionFailed | CoverageFailed | EvidenceFailed

  /** A flag as the receipt holds it: absent, true, false, or something else. */
  datatype Flag = Missing | Yes | No | Odd

  /** The execution receipt as a runner reports it; an absent or ill-typed field is `None`. */
  datatype Execution = Execution(
    schema: bool, schedule: Option<Candidate>, actors: Option<map<string, string>>, id: Option<string>,
    cleanup: Option<Cleanup>, remaining: Option<seq<string>>, passed: Flag, outcome: Option<Outcome>,
    completed: Option<bool>, events: Option<seq<Event>>, observations: Option<seq<Observation>>)

  datatype Compared = StepMismatch | Matched | OtherVerdict

  datatype Comparison = Comparison(
    schema: bool, records: seq<Execution>, verdict: Compared, passed: Flag, clientMismatch: bool)

  datatype Thrown = LengthError | StandardError | ForeignError

  /** What a runner hands back: an exception with its message, or a sample. `texts` are all strings
      of the evidence, `complaint` the message should its examination raise. */
  datatype Reply =
    | Threw(kind: Thrown, message: string)
    | Sample(execution: Execution, comparison: Option<Comparison>, texts: seq<string>, complaint: string)

  predicate ValidId(id: string) {
    |id| == 32 && forall i :: 0 <= i < |id| ==> '0' <= id[i] <= '9' || 'a' <= id[i] <= 'f'
  }

  predicate Bound(e: Execution, candidate: Candidate, declared: map<string, string>) {
    e.schema && e.schedule == Some(candidate) && e.actors == Some(declared)
  }

  /** Whether cleanup is confirmed with nothing left; `None` when the receipt does not say. */
  function CleanupKnown(e: Execution): Option<bool> {
    if e.cleanup.None? then None
    else if e.cleanup.value != Confirmed then Some(false)
    else if e.remaining.None? then None
    else Some(e.remaining.value == [])
  }

  function OwnCategory(e: Execution): Option<Category> {
    if e.passed == Missing then None
    else if e.passed == Yes then Some(Passed)
    else if e.outcome.None? then None
    else
      match e.outcome.value
      case TimedOut => Some(TimedOutRun)
      case Cancelled => Some(CancelledRun)
      case UnexpectedCheckpoint | InvalidSchedule | IncompatibleIdentity => Some(ScheduleFailed)
      case _ => Some(ExecutionFailed)
  }

  /** The category of a sample, or `None` when its evidence contradicts itself. */
  function Classify(e: Execution, c: Option<Comparison>): Option<Category>
    requires CleanupKnown(e).Some?
  {
    if !CleanupKnown(e).value then Some(CleanupFailed)
    else if c.None? then OwnCategory(e)
    else if !(c.value.schema && c.value.records == [e]) then None
    else if c.value.verdict == StepMismatch then
      (if c.value.passed == No && c.value.clientMismatch then Some(ModelMismatch) else None)
    else if c.value.verdict != Matched then Some(ComparisonFailed)
    else if c.value.passed == Missing then None
    else if c.value.passed != Yes then Some(ComparisonFailed)
    else OwnCategory(e)
  }

  /** How far the examination of a reply came before its observations are looked at. */
  datatype Examination = Examination(category: Category, registered: Option<string>, cleanupKnown: bool, compared: bool)

  function Examine(reply: Reply, candidate: Candidate, declared: map<string, string>, ids: set<string>, needsComparison: bool): Examination {
    match reply
    case Threw(kind, _) => Examination(if kind == LengthError then CoverageFailed else EvidenceFailed, None, false, false)
    case Sample(e, c, _, _) =>
      if !Bound(e, candidate, declared) || e.id.None? || !ValidId(e.id.value) || e.id.value in ids
      then Examination(EvidenceFailed, None, false, false)
      else if CleanupKnown(e).None? then Examination(EvidenceFailed, e.id, false, false)
      else
        var category := Classify(e, c);
        if category.None? then Examination(EvidenceFailed, e.id, CleanupKnown(e).value, false)
        else Examination(if needsComparison && c.None? then ComparisonMissing else category.value,
                         e.id, CleanupKnown(e).value, c.Some?)
  }

  const MAX_ERROR: nat := 1024
  const FOREIGN_FAILURE: string := "nonstandard runner failure"
  const COVERAGE_FULL: string := "coverage byte bound exceeded"

  /** The message a row carries; only the one of a length error is not cut. */
  function ErrorText(reply: Reply, category: Category): Option<string> {
    match reply
    case Threw(LengthError, message) => Some(message)
    case Threw(StandardError, message) => Some(Clip(message, MAX_ERROR))
    case Threw(ForeignError, _) => Some(FOREIGN_FAILURE)
    case Sample(_, _, _, complaint) =>
      if category == EvidenceFailed then Some(Clip(complaint, MAX_ERROR))
      else if category == CoverageFailed then Some(COVERAGE_FULL) else None
  }

  /** A row serializes exactly when its evidence and its message are UTF-8. */
  predicate RowDumps(reply: Reply, category: Category) {
    && (reply.Sample? ==> forall i :: 0 <= i < |reply.texts| ==> ValidText(reply.texts[i]))
    && (ErrorText(reply, category).Some? ==> ValidText(ErrorText(reply, category).value))
  }

  /** A runner that throws a message in perfect UTF-8 can still make a row that does not serialize:
      the message is cut inside a character. */
  lemma {:induction false} CutMessage() returns (reply: Reply)
    ensures reply.Threw? && reply.kind == StandardError && ValidText(reply.message)
    ensures forall category :: !RowDumps(reply, category)
  {
    var message := ClippedInsideACharacter();
    reply := Threw(StandardError, message);
  }

  /** Exactly when a thrown message stops its row: when what is left of it is not UTF-8. */
  lemma {:induction false} ThrownRowDumps(message: string, category: Category)
    ensures RowDumps(Threw(StandardError, message), category) <==> ValidText(Clip(message, MAX_ERROR))
    ensures RowDumps(Threw(LengthError, message), category) <==> ValidText(message)
    ensures RowDumps(Threw(ForeignError, message), category)
  {
    ForeignText();
    hide ValidText, Clip;
  }

  lemma {:induction false} ForeignText()
    ensures ValidText(FOREIGN_FAILURE)
  {
    hide ValidText;
    AsciiIsValid(FOREIGN_FAILURE);
  }

  lemma {:induction false} CoverageText()
    ensures ValidText(COVERAGE_FULL)
  {
    hide ValidText;
    AsciiIsValid(COVERAGE_FULL);
  }

  ghost predicate Validated(e: Execution, steps: seq<Step>) {
    && e.completed.Some? && e.outcome.Some? && e.events.Some? && e.observations.Some?
    && SuccessShape(e.completed.value, e.outcome.value, e.events.value, |e.observations.value|, steps)
  }

  /** The receipt of a passing run, checked field by field against the schedule. */
  method ValidateReceipt(e: Execution, steps: seq<Step>) returns (ok: bool)
    ensures ok <==> Validated(e, steps)
  {
    hide SuccessShape;
    if e.completed.None? || e.outcome.None? || e.events.None? || e.observations.None? { return false; }
    ok := ValidateSuccess(e.completed.value, e.outcome.value, e.events.value, |e.observations.value|, steps);
  }

  ghost predicate Clean(reply: Reply) {
    && reply.Sample? && CleanupKnown(reply.execution) == Some(true)
    && reply.execution.id.Some? && ValidId(reply.execution.id.value)
  }

  /** What stands behind the category `passed`. */
  ghost predicate GenuinePass(lens: Lens, reply: Reply, candidate: Candidate, declared: map<string, string>, needsComparison: bool) {
    && Clean(reply) && Bound(reply.execution, candidate, declared)
    && reply.execution.passed == Yes && Validated(reply.execution, candidate.steps)
    && Readable(lens, reply.execution.observations.value)
    && (needsComparison ==> reply.comparison.Some?)
    && (reply.comparison.Some? ==>
          reply.comparison.value.schema && reply.comparison.value.verdict == Matched && reply.comparison.value.passed == Yes
          && reply.comparison.value.records == [reply.execution])
  }

  /** The canonical texts a run shows, when they can all be read. */
  function RunTexts(lens: Lens, reply: Reply): seq<string> {
    if reply.Sample? && reply.execution.observations.Some? && Readable(lens, reply.execution.observations.value)
    then Texts(lens, reply.execution.observations.value) else []
  }

  ghost predicate Presentable(lens: Lens, e: Execution, steps: seq<Step>) {
    Validated(e, steps) && Readable(lens, e.observations.value)
  }

  /** The final category: an examined pass must also be presentable, unless coverage is full first. */
  ghost predicate Decided(lens: Lens, x: Examination, reply: Reply, steps: seq<Step>, category: Category) {
    if x.category != Passed then category == x.category
    else if !reply.Sample? then false
    else
      match category
      case Passed => Presentable(lens, reply.execution, steps)
      case EvidenceFailed => !Presentable(lens, reply.execution, steps)
      case CoverageFailed => Validated(reply.execution, steps)
      case _ => false
  }

  /** The whole run, and nothing else, was added to the coverage. */
  ghost predicate Added(lens: Lens, reply: Reply, moves: seq<Move>, stateRows: seq<string>, moves': seq<Move>, stateRows': seq<string>) {
    moves' == moves + Moves(RunTexts(lens, reply)) && Elements(stateRows') == Elements(stateRows) + Elements(RunTexts(lens, reply))
  }

  // ----- what each category says about the reply --------------------------------------------------

  /** Evidence for this very candidate, under a well-formed identity that was not used before. */
  ghost predicate Identified(reply: Reply, candidate: Candidate, declared: map<string, string>, ids: set<string>) {
    && reply.Sample?
    && (var e := reply.execution;
        && e.schema && e.schedule == Some(candidate) && e.actors == Some(declared)
        && e.id.Some? && ValidId(e.id.value) && e.id.value !in ids)
  }

  ghost predicate SaysClean(e: Execution) {
    e.cleanup == Some(Confirmed) && e.remaining == Some([])
  }

  ghost predicate SaysUnclean(e: Execution) {
    e.cleanup.Some? && (e.cleanup.value != Confirmed || (e.remaining.Some? && e.remaining.value != []))
  }

  /** The comparison is one of exactly this execution. */
  ghost predicate Compares(reply: Reply)
    requires reply.Sample?
  {
    reply.comparison.Some? && reply.comparison.value.schema && reply.comparison.value.records == [reply.execution]
  }

  /** The model disagreed with a step, and everything in the comparison says so. */
  ghost predicate Mismatches(reply: Reply)
    requires reply.Sample?
  {
    && Compares(reply) && reply.comparison.value.verdict == StepMismatch
    && reply.comparison.value.passed == No && reply.comparison.value.clientMismatch
  }

  ghost predicate Matches(reply: Reply)
    requires reply.Sample?
  {
    Compares(reply) && reply.comparison.value.verdict == Matched && reply.comparison.value.passed == Yes
  }

  ghost predicate Differs(reply: Reply)
    requires reply.Sample?
  {
    && Compares(reply)
    && match reply.comparison.value.verdict
       case StepMismatch => false
       case Matched => reply.comparison.value.passed == No || reply.comparison.value.passed == Odd
       case OtherVerdict => true
  }

  /** Whether the execution says how it ended. */
  ghost predicate Concludes(e: Execution) {
    e.passed == Yes || (e.passed != Missing && e.outcome.Some?)
  }

  ghost predicate EndedAs(e: Execution, outcomes: set<Outcome>) {
    (e.passed == No || e.passed == Odd) && e.outcome.Some? && e.outcome.value in outcomes
  }

  /** The execution's own word counts: clean, and matched by its comparison or in need of none. */
  ghost predicate Counts(reply: Reply, candidate: Candidate, declared: map<string, string>, ids: set<string>, needsComparison: bool) {
    Identified(reply, candidate, declared, ids) && SaysClean(reply.execution)
    && if reply.comparison.None? then !needsComparison else Matches(reply)
  }

  /** The evidence is missing, not for this run, or at odds with itself. */
  ghost predicate Unsound(reply: Reply, candidate: Candidate, declared: map<string, string>, ids: set<string>) {
    match reply
    case Threw(kind, _) => kind != LengthError
    case Sample(e, comparison, _, _) =>
      || !Identified(reply, candidate, declared, ids)
      || (!SaysClean(e) && !SaysUnclean(e))
      || (SaysClean(e) && comparison.Some? && !Mismatches(reply) && !Differs(reply) && !Matches(reply))
      || (SaysClean(e) && (comparison.None? || Matches(reply)) && !Concludes(e))
  }

  /** What a reply says, category by category, before its log and its observations are looked at. */
  ghost predicate Says(category: Category, reply: Reply, candidate: Candidate, declared: map<string, string>, ids: set<string>,
                       needsComparison: bool)
  {
    match category
    case Passed => Counts(reply, candidate, declared, ids, needsComparison) && reply.execution.passed == Yes
    case CleanupFailed =>
      Identified(reply, candidate, declared, ids) && SaysUnclean(reply.execution) && (needsComparison ==> reply.comparison.Some?)
    case ModelMismatch => Identified(reply, candidate, declared, ids) && SaysClean(reply.execution) && Mismatches(reply)
    case ComparisonFailed => Identified(reply, candidate, declared, ids) && SaysClean(reply.execution) && Differs(reply)
    case ComparisonMissing =>
      && needsComparison && Identified(reply, candidate, declared, ids) && reply.comparison.None?
      && (SaysUnclean(reply.execution) || (SaysClean(reply.execution) && Concludes(reply.execution)))
    case TimedOutRun =>
      Counts(reply, candidate, declared, ids, needsComparison) && EndedAs(reply.execution, {TimedOut})
    case CancelledRun =>
      Counts(reply, candidate, declared, ids, needsComparison) && EndedAs(reply.execution, {Cancelled})
    case ScheduleFailed =>
      Counts(reply, candidate, declared, ids, needsComparison)
      && EndedAs(reply.execution, {UnexpectedCheckpoint, InvalidSchedule, IncompatibleIdentity})
    case ExecutionFailed =>
      Counts(reply, candidate, declared, ids, needsComparison)
      && EndedAs(reply.execution, {Completed, UncontrolledActor, ApplicationFailed, ObservationFailed, ResourceFailed})
    case CoverageFailed => reply.Threw? && reply.kind == LengthError
    case EvidenceFailed => Unsound(reply, candidate, declared, ids)
  }

  /** A reply is examined into a category exactly when it says so. */
  lemma {:induction false} ExaminedAsItSays(reply: Reply, candidate: Candidate, declared: map<string, string>, ids: set<string>,
                                            needsComparison: bool, category: Category)
    ensures Examine(reply, candidate, declared, ids, needsComparison).category == category
       <==> Says(category, reply, candidate, declared, ids, needsComparison)
  {
    hide ValidId;
    if Identified(reply, candidate, declared, ids) && SaysClean(reply.execution) {
      ClassifiedAsItSays(reply, candidate, declared, ids, needsComparison, category);
    }
  }

  lemma {:induction false} ClassifiedAsItSays(reply: Reply, candidate: Candidate, declared: map<string, string>, ids: set<string>,
                                              needsComparison: bool, category: Category)
    requires Identified(reply, candidate, declared, ids) && SaysClean(reply.execution)
    ensures Examine(reply, candidate, declared, ids, needsComparison).category == category
       <==> Says(category, reply, candidate, declared, ids, needsComparison)
  {
    hide ValidId;
  }

  /** What else the examination notes: the identity, the cleanup, and whether there was a comparison. */
  lemma {:induction false} ExaminedNotes(reply: Reply, candidate: Candidate, declared: map<string, string>, ids: set<string>,
                                         needsComparison: bool)
    ensures var x := Examine(reply, candidate, declared, ids, needsComparison);
            && x.registered == (if Identified(reply, candidate, declared, ids) then reply.execution.id else None)
            && (x.cleanupKnown <==> Identified(reply, candidate, declared, ids) && SaysClean(reply.execution))
            && (x.compared <==> Identified(reply, candidate, declared, ids) && reply.comparison.Some? && x.category != EvidenceFailed)
  {
  }

  /** What the category of a row says about its reply: a pass is also validated and readable; a run
      that the coverage cannot take is at least validated. */
  ghost predicate Stands(lens: Lens, category: Category, reply: Reply, candidate: Candidate, declared: map<string, string>,
                         ids: set<string>, needsComparison: bool)
  {
    match category
    case Passed =>
      Says(Passed, reply, candidate, declared, ids, needsComparison) && Presentable(lens, reply.execution, candidate.steps)
    case EvidenceFailed =>
      || Says(EvidenceFailed, reply, candidate, declared, ids, needsComparison)
      || (Says(Passed, reply, candidate, declared, ids, needsComparison) && !Presentable(lens, reply.execution, candidate.steps))
    case CoverageFailed =>
      || Says(CoverageFailed, reply, candidate, declared, ids, needsComparison)
      || (Says(Passed, reply, candidate, declared, ids, needsComparison) && Validated(reply.execution, candidate.steps))
    case _ => Says(category, reply, candidate, declared, ids, needsComparison)
  }

  /** The final category is one that the reply stands for. */
  lemma {:induction false} DecidedAsItStands(lens: Lens, reply: Reply, candidate: Candidate, declared: map<string, string>,
                                             ids: set<string>, needsComparison: bool, category: Category)
    ensures Decided(lens, Examine(reply, candidate, declared, ids, needsComparison), reply, candidate.steps, category)
       <==> Stands(lens, category, reply, candidate, declared, ids, needsComparison)
  {
    hide Examine, Says, Presentable, Validated;
    var x := Examine(reply, candidate, declared, ids, needsComparison);
    ExaminedAsItSays(reply, candidate, declared, ids, needsComparison, category);
    ExaminedAsItSays(reply, candidate, declared, ids, needsComparison, Passed);
    ExaminedAsItSays(reply, candidate, declared, ids, needsComparison, x.category);
    if x.category == Passed { PassIsSample(reply, candidate, declared, ids, needsComparison); }
  }

  /** A reply stands for `passed` exactly when it is a genuine pass under a new identity. */
  lemma {:induction false} PassedIsGenuine(lens: Lens, reply: Reply, candidate: Candidate, declared: map<string, string>,
                                           ids: set<string>, needsComparison: bool)
    ensures Stands(lens, Passed, reply, candidate, declared, ids, needsComparison)
       <==> GenuinePass(lens, reply, candidate, declared, needsComparison) && reply.execution.id.value !in ids
  {
    hide Validated, Readable, ValidId;
  }

  lemma {:induction false} ExaminedPass(lens: Lens, reply: Reply, candidate: Candidate, declared: map<string, string>, ids: set<string>, needsComparison: bool)
    requires Decided(lens, Examine(reply, candidate, declared, ids, needsComparison), reply, candidate.steps, Passed)
    ensures GenuinePass(lens, reply, candidate, declared, needsComparison)
    ensures |RunTexts(lens, reply)| == |candidate.steps| + 1
    ensures needsComparison ==> Examine(reply, candidate, declared, ids, needsComparison).compared
  {
  }

  lemma {:induction false} ExaminedClean(reply: Reply, candidate: Candidate, declared: map<string, string>, ids: set<string>, needsComparison: bool)
    ensures var x := Examine(reply, candidate, declared, ids, needsComparison);
            x.cleanupKnown ==> Clean(reply) && x.registered == reply.execution.id && reply.execution.id.value !in ids
  {
  }

  lemma {:induction false} PassIsSample(reply: Reply, candidate: Candidate, declared: map<string, string>, ids: set<string>, needsComparison: bool)
    requires Examine(reply, candidate, declared, ids, needsComparison).category == Passed
    ensures reply.Sample?
  {
  }

  lemma {:induction false} Shown(lens: Lens, reply: Reply, steps: seq<Step>)
    requires reply.Sample? && Validated(reply.execution, steps)
    ensures reply.execution.observations.Some?
    ensures Presentable(lens, reply.execution, steps) <==> Readable(lens, reply.execution.observations.value)
    ensures Readable(lens, reply.execution.observations.value) ==> RunTexts(lens, reply) == Texts(lens, reply.execution.observations.value)
  {
  }

  lemma {:induction false} NotPresentable(lens: Lens, e: Execution, steps: seq<Step>)
    requires !Validated(e, steps)
    ensures !Presentable(lens, e, steps)
  {
  }
}
