# MirrorCPP: a verified model

MirrorCPP is a client for conformance testing against TLA+ models. What is hard in it is
deterministic scheduling: two cooperative schedulers, the enumeration of their schedules, the
campaign that runs every schedule and claims coverage in a receipt, and the value codec that the
states travel through. This project models that code in Dafny and proves what it promises, for
every input, every run and every interleaving.

| files | what they model |
|---|---|
| `Schedules`, `Signals`, `Merges`, `MergeCounts`, `Enumerate` | `enumerate`: the backtracking search over a mutable position array, and the list of order-preserving merges it must produce |
| `Admission`, `Requests` | the one-pass static admission of a plan, the schedule encoder, and the admission of a whole request |
| `Values`, `ValueSymmetry`, `Counting` | value equality and when it is symmetric |
| `Decimals`, `ItfCodec`, `ItfGrammar`, `Utf8`, `Reports` | the ITF codec of values and states, the grammar it decides, and when what it makes can be serialized |
| `JsonText`, `Sorting`, `Canonical`, `CanonicalTexts`, `CanonicalState` | the canonical text of an observed state |
| `Coverage`, `Evidence`, `Campaign`, `FiniteExploration` | `explore_finite`: the campaign loop, its counters and its receipt |
| `CheckpointMachine`, `CheckpointSafety`, `CheckpointCompletion`, `CheckpointTheorems`, `CheckpointCooperation`, `CheckpointExecution`, `CheckpointDriver` | the checkpoint scheduler: a step machine, its invariants, its promises, what well-behaved runs come to and what failures say, the object that takes the steps, and whole calls on it |
| `ControlledSync`, `SyncSafety`, `WaitGraph`, `SyncTheorems`, `Coordinator`, `SyncDriver` | the controlled mutex/queue scheduler, in the same parts |
| `ChoiceTree`, `Explorer` | `explore`: the prefix-tree explorer and the byte budget of its evidence |
| `SyncMisuse`, `SyncReplays`, `SyncReached` | what its failures say, and that disciplined workers get wherever the explored tree leads |
| `SyncDeterminism`, `ExploredRuns` | why a replay shows what its decisions say, and what a complete exploration says about every run of the scheduler |
| `Lines` | newline framing over arbitrary reads |
| `Stepping` | the phase guard and the stepping loop |
| `ImportClauses`, `SpecClosure` | the import scanner and the closure of a specification's files |

Both schedulers are state machines with one step per critical section of their mutex. A run is any
sequence of such steps by the controller, the workers and the outside (stop tokens, deadlines,
exceptions), so a statement about all runs covers all interleavings. The classes `Execution` and
`Coordinator` hold the state in fields and change it in place, one method per critical section.
Each object carries, as ghost state, the run it has made: every method takes exactly the machine's
step of its label, so everything proved of runs holds of the objects. `CheckpointDriver` and
`SyncDriver` put the sections together to whole calls, with any number of sections of the other
threads in between; in a calm world, where nothing is late and the workers cooperate, these calls are
proved to succeed. Statements come in both directions: what every run keeps, and that a run with
nothing in its way gets where it should; every reason to stop or to fail is proved to say what happened.

What the model takes from outside: in the enumeration, the campaign and the explorer the clock, the
stop token, the factory, the cleanup, the runner and the sizes of serialized rows are arbitrary
functions of the number of the poll or of the run; in the schedulers they are part of the labels of a
run, and exceptions of callbacks may strike wherever the source catches them; a descriptor delivers
any non-empty piece of its stream or fails; the file system is an arbitrary resolution function with
finitely many readable files.

Places where the code and what is said about it differ. The model follows the code.

- `include/mirrorcpp/value.hpp:11-12` describes set equality as length and mutual membership; the
  loop checks the lengths and one inclusion. `{1, 1} == {1, 2}` holds and the reverse does not
  (`OneWayEquality`). For a given left side the comparison is symmetric with every partner, and is
  mutual membership with every partner, exactly when no set inside it holds an element twice
  (`SymmetricExactlyWhenDupFree`, `MutualExactlyWhenDupFree`).
- `decode_value(encode_value(v))` is `v` exactly when no record inside `v` looks like an ITF marker
  or a variant (`RoundTrip`); such a record and the value it mimics have the same encoding
  (`MarkerRecordIsLost`).
- The comment above `run_stepping_loop` (`src/client.cpp:31-33`) promises that the transport is closed
  on every terminal path. Serializing a report is outside every handler there, and raises on a
  text that is not UTF-8; so does decoding, if the big-integer library raises on a numeral
  (`src/protocol.cpp:510-513` catches other exceptions only). Then the transport stays open.
  `RunSteppingLoop` states that it is closed exactly when nothing escapes, `StateDumpsExactly` which
  states serialize, and `UnserializableReportEscapes` gives a conversation in which it stays open.
- The campaign's receipt counts its rows for any runner, except when a row does not serialize: the
  exception reaches the outer handler, which reports an invalid declaration with zero attempted
  runs, beside the rows already there and category counts that are one ahead of them
  (`ExploreFinite`, `OneMoreThanRows`). A message in perfect UTF-8 is enough, because it is cut at
  1024 bytes, maybe inside a character (`CutMessage`); `ThrownRowDumps` says exactly which messages do it.

## Model

| member | source | states |
|---|---|---|
| `Merges.AllSchedulesAreTheMerges` | src/schedule_exploration.cpp:80-114 | The list of schedules holds a step sequence if and only if it is an order-preserving merge of the chains (every actor's projection is its chain, no other actor appears) with at most `bound` preemptions |
| `Merges.AllSchedulesAscend` | src/schedule_exploration.cpp:101-110 | The list is strictly ascending in lexicographic actor order, so nothing is listed twice |
| `Enumerate.Search.Visit` | src/schedule_exploration.cpp:88-111 | The recursive visit adds exactly the completions of the current node, or a prefix when stopped; `positions` and `current` are restored on every return |
| `Enumerate.Search.VisitChildren` | src/schedule_exploration.cpp:101-110 | The loop over actors adds the branches from its actor on, in actor order, skipping finished actors and unaffordable preemptions |
| `Enumerate.Search.Descend` | src/schedule_exploration.cpp:105-109 | Pushing a step, visiting and popping leaves positions and current schedule as they were |
| `Enumerate.Search.Poll` | src/schedule_exploration.cpp:90-94 | The search stops at a node if and only if its poll finds the stop token or the deadline, with the reason that was found |
| `Enumerate.Enumerate` | src/schedule_exploration.cpp:80-114 | Unstopped the result is the whole list; stopped by the cap it is the first `cap` entries and the list is strictly longer; stopped from outside it is a prefix, and a poll of the stop token or the clock found a reason. Undisturbed it is exhausted if and only if the list is within the cap |
| `MergeCounts.MultinomialCount` | src/schedule_exploration.cpp:101-110 | With a bound of at least the number of steps the count times the product of the chain factorials is the factorial of the number of steps |
| `MergeCounts.ZeroPreemptionCount` | src/schedule_exploration.cpp:103-104 | With bound zero the count is the factorial of the number of actors |
| `MergeCounts.MonotoneInBound` | src/schedule_exploration.cpp:104-104 | A larger bound lists every schedule of a smaller one |
| `Admission.AdmitSteps` | src/schedule.cpp:272-278 | The single pass accepts if and only if every step's actor is declared and every actor's projection is declared checkpoints followed by one final completion |
| `Admission.Admit` | src/schedule.cpp:264-278 | Declarations and steps are accepted if and only if all names are identifiers, none is declared twice, and the steps are such a plan |
| `Admission.EnumeratedSchedulesAreAdmitted` | src/schedule_exploration.cpp:201-212 | Every enumerated schedule of valid chains is a plan for an adapter that declares those actors and checkpoints |
| `Requests.AdmitRequest` | src/schedule.cpp:245-281 | A request is granted if and only if its policy, profile and identities are valid and equal, its numbers are within the policy, its schedule encodes, its input is not too long, and its declarations and steps are a plan; a difference of valid identities is told apart |
| `Requests.CandidatesEncode` | src/schedule.cpp:137-142 | Within the bounds of a campaign every merge of valid chains with a plain serializable input encodes |
| `Requests.CandidatesAreGranted` | src/schedule.cpp:245-281 | An adapter that declares the chains admits every enumerated schedule |
| `Values.Equal` | src/value.cpp:29-56 | The comparison loops compute value equality: structural, but for sets length and one inclusion |
| `Values.Find` | src/value.cpp:41-48 | The inner loop finds an element if and only if an equal one occurs |
| `Values.Reflexive` | src/value.cpp:29-56 | Every value equals itself |
| `Values.Transitive` | src/value.cpp:29-56 | Equality is transitive on all values |
| `ValueSymmetry.Symmetric` | src/value.cpp:35-50 | From a value whose sets hold nothing twice, equality is symmetric, by an injection between lists of one length |
| `ValueSymmetry.SymmetricExactlyWhenDupFree` | src/value.cpp:35-50 | Equality from `a` is symmetric for every partner if and only if no set inside `a` holds an element twice |
| `ValueSymmetry.MutualExactlyWhenDupFree` | src/value.cpp:36-50 | Equality from `a` is the documented mutual membership for every partner if and only if no set inside `a` holds an element twice |
| `ValueSymmetry.OneWayEquality` | src/value.cpp:39-50 | `{1, 1}` equals `{1, 2}` and not the other way round |
| `ValueSymmetry.StringsSurvive` | src/value.cpp:29-56 | Equality never loses a string from left to right, duplicates or not |
| `Decimals.IntRoundTrip` | src/value.cpp:73-76 | The decimal text of an integer is canonical and reads back as the integer |
| `ItfCodec.RoundTrip` | src/value.cpp:69-203 | Decoding an encoded value gives the value back if and only if no record inside it is marker-shaped |
| `ItfCodec.MarkerRecordIsLost` | src/value.cpp:73-76 | For every integer, a record whose only field is its `#bigint` text has the integer's own encoding and is read back as the integer |
| `ItfCodec.ShapeOfRecord` | src/value.cpp:167-203 | The decoder's tests on an object see a plain record if and only if the encoded record is not marker-shaped |
| `ItfCodec.DecodedIsUnambiguous` | src/value.cpp:143-203 | Whatever decodes holds no marker-shaped record |
| `ItfCodec.DecodeIsStable` | src/value.cpp:69-203 | Whatever was decoded survives another encoding and decoding; which value that is is what `ItfGrammar.DecodeIffStandsFor` says |
| `ItfGrammar.DecodeIffStandsFor` | src/value.cpp:119-203 | A tree is decoded to a value if and only if the ITF grammar lets it stand for that value: an integral number or a `#bigint` text for that integer, an empty one for null, `#tup`, `#set` and `#map` for what they list, a `tag`/`value` object for a variant, any other object for a record |
| `ItfGrammar.EncodedStandsFor` | src/value.cpp:69-115 | What is encoded stands for its value if and only if no record inside it mimics a marker |
| `ItfGrammar.GrammarIsUnambiguous` | src/value.cpp:143-203 | A tree stands for at most one value |
| `ItfGrammar.StateIffStandsFor` | src/value.cpp:211-217 | A state is decoded exactly from an object with its variables, each standing for its value |
| `ItfGrammar.CanonicalIsText` | src/value.cpp:119-132 | The canonical numerals are exactly the decimal texts of the integers, each read as the integer it is the text of |
| `ItfGrammar.ShapesOfTheGrammar` | src/value.cpp:167-202 | The shape tests pick exactly the one-key markers with their payload and the two-key variants |
| `ItfCodec.StateRoundTrip` | src/value.cpp:205-217 | A state survives the codec if and only if all its values do |
| `Reports.StateDumpsExactly` | src/protocol.cpp:417-421 | A state serializes if and only if its variable names and all texts inside its values are UTF-8 |
| `Utf8.CutInsideACharacter` | src/schedule_exploration.cpp:306-306 | A valid text cut inside a character is not valid |
| `JsonText.DumpReadable` | src/schedule_exploration.cpp:57-58 | A serialized tree says where it ends: two texts that begin with trees agree on the trees |
| `JsonText.DumpInjective` | src/schedule_exploration.cpp:164-164 | Distinct trees have distinct texts |
| `Canonical.CanonIff` | src/schedule_exploration.cpp:20-74 | Supported values have the same canonical tree if and only if they are semantically equal: sets extensionally, maps as functions, sequences and tuples in order, kinds never confused |
| `CanonicalTexts.CanonDumps` | src/schedule_exploration.cpp:48-58 | The canonical tree of a value serializes if and only if every text inside the value is UTF-8 |
| `CanonicalStates.WalkIs` | src/schedule_exploration.cpp:20-74 | The canonicaliser with its threaded node counter accepts a value if and only if it is supported (set elements and map keys serialize, map keys are distinct and of one kind), at most 32 levels deep from its depth and within 65536 nodes, and then yields the canonical tree and the advanced count |
| `CanonicalStates.StateRows` | src/schedule_exploration.cpp:161-167 | The walk over all variables of a state accepts exactly within the shared bounds and yields their canonical rows in key order |
| `CanonicalStates.HasText` | src/schedule_exploration.cpp:161-167 | A state has a canonical text if and only if its values are supported and within the shared bounds, all names and texts are UTF-8, and the text is at most a mebibyte |
| `CanonicalStates.SameTextSameMeaning` | src/schedule_exploration.cpp:161-167 | Accepted states have the same text if and only if they have the same variables with semantically equal values |
| `Coverages.Coverage.Number` | src/schedule_exploration.cpp:282-287 | A text has its old number, or the next one; it is refused exactly when it is new and its row would exceed the byte bound |
| `Coverages.Coverage.Count` | src/schedule_exploration.cpp:288-294 | A move is counted once more; it is refused exactly when it is new and its row would exceed the byte bound |
| `Coverages.Coverage.Cover` | src/schedule_exploration.cpp:273-297 | Covered, the whole run and nothing else was added; unreadable, some observation is out of place or has no canonical text; full, one of the texts read so far finds no room |
| `Coverages.AddState` | src/schedule_exploration.cpp:282-287 | A new text keeps the numbering one to one onto the rows, the transition counts and the byte account |
| `Coverages.AddMove` | src/schedule_exploration.cpp:288-294 | One more move keeps every count the multiplicity of its move, their sum the number of moves, and the byte account |
| `Coverages.TotalAfterBump` | src/schedule_exploration.cpp:294-294 | Counting one more under any key raises the sum of all counts by one |
| `Evidence.ExaminedPass` | src/schedule_exploration.cpp:125-143 | A reply that ends as passed is a genuine pass with one text per step and one more; `Evidence.PassedIsGenuine` has the converse |
| `Evidence.ExaminedAsItSays` | src/schedule_exploration.cpp:125-143 | Category by category: a reply is examined into it if and only if its own fields say so, e.g. `model_mismatch` exactly for bound evidence under a new identity with confirmed cleanup and a comparison of this very execution that reports a consistent step mismatch |
| `Evidence.ExaminedNotes` | src/schedule_exploration.cpp:259-270 | The identity is registered, cleanup is known and a comparison counts, each exactly when the reply says so |
| `Evidence.DecidedAsItStands` | src/schedule_exploration.cpp:254-309 | The final category of a row, validation and observations included, is one that the reply stands for |
| `Evidence.PassedIsGenuine` | src/schedule_exploration.cpp:255-298 | A reply stands for `passed` if and only if it is a genuine pass under an identity not used before |
| `Evidence.ExaminedClean` | src/schedule_exploration.cpp:257-266 | Cleanup counts as known only for a well-formed identity not seen before, with confirmed cleanup and nothing remaining |
| `Evidence.CutMessage` | src/schedule_exploration.cpp:304-314 | There is an exception message in valid UTF-8 whose row does not serialize |
| `Evidence.ThrownRowDumps` | src/schedule_exploration.cpp:302-314 | The row of a run that threw serializes if and only if what is kept of the message is UTF-8: all of a length error's, the first 1024 bytes of another |
| `Evidence.ValidateReceipt` | src/schedule_exploration.cpp:144-158 | A passing receipt is accepted if and only if every field is there and the log has the success shape |
| `Campaigns.Present` | src/schedule_exploration.cpp:271-303 | A run said to pass ends as passed, as failed evidence or as too much for the coverage: exactly by whether its receipt is valid, its observations are readable, and they find room |
| `Campaigns.Campaign.Judge` | src/schedule_exploration.cpp:252-309 | A reply gets a category that it stands for; identities and comparison runs are registered as examined; a pass adds its whole run to the coverage, and only a run that finds no room is refused by it |
| `Campaigns.Campaign.Count` | src/schedule_exploration.cpp:298-313 | Counting a run keeps every counter and both first-of-a-kind entries in agreement with the rows and the one to come |
| `Campaigns.Campaign.Keep` | src/schedule_exploration.cpp:314-319 | A counted and serialized row is appended with its ordinal, and the retained bytes stay exact and bounded |
| `Campaigns.CutMessageEndsIt` | src/schedule_exploration.cpp:304-314 | No campaign keeps the row of a run whose message is cut inside a character |
| `Campaigns.Campaign.Conclude` | src/schedule_exploration.cpp:302-322 | Which of evidence limit, coverage limit, unconfirmed cleanup and time ends the campaign; it goes on only with a retained row and known cleanup |
| `Campaigns.Campaign.CheckLimits` | src/schedule_exploration.cpp:245-248 | Before each run: the campaign ends if and only if the stop token or the deadline is found or the runs are used up, with that reason |
| `Campaigns.CounterexampleIsMismatch` | src/schedule_exploration.cpp:299-300 | The first counterexample is the first run whose reply, by its own fields, is a consistent step mismatch |
| `Campaigns.StandingPasses` | src/schedule_exploration.cpp:271-298 | Every passing row is a genuine pass |
| `Campaigns.AllCompared` | src/schedule_exploration.cpp:268-270 | When every run has passed and needed a comparison, the number of comparisons is the number of runs |
| `Campaigns.Campaign.RunCandidate` | src/schedule_exploration.cpp:249-322 | One turn of the loop keeps the invariant of the campaign and appends exactly its candidate; it aborts only on a row that does not serialize, with the counters one ahead of the rows |
| `Campaigns.Campaign.RunAll` | src/schedule_exploration.cpp:243-325 | The rows follow the schedule-by-input product in order; all of it unless something halts the campaign |
| `Campaigns.ConservedOneMore` | src/schedule_exploration.cpp:272-298 | Every passing run adds as many moves as there are steps; while all runs pass the moves and the states are those of the runs and nothing else |
| `FiniteExploration.SortActors` | src/schedule_exploration.cpp:196-197 | The actors in ascending order of their names, the same chains |
| `FiniteExploration.MergeLength` | src/schedule_exploration.cpp:80-114 | Every merge has as many steps as the chains together |
| `FiniteExploration.EligibleCandidates` | src/schedule_exploration.cpp:225-250 | The candidates are exactly the merges of the declared chains within the bound, with each declared input, whatever order the actors are declared in |
| `FiniteExploration.EligibleRunsEncode` | src/schedule_exploration.cpp:249-250 | No candidate of a valid declaration can fail to encode |
| `FiniteExploration.TruthfulReceipt` | src/schedule_exploration.cpp:310-334 | The counters agree with the rows, every row has a category that its reply stands for, the first counterexample is the first mismatch, a row is omitted exactly when it did not fit, and comparisons are counted exactly |
| `FiniteExploration.ExhaustiveReceipt` | src/schedule_exploration.cpp:326-334 | With all candidates passed: a candidate has a passing row if and only if it is eligible, the transition counts sum to completed runs times total steps, states and transitions are those of the runs, and required comparisons were all made |
| `FiniteExploration.ExploreFinite` | src/schedule_exploration.cpp:179-341 | Complete if and only if its stop reason says so, and then exhaustive; every stop reason says what ended the campaign (polls, limits, the last row); the denominators are the number of eligible runs; an obliging runner within the limits gets a complete campaign unless its observations find no room |
| `FiniteExploration.ObligingCompletes` | src/schedule_exploration.cpp:223-341 | With nothing raised, everything within the limits and every reply a genuine pass under its own identity, the campaign is complete, or its last run found no room in the coverage |
| `FiniteExploration.ObligingIsNotCut` | src/schedule_exploration.cpp:314-338 | Such a campaign is never cut short by a row that does not serialize |
| `FiniteExploration.ReceiptEnds` | src/schedule_exploration.cpp:326-334 | Whatever the stop reason of a receipt, what it says is true of the space, the polls or the last row |
| `FiniteExploration.CapLeavesMore` | src/schedule_exploration.cpp:95-99 | When the cap cut the enumeration off, some eligible run is missing |
| `FiniteExploration.OneMoreThanRows` | src/schedule_exploration.cpp:310-314 | A receipt cut short has no attempted runs and one category count more than rows |
| `FiniteExploration.HasNumber` | src/schedule_exploration.cpp:281-287 | Every observation of a complete campaign has a number in the receipt |
| `FiniteExploration.SameNumberSameMeaning` | src/schedule_exploration.cpp:274-287 | In a complete campaign two observations of any runs have the same number if and only if their decoded and projected states are semantically equal |
| `CheckpointSafety.StepInv` | src/schedule.cpp:201-542 | Every critical section of every thread keeps the scheduler's invariant |
| `CheckpointCompletion.StepConclusive` | src/schedule.cpp:201-542 | Every critical section keeps the plan, keeps parked actors off the completion, and leaves a completed schedule without failure and without live workers |
| `CheckpointCompletion.CompletedNeverFails` | src/schedule.cpp:451-462 | In every run a completed schedule has no failure, then or later, and every worker has finished and is gone |
| `CheckpointTheorems.CompletedRunsValidate` | src/schedule.cpp:406-463 | A run that completes its schedule has exactly a permit and an arrival per step, in order, each permit at the actor's previous arrival or `$start`, arrivals as scheduled, observations numbered 0 to n, and is accepted by the validator |
| `CheckpointTheorems.FailureHasAMoment` | src/schedule.cpp:187-194 | The failure a run reports came with some step or with its start, and no state before that had failed |
| `CheckpointCooperation.CooperationNeverFails` | src/schedule.cpp:406-463 | A run of cooperative sections (nothing late, no stop, crash or foreign call, sound observations, the permitted worker goes where the plan says, the controller asks for the plan) never fails, and has completed its schedule exactly when its last step is done |
| `CheckpointCooperation.EveryPlanCanPass` | src/schedule.cpp:353-527 | For every admitted plan there is a cooperative run that passes |
| `CheckpointCooperation.FailsExactly` | src/schedule.cpp:187-224 | A section fails a run that has not failed if and only if it is one of the listed troubles |
| `CheckpointCooperation.FailureIsBlamed` | src/schedule.cpp:187-224 | Outcome and detail of the first failure say what its section did; an actor that is not parked is never the reason |
| `CheckpointCooperation.EveryFailureIsBlamed` | src/schedule.cpp:187-194 | In every run, the reported failure is the fault of one section before which nothing had failed |
| `CheckpointCooperation.StrayArrivalIsLogged` | src/schedule.cpp:432-440 | An actor is said to have arrived elsewhere only if the log ends with its arrival at a checkpoint other than the planned one |
| `CheckpointCooperation.NextIsParked` | src/schedule.cpp:419-427 | Between steps the actor of the next step is there and parked |
| `CheckpointCooperation.EventsAreCredited` | src/schedule.cpp:292-297 | Every event carries the name and the operation of a declared actor |
| `CheckpointCooperation.RemainingAreUnjoined` | src/schedule.cpp:508-510 | The names left after a cleanup are those of the workers that were started and not joined |
| `CheckpointTheorems.ValidateSuccess` | src/schedule_exploration.cpp:144-158 | The validator's loops accept if and only if the log has that shape |
| `CheckpointTheorems.OneActorRuns` | src/schedule.cpp:425-432 | Until something fails or stops, application code runs only in the actor that holds the permit |
| `CheckpointTheorems.NothingIsTakenBack` | src/schedule.cpp:187-194 | No step changes the first failure, adds a permit after failing or closing, reopens, or completes a run that was closed early |
| `CheckpointTheorems.ThePastIsFinal` | src/schedule.cpp:406-542 | Over any calls through destruction: the first failure's outcome and detail stay, permits end with failure or closing, a run closed early never passes, a passed run stays passed |
| `CheckpointTheorems.TeardownOnce` | src/schedule.cpp:511-542 | Teardown runs at most once, and only when every started worker is joined and gone |
| `CheckpointExecutions.Execution.constructor` | src/schedule.cpp:264-281 | An admitted plan, whether or not its program and all its threads could be created, is an initial state of the machine |
| `CheckpointExecutions.Execution.MarkFailed` | src/schedule.cpp:187-194 | Only the first failure is kept |
| `CheckpointExecutions.Execution.PollStop` | src/schedule.cpp:287-289 | Stop token before deadline, neither after a failure |
| `CheckpointExecutions.Execution.LogEvent` | src/schedule.cpp:292-297 | The event gets the next ordinal and the current step |
| `CheckpointExecutions.Execution.ObserveState` | src/schedule.cpp:298-314 | A sound observation is appended with its index, any other fails the run |
| `CheckpointExecutions.Execution.PassBarrier` | src/schedule.cpp:394-403 | The end of the initial barrier is the machine's step of the object's run: initialized only without a failure |
| `CheckpointExecutions.Execution.BootWorker` | src/schedule.cpp:363-368 | A worker's first section is the machine's step: parked at the start |
| `CheckpointExecutions.Execution.ResumeWorker` | src/schedule.cpp:220-223 | A worker leaves its wait when permitted or stopping, as the machine's step |
| `CheckpointExecutions.Execution.ForeignArrive` | src/schedule.cpp:206-209 | A hook used from a foreign thread fails the run, as the machine's step |
| `CheckpointExecutions.Execution.CrashWorker` | src/schedule.cpp:376-382 | An exception of a worker fails the run with its clipped message, as the machine's step |
| `CheckpointExecutions.Execution.RequestStop` | src/schedule.cpp:331-332 | The stop token only sets the flag, as the machine's step |
| `CheckpointExecutions.Execution.ArriveAt` | src/schedule.cpp:201-224 | A checkpoint call is the machine's step: refused, unexpected, or parked with its arrival |
| `CheckpointExecutions.Execution.ExitWorker` | src/schedule.cpp:383-387 | A worker's last section is the machine's step; an earlier arrival is not overwritten |
| `CheckpointExecutions.Execution.GrantStep` | src/schedule.cpp:406-431 | The first part of an advance is the machine's step; it is refused if and only if the lifecycle forbids it |
| `CheckpointExecutions.Execution.ReceiveArrival` | src/schedule.cpp:432-450 | The wait is over: the arrival is logged and compared, a finished actor joined; `CheckpointCooperation.FailsExactly` says when this fails |
| `CheckpointExecutions.Execution.SettleStep` | src/schedule.cpp:451-462 | Counting the step, observing, and completing after the last step are the machine's step |
| `CheckpointExecutions.Execution.RequestFinish` | src/schedule.cpp:465-477 | Finishing an incomplete schedule is a failure, a closed or unconstructed execution is left alone; the machine's step |
| `CheckpointExecutions.Execution.BeginCleanup` | src/schedule.cpp:489-494 | Closing comes first; without a constructed program nothing else happens; the machine's step |
| `CheckpointExecutions.Execution.EndCleanup` | src/schedule.cpp:500-527 | Joining what has finished, listing what has not and tearing down once are the machine's step |
| `CheckpointExecutions.Execution.BeginDestroy` | src/schedule.cpp:528-536 | The destructor stops everybody, as the machine's step |
| `CheckpointExecutions.Execution.EndDestroy` | src/schedule.cpp:537-542 | The destructor joins everybody and tears down if nobody has, as the machine's step |
| `CheckpointExecutions.JoinAll` | src/schedule.cpp:500-507 | Every started and finished worker is joined, no other |
| `CheckpointExecutions.ListUnjoined` | src/schedule.cpp:508-510 | The names of the started workers not joined, in order |
| `CheckpointDriver.Others` | src/schedule.cpp:355-388 | Any sections of the workers and the stop token leave the plan, the log, the position and the controller alone |
| `CheckpointDriver.CleanUp` | src/schedule.cpp:483-527 | A cleanup call closes the execution, keeps its position and a failure that was there |
| `CheckpointDriver.AdvanceBy` | src/schedule.cpp:406-463 | One `advance`: refused exactly out of turn; asked for the next step it never fails by its own fault, and in a calm world it does not fail |
| `CheckpointDriver.Drive` | src/schedule.cpp:566-576 | A whole run: it completes with a log the validator accepts, or reports its first failure, which is never the controller's fault; an exception leaves it only if the run failed between two steps; in a calm world it passes |
| `CheckpointDriver.AdvanceAll` | src/schedule.cpp:570-573 | Every step of the plan in turn, until the execution is closed or a step is refused |
| `CheckpointDriver.FinishRun` | src/schedule.cpp:465-477 | Finishing closes the execution and cleans it up, and fails nothing that is complete |
| `CheckpointDriver.Destroy` | src/schedule.cpp:528-542 | Destruction never undoes a pass; teardown was called at most once, and when the destructor ends, exactly once if there was a program, with every started worker joined |
| `SyncSafety.StepInv` | src/schedule_sync.cpp:123-327 | Every critical section keeps the invariant of the controlled scheduler |
| `SyncSafety.FitsIsExact` | src/schedule_sync.cpp:61-71 | A row is refused if and only if appending it would exceed the evidence bound |
| `SyncSafety.ObservationFitsIsExact` | src/schedule_sync.cpp:192-200 | The same for an observation |
| `SyncTheorems.QueueConservation` | src/schedule_sync.cpp:139-148 | In every run, what was sent to a queue is what was received followed by its contents, never above capacity |
| `SyncTheorems.LogIsTruthful` | src/schedule_sync.cpp:65-71 | In every run the logged sends and receives are prefixes of the real ones, and all of them until cancellation |
| `SyncTheorems.AtMostOneRuns` | src/schedule_sync.cpp:294-304 | Past the barrier and until cancellation at most one actor is between boundaries |
| `SyncTheorems.AppliedIsEnabled` | src/schedule_sync.cpp:139-147 | A granted operation is still enabled when its effect is applied |
| `SyncTheorems.MutualExclusion` | src/schedule_sync.cpp:72-84 | Ownership changes only from nobody to a granted locker or from the owner to nobody, by the owner's own section |
| `SyncTheorems.FailureStays` | src/schedule_sync.cpp:40-50 | After the first failure outcome, graph and decisions never change |
| `SyncMisuse.MisuseExactly` | src/schedule_sync.cpp:127-138 | A section makes an unspoilt run one of misuse if and only if it is a foreign call, names an undeclared resource or one of the wrong kind, or acts against the history of logged locks and unlocks (asks for what it holds, gives back what it does not hold, ends holding) |
| `SyncMisuse.MisuseHasACause` | src/schedule_sync.cpp:127-138 | In every run that ends as misuse some section was such an abuse, by the declarations and the histories up to it |
| `SyncMisuse.AbuseIsMisuse` | src/schedule_sync.cpp:127-138 | Every such abuse of a run that was not cancelled is misuse, for good |
| `SyncMisuse.StepAgrees` | src/schedule_sync.cpp:140-149 | Until cancellation the logged history says exactly who owns what |
| `SyncMisuse.FailsExactly` | src/schedule_sync.cpp:40-50 | A section fails a run that was not cancelled if and only if it is one of the listed troubles |
| `SyncMisuse.EveryFailureHasACause` | src/schedule_sync.cpp:40-56 | In every run the reported outcome is the doing of one section that did what the outcome says |
| `SyncMisuse.FinishedExactly` | src/schedule_sync.cpp:310-326 | A run at rest says that it has finished if and only if every actor has, and only then does cleaning up leave it completed |
| `SyncReplays.OnlyADeadlockCancels` | src/schedule_sync.cpp:281-315 | With disciplined workers, nothing late and evidence that fits, a run is not cancelled before a deadlock |
| `SyncReplays.SmoothGoesOn` | src/schedule_sync.cpp:123-149 | Such a section does not cancel the run, unless it is the query that finds the deadlock |
| `SyncReached.EveryNodeIsShown` | src/schedule_sync.cpp:424-430 | Every path of the tree within the bounds is taken by such a run, which then shows the node: its enabled actors, everybody finished, or the deadlock |
| `SyncReached.TreeOfRuns` | src/schedule_sync.cpp:424-450 | A path within the bounds is in the explored tree if and only if some run of the scheduler comes to rest with exactly those decisions |
| `SyncTheorems.DeadlockVerdict` | src/schedule_sync.cpp:281-288 | A `controlled_deadlock` verdict in any run means that every wait is for a mutex of another waiting actor, a full queue or an empty queue; if all are locks there is a cycle of at least two |
| `SyncTheorems.DeadlockExactly` | src/schedule_sync.cpp:281-288 | The query declares it if and only if some actor is unfinished and none is enabled |
| `SyncTheorems.DeadlockNamesEveryone` | src/schedule_sync.cpp:40-50 | Every unfinished actor is parked, listed in the kept graph, and stuck |
| `SyncTheorems.LockDeadlockHasCycle` | src/schedule_sync.cpp:72-96 | A stuck graph of lock waits has a cycle of at least two distinct waiters |
| `SyncTheorems.EvidenceBounded` | src/schedule_sync.cpp:61-71 | Serialized events and observations never exceed the bound, in any run |
| `WaitGraph.EveryWaiterWaitsMeansCycle` | src/schedule_sync.cpp:281-288 | Finitely many waiters that each wait for another one contain a cycle of two or more |
| `Coordinators.Coordinator.constructor` | src/schedule_sync.cpp:225-237 | Declared actors and resources are an initial state of the machine |
| `Coordinators.Coordinator.CollectWaits` | src/schedule_sync.cpp:45-46 | The parked unfinished actors with what they wait for, in order |
| `Coordinators.Coordinator.MarkFailed` | src/schedule_sync.cpp:40-50 | The first failure is kept with the graph of that moment; every failure cancels |
| `Coordinators.Coordinator.RecordRow` | src/schedule_sync.cpp:65-71 | A row is appended if and only if it fits, otherwise the run fails |
| `Coordinators.Coordinator.BeginRequest` | src/schedule_sync.cpp:123-139 | A request is refused or parked with its operation pending; `SyncMisuse.MisuseExactly` says when it is refused |
| `Coordinators.Coordinator.CompleteRequest` | src/schedule_sync.cpp:140-149 | A granted request is still enabled, applies its operation once, records it and delivers the received value; the machine's step |
| `Coordinators.Coordinator.ReleaseOnUnwind` | src/schedule_sync.cpp:158-162 | Unwinding releases a mutex only for its owner; the machine's step |
| `Coordinators.Coordinator.ReleaseAll` | src/schedule_sync.cpp:257-260 | Exactly the mutexes held are released, and holding one is misuse unless cancelled |
| `Coordinators.Coordinator.FinishWorker` | src/schedule_sync.cpp:255-261 | A worker's last section is the machine's step |
| `Coordinators.Coordinator.QueryEnabled` | src/schedule_sync.cpp:281-288 | The enabled actors in order, and the deadlock verdict, as the machine's step |
| `Coordinators.Coordinator.GrantActor` | src/schedule_sync.cpp:289-301 | A choice is refused, exhausted or granted as the machine's step |
| `Coordinators.Coordinator.EndWait` | src/schedule_sync.cpp:302-313 | The end of the controller's wait as the machine's step |
| `Coordinators.Coordinator.CancelRun` | src/schedule_sync.cpp:321-327 | Cleaning up an unfinished run cancels it, a failure is kept; the machine's step |
| `Coordinators.Coordinator.CrashWorker` | src/schedule_sync.cpp:254-254 | An exception of a worker fails a run that is not cancelled, as the machine's step |
| `Coordinators.Coordinator.ForeignCall` | src/schedule_sync.cpp:127-127 | A hook used from a foreign thread is misuse, as the machine's step |
| `Coordinators.Coordinator.PassBarrier` | src/schedule_sync.cpp:265-269 | The end of the initial barrier as the machine's step |
| `Coordinators.Coordinator.RetainObservation` | src/schedule_sync.cpp:175-202 | An observation is kept when it came in time, is sound and fits, as the machine's step |
| `SyncDriver.Others` | src/schedule_sync.cpp:250-262 | Any sections of the workers leave the controller, the decisions and the observations alone, and a failure as it was |
| `SyncDriver.AdvanceBy` | src/schedule_sync.cpp:289-315 | One `advance`: it stays the first failure, or has taken exactly the decision asked for; in a calm world it comes to rest after any choice that is offered |
| `SyncDriver.Replay` | src/schedule_sync.cpp:424-435 | The replay of a prefix: without a failure exactly these decisions were taken and the answer is the enabled actors; in a calm world it reports the node of the prefix |
| `ChoiceTree.PreorderOfTheTree` | src/schedule_sync.cpp:406-451 | The preorder lists exactly the nodes within the depth, each once, ancestors first and earlier choices first |
| `ChoiceTree.NothingDeeper` | src/schedule_sync.cpp:447-447 | When no node at the decision bound is open the tree ends there |
| `Explorer.Explore` | src/schedule_sync.cpp:373-456 | Refused exactly out of bounds; the evidence never exceeds its bound; complete, the rows are the preorder of the tree, nothing interfered and the counters are the numbers of leaves; ended early, all but the last run went well and the stop reason is true (the run bound, a tree of more than 4096 nodes, the decision bound at an open node, or what the clock or the last run did); a calm world completes every tree within the bounds |
| `Explorer.TreeAboveTheStack` | src/schedule_sync.cpp:409-409 | Every prefix on the stack owes at least one node of the tree |
| `Explorer.NothingInTheWay` | src/schedule_sync.cpp:393-455 | With nothing outside in the way, no reason to stop can be given for a tree within the bounds |
| `Explorer.CompleteMeansEveryNode` | src/schedule_sync.cpp:406-451 | What a complete exploration visits is exactly the tree, each node once, in order |
| `SyncDeterminism.StepTracks` | src/schedule_sync.cpp:123-313 | With workers whose next request depends only on the results of their earlier ones, every section keeps the machine where the decisions lead |
| `SyncDeterminism.DecisionsDetermineTheState` | src/schedule_sync.cpp:424-430 | Two undisturbed runs with the same decisions have the same pending operations, results, finished actors, owners and queues, whatever the interleaving |
| `SyncDeterminism.ReplayShowsItsNode` | src/schedule_sync.cpp:426-430 | An undisturbed run between decisions shows the node of its decisions: the enabled actors, everybody finished, or the deadlock that the query declares |
| `SyncDeterminism.ProgramHasDistinctChoices` | src/schedule_sync.cpp:91-95 | No actor is offered twice at a node |
| `ExploredRuns.EveryRunIsAPath` | src/schedule_sync.cpp:289-301 | The decisions of every run, finished or cut off anywhere, are a path of the tree of enabled choices |
| `ExploredRuns.CompleteExplorationCoversEveryRun` | src/schedule_sync.cpp:373-456 | What a complete exploration has visited includes, exactly once, the decisions of every run that the scheduler can make with those workers |
| `Explorer.Exploration.constructor` | src/schedule_sync.cpp:377-392 | The exploration starts with the root on the stack when the reserve fits |
| `Explorer.Exploration.RetainRow` | src/schedule_sync.cpp:398-405 | A row is kept with the reserve intact; exactly when it does not fit, an omission row takes its place within the reserve |
| `Explorer.Exploration.Replay` | src/schedule_sync.cpp:424-435 | Undisturbed, a replayed prefix shows its own node; it fails exactly when its start or one of its advances is disturbed |
| `Explorer.Exploration.PushChoices` | src/schedule_sync.cpp:448-450 | The choices are pushed in reverse so that the first is popped first |
| `Explorer.Exploration.Run` | src/schedule_sync.cpp:411-444 | Every attempt leaves exactly one row; it is usable if nothing got in its way, and otherwise the stop reason says what did |
| `Explorer.Exploration.Acquire` | src/schedule_sync.cpp:411-438 | Factory, deadline, replay, cleanup and budget in their order: each verdict on an attempt has its cause |
| `Explorer.Exploration.Conclude` | src/schedule_sync.cpp:452-454 | The evidence handed back is that of the last look at the clock |
| `Explorer.Exploration.Expand` | src/schedule_sync.cpp:445-450 | Leaves are counted and open nodes extended; visited nodes and stack together stay the preorder |
| `Explorer.Exploration.Iterate` | src/schedule_sync.cpp:410-450 | One turn keeps the invariant or ends within the byte bound |
| `Explorer.Exploration.Loop` | src/schedule_sync.cpp:406-451 | The loop ends with an empty stack, or with a reason that is true |
| `Explorer.CounterGrowth` | src/schedule_sync.cpp:388-390 | A counter step costs at most one byte |
| `Explorer.OmissionGrowth` | src/schedule_sync.cpp:401-403 | An omission row with its comma costs at most 91 bytes |
| `Lines.Receiver.ReadLine` | src/detail/line.hpp:37-80 | However the stream is cut into reads, the answer is that of the whole stream: its first line and what follows, the size error, a clean end, or a broken line |
| `Lines.Receiver.Receive` | src/transport.cpp:38-56 | An empty line reads as a closed peer |
| `Lines.Receiver.ReceiveAll` | src/detail/line.hpp:37-80 | Repeated reading returns the lines of the whole stream up to the first thing that is not a line |
| `Lines.Sender.Send` | src/transport.cpp:30-36 | A line is refused, with nothing written, if and only if it is empty, holds a newline or is over 65535 bytes |
| `Lines.Sender.SendAll` | src/transport.cpp:30-36 | What is written is the accepted lines, framed, in order |
| `Lines.HeadLines` | src/detail/line.hpp:37-80 | Framed lines at the head of a stream are received as they are, whatever follows |
| `Lines.StreamIsItsLines` | src/detail/line.hpp:37-80 | Any stream is its lines, framed, and a tail that begins with no line |
| `Lines.SentIsReceived` | src/detail/line.hpp:82-99 | Of any lines sent, exactly the accepted ones arrive, unchanged and in order, then a clean end |
| `Lines.OversizedIsRefused` | src/detail/line.hpp:40-57 | A line over the limit gives the size error wherever it stands, with or without its newline |
| `Stepping.OneRegistration` | src/protocol.cpp:550-563 | Of all registrations ever asked for on one guard at most one is let through |
| `Stepping.PhaseTellsHistory` | src/protocol.cpp:550-564 | The early phases by all calls so far: idle without a registration, validating exactly after a plain first registration without a verdict, exploring exactly in a session that has not ended |
| `Stepping.PlainRegistrationWaits` | src/protocol.cpp:556-564 | A guard with one call is one that the stepping loop can succeed from if and only if that call was a plain registration |
| `Stepping.DoneIsFinal` | src/protocol.cpp:550-651 | Over any calls a finished session stays finished |
| `Stepping.NeverBack` | src/protocol.cpp:550-651 | Over any calls the phase never goes back |
| `Stepping.ReportsOnlyInTraces` | src/protocol.cpp:582-587 | A report is let through if and only if an initial state was let through before and no end of the steps since |
| `Stepping.AwaitValidation` | src/client.cpp:38-73 | The loop is entered if and only if the first message is a valid validation in the validating phase; a refusal closes the transport unless decoding raised |
| `Stepping.Answer` | src/client.cpp:96-135 | One report per step, computed from the previous state; a throwing computer or a failed send closes the transport, a report that does not serialize leaves it |
| `Stepping.DispatchMeans` | src/client.cpp:80-159 | The loop goes on exactly with messages of the body, and only an initial state first; it succeeds exactly on `all_steps_done` after that |
| `Stepping.RunSteppingLoop` | src/client.cpp:38-161 | Success if and only if the guard's first registration was a plain one without a verdict since and the conversation conforms; the reports sent are the fold of the computer over the steps received, on every exit; the transport is closed if and only if nothing escaped: no line on which decoding raises and no computed report that does not serialize |
| `Stepping.UnserializableReportEscapes` | src/client.cpp:111-111 | A good conversation whose first computed state holds a text that is not UTF-8 leaves the transport open |
| `Stepping.NothingEscapes` | src/client.cpp:38-161 | When decoding never raises and every state serializes, nothing escapes |
| `Stepping.FoldIsUnique` | src/client.cpp:96-135 | The reports are determined by the steps |
| `Stepping.OnlyTheShapeDecides` | src/client.cpp:38-161 | With a total computer and working sends, the loop's success depends only on the shape of the stream |
| `ImportClauses.DependencyTokens` | src/spec.cpp:39-85 | The index-driven scanner yields the identifiers and commas outside strings, line comments and nested block comments |
| `ImportClauses.CommentIsTransparent` | src/spec.cpp:44-60 | A block comment, nested to any depth, before some code changes none of its tokens |
| `ImportClauses.LineCommentIsTransparent` | src/spec.cpp:54-57 | A line comment changes no tokens of the code behind it |
| `ImportClauses.StringIsTransparent` | src/spec.cpp:61-69 | A string, escapes included, contributes no tokens |
| `ImportClauses.FindImports` | src/spec.cpp:87-105 | The single pass over the tokens yields the names of all clauses, in order |
| `ImportClauses.ExtendsClause` | src/spec.cpp:91-99 | Every name of a written EXTENDS list is found, and the clauses behind it too |
| `ImportClauses.EveryClauseIsFound` | src/spec.cpp:87-105 | Whatever import clauses a module is written with, each EXTENDS list to its end, between whatever other tokens, commas included, the names found are theirs, all of them and in order |
| `ImportClauses.WordIsOneToken` | src/spec.cpp:71-81 | A written name of letters, digits and underscores is one token |
| `ImportClauses.WrittenExtends` | src/spec.cpp:91-99 | A module that says EXTENDS with such names imports exactly those, and what the code behind the clause imports |
| `ImportClauses.WrittenInstance` | src/spec.cpp:100-102 | And so for INSTANCE and the one name behind it |
| `SpecClosure.Candidates` | src/spec.cpp:188-206 | The distinct files an import may mean, in search order |
| `SpecClosure.Walk.PushFile` | src/spec.cpp:160-176 | A file is read once; pushing fails if and only if it does not resolve or cannot be read |
| `SpecClosure.Walk.Resolve` | src/spec.cpp:197-230 | An import is resolved to its one candidate, at most one level deeper; failing means that a reachable file is unreadable or not resolvable |
| `SpecClosure.Walk.Expand` | src/spec.cpp:184-231 | All imports of one file are resolved among the files found |
| `SpecClosure.Walk.Finish` | src/spec.cpp:180-232 | The loop over the growing list ends on any file system, cyclic imports included |
| `SpecClosure.WalkIsComplete` | src/spec.cpp:180-232 | A finished walk has found exactly the reachable files, once each, in nondecreasing import distance, all readable and resolvable |
| `SpecClosure.SpecFromFiles` | src/spec.cpp:152-237 | Success if and only if the root resolves and every reachable file is readable with exactly one candidate for each import that is not built in; then the sources are those of the closure, root first |

## Left out

- Sockets, TLS, subprocesses, HTTP and registry discovery: operating-system and library calls.
- JSON parsing and printing of arbitrary documents; only the text of canonical trees is modelled, and receipts start from their fields.
- Non-canonical numerals such as `007`, which the big-integer library reads or refuses: `lenient` in the codec stands for any of its answers.
- Characters of texts stand for bytes; nothing but the validity of UTF-8 is modelled of encodings.
- Real time, wake-ups of condition variables, thread-local destructors and memory order: deadlines and steps are chosen freely instead.
- The text that the serializer makes of an input is given beside its tree; that a policy's budgets are positive and at most a day is all that is modelled of them.
- Error-message texts, diff hints, cleanup attempt rows and the budget flags of single sync executions.
- The cleanup joins and teardown of the sync scheduler (`src/schedule_sync.cpp:328-356`), which repeat what is proved of the checkpoint scheduler; the explorer takes their result from its world.
- The model-interface negotiation, `BindingSession`, explore sessions, asynchronous jobs, the CLI and the generated fixtures: thin layers that would add easy members.
- Explorer.Explore: a program is a function of its decision prefix, as the exploration itself presumes; `ReplayShowsItsNode` shows it for workers that depend on nothing but the results of their own requests, and workers that share anything else are outside the statement.
- SpecClosure.SpecFromFiles: files do not change while the walk runs, and resolving a resolved path gives the same path.
