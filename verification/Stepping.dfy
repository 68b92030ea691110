/** The client side of the stepping protocol: the phase guard and the loop that answers every
    step of the mirror with the state it computes. */
module Stepping {
  import opened Schedules
  import opened Values
  import opened Reports

  datatype Phase = Idle | Validating | Ready | StepPhase | Exploring | Done

  /** What the mirror sends; the explorer's replies and the job replies are one case each. */
  datatype Mirror<S> =
    | SpecValidated(valid: bool) | InitialState(action: string, args: S) | NextStep(action: string, args: S)
    | StepOk | AllStepsDone | StepMismatch | GenTracesDone | RegisterError | ProtocolError
    | ExploreReply | ExploreSessionDone | JobReply

  /** What the client sends, by the kinds the guard tells apart. */
  datatype Client = Registration(session: bool) | AsyncSubmission | JobControl | ReportState | ExploreRequest

  /** One answer of the transport: a message, a line that does not decode, a line on which decoding
      raises something that its handlers do not catch, or no line. */
  datatype Inbound<S> = Message(m: Mirror<S>) | Undecodable | Raising | NoLine

  datatype Failure =
    | Receiving | Decoding | OutOfPhase | SpecInvalid | RegistrationFailed | PeerProtocolError | UnexpectedTag
    | Sending | Mismatch

  datatype Outcome = Success | Failed(why: Failure) | Threw

  // ----- the guard ----------------------------------------------------------------------------

  function AfterSent(phase: Phase, c: Client): Option<Phase> {
    match c
    case Registration(session) => if phase == Idle then Some(if session then Exploring else Validating) else None
    case AsyncSubmission => if phase == Idle then Some(phase) else None
    case JobControl => if phase == Idle || phase == Done then Some(phase) else None
    case ReportState => if phase == StepPhase then Some(phase) else None
    case ExploreRequest => if phase == Exploring then Some(phase) else None
  }

  function AfterReceived<S>(phase: Phase, m: Mirror<S>): Option<Phase> {
    match m
    case RegisterError => Some(phase)
    case ProtocolError => Some(phase)
    case SpecValidated(valid) => if phase == Validating then Some(if valid then Ready else Done) else None
    case GenTracesDone => if phase == Validating then Some(Done) else None
    case InitialState(_, _) => if phase == Ready || phase == StepPhase then Some(StepPhase) else None
    case NextStep(_, _) => if phase == StepPhase then Some(phase) else None
    case StepOk => if phase == StepPhase then Some(phase) else None
    case AllStepsDone => if phase == StepPhase then Some(Done) else None
    case StepMismatch => if phase == StepPhase then Some(Done) else None
    case ExploreReply => if phase == Exploring then Some(phase) else None
    case ExploreSessionDone => if phase == Exploring then Some(Done) else None
    case JobReply => if phase == Idle || phase == Done then Some(phase) else None
  }

  /** One question to the guard. */
  datatype Call<S> = Sends(c: Client) | Gets(m: Mirror<S>)

  ghost function AfterCall<S>(phase: Phase, call: Call<S>): Option<Phase> {
    match call
    case Sends(c) => AfterSent(phase, c)
    case Gets(m) => AfterReceived(phase, m)
  }

  /** The phase after any calls; a refused one changes nothing. */
  ghost function PhaseAfter<S>(calls: seq<Call<S>>): Phase {
    if calls == [] then Idle
    else
      var before := PhaseAfter(calls[..|calls| - 1]);
      var next := AfterCall(before, calls[|calls| - 1]);
      if next.Some? then next.value else before
  }

  ghost predicate Accepted<S>(calls: seq<Call<S>>, k: nat)
    requires k < |calls|
  {
    AfterCall(PhaseAfter(calls[..k]), calls[k]).Some?
  }

  class PhaseGuard<!S> {
    var phase: Phase
    ghost var calls: seq<Call<S>>

    ghost predicate Valid()
      reads this
    {
      phase == PhaseAfter(calls)
    }

    constructor ()
      ensures Valid() && phase == Idle && calls == []
    {
      phase, calls := Idle, [];
    }

    /** May this message go out now? Registrations leave the idle phase, everything else stays. */
    method Sent(c: Client) returns (ok: bool)
      requires Valid()
      modifies this
      ensures Valid() && calls == old(calls) + [Sends(c)] && ok == Accepted(calls, |old(calls)|)
      ensures ok <==> AfterSent(old(phase), c).Some?
      ensures phase == if ok then AfterSent(old(phase), c).value else old(phase)
    {
      OneCallMore(calls, Sends(c));
      if c.Registration? {
        ok := phase == Idle;
        if ok { phase := if c.session then Exploring else Validating; }
      } else if c.AsyncSubmission? {
        ok := phase == Idle;
      } else if c.JobControl? {
        ok := phase == Idle || phase == Done;
      } else if c.ReportState? {
        ok := phase == StepPhase;
      } else {
        ok := phase == Exploring;
      }
      calls := calls + [Sends(c)];
    }

    /** May this message come now, and where does it lead? Errors pass in any phase. */
    method Received(m: Mirror<S>) returns (ok: bool)
      requires Valid()
      modifies this
      ensures Valid() && calls == old(calls) + [Gets(m)] && ok == Accepted(calls, |old(calls)|)
      ensures ok <==> AfterReceived(old(phase), m).Some?
      ensures phase == if ok then AfterReceived(old(phase), m).value else old(phase)
    {
      OneCallMore(calls, Gets(m));
      ok := true;
      if m.SpecValidated? {
        ok := phase == Validating;
        if ok { phase := if m.valid then Ready else Done; }
      } else if m.GenTracesDone? {
        ok := phase == Validating;
        if ok { phase := Done; }
      } else if m.InitialState? {
        ok := phase == Ready || phase == StepPhase;
        if ok { phase := StepPhase; }
      } else if m.NextStep? || m.StepOk? {
        ok := phase == StepPhase;
      } else if m.AllStepsDone? || m.StepMismatch? {
        ok := phase == StepPhase;
        if ok { phase := Done; }
      } else if m.ExploreReply? {
        ok := phase == Exploring;
      } else if m.ExploreSessionDone? {
        ok := phase == Exploring;
        if ok { phase := Done; }
      } else if m.JobReply? {
        ok := phase == Idle || phase == Done;
      }
      calls := calls + [Gets(m)];
    }
  }

  // ----- what the guard guarantees over all calls ---------------------------------------------------

  lemma {:induction false} OneCallMore<S>(calls: seq<Call<S>>, call: Call<S>)
    ensures var next, more := AfterCall(PhaseAfter(calls), call), calls + [call];
            PhaseAfter(more) == (if next.Some? then next.value else PhaseAfter(calls)) && (Accepted(more, |calls|) <==> next.Some?)
    ensures forall k :: 0 <= k < |calls| ==> (Accepted(calls + [call], k) <==> Accepted(calls, k))
  {
    var more := calls + [call];
    assert more[..|more| - 1] == calls && more[..|calls|] == calls;
    forall k | 0 <= k < |calls| ensures more[..k] == calls[..k] && more[k] == calls[k] { }
  }

  function Rank(phase: Phase): nat {
    match phase
    case Idle => 0
    case Validating => 1
    case Exploring => 1
    case Ready => 2
    case StepPhase => 3
    case Done => 4
  }

  /** Phases never go back. */
  lemma {:induction false} NeverBack<S>(calls: seq<Call<S>>, k: nat)
    requires k <= |calls|
    ensures Rank(PhaseAfter(calls[..k])) <= Rank(PhaseAfter(calls))
    decreases |calls| - k
  {
    if k < |calls| {
      var n := |calls| - 1;
      NeverBack(calls[..n], k);
      assert calls[..n][..k] == calls[..k];
    } else {
      assert calls[..k] == calls;
    }
  }

  /** A finished session stays finished. */
  lemma {:induction false} DoneIsFinal<S>(calls: seq<Call<S>>, k: nat)
    requires k <= |calls| && PhaseAfter(calls[..k]) == Done
    ensures PhaseAfter(calls) == Done
  {
    NeverBack(calls, k);
  }

  /** Of all registrations ever asked for on one guard, at most one is let through. */
  lemma {:induction false} OneRegistration<S>(calls: seq<Call<S>>, j: nat, k: nat)
    requires j < k < |calls| && calls[j].Sends? && calls[j].c.Registration? && calls[k].Sends? && calls[k].c.Registration?
    ensures !(Accepted(calls, j) && Accepted(calls, k))
  {
    if Accepted(calls, j) {
      OneCallMore(calls[..j], calls[j]);
      assert calls[..j + 1] == calls[..j] + [calls[j]];
      assert calls[..k][..j + 1] == calls[..j + 1];
      NeverBack(calls[..k], j + 1);
    }
  }

  predicate Registers<S>(call: Call<S>) { call.Sends? && call.c.Registration? }

  predicate Verdict<S>(call: Call<S>) { call.Gets? && (call.m.SpecValidated? || call.m.GenTracesDone?) }

  predicate Leaves<S>(call: Call<S>) { call.Gets? && call.m.ExploreSessionDone? }

  /** What ends the phase that a registration has led to. */
  predicate Concludes<S>(call: Call<S>, session: bool) { if session then Leaves(call) else Verdict(call) }

  /** The first registration is the one at `j`, for an explorer session or not, and nothing has concluded it. */
  ghost predicate RegisteredAt<S>(calls: seq<Call<S>>, session: bool, j: nat) {
    && j < |calls| && Registers(calls[j]) && calls[j].c.session == session
    && (forall i :: 0 <= i < j ==> !Registers(calls[i]))
    && (forall i :: j < i < |calls| ==> !Concludes(calls[i], session))
  }

  ghost predicate Registered<S(!new)>(calls: seq<Call<S>>, session: bool) {
    exists j: nat :: RegisteredAt(calls, session, j)
  }

  /** What the early phases say about all calls so far. */
  lemma {:induction false} PhaseTellsHistory<S(!new)>(calls: seq<Call<S>>)
    ensures PhaseAfter(calls) == Idle <==> forall i :: 0 <= i < |calls| ==> !Registers(calls[i])
    ensures PhaseAfter(calls) == Validating <==> Registered(calls, false)
    ensures PhaseAfter(calls) == Exploring <==> Registered(calls, true)
  {
    if calls != [] {
      var n := |calls| - 1;
      var before, last := calls[..n], calls[n];
      assert calls == before + [last];
      PhaseTellsHistory(before);
      OneCallMore(before, last);
      EarlyPhases(PhaseAfter(before), last);
      hide AfterCall, PhaseAfter, Registers, Verdict, Leaves, Registered;
      OneCallLater(before, last, false);
      OneCallLater(before, last, true);
    }
  }

  /** How one call moves between the early phases. */
  lemma {:induction false} EarlyPhases<S>(phase: Phase, call: Call<S>)
    ensures var next := AfterCall(phase, call);
            var after := if next.Some? then next.value else phase;
            && (after == Idle <==> phase == Idle && !Registers(call))
            && (after == Validating <==> (phase == Idle && Registers(call) && !call.c.session) || (phase == Validating && !Verdict(call)))
            && (after == Exploring <==> (phase == Idle && Registers(call) && call.c.session) || (phase == Exploring && !Leaves(call)))
  {
  }

  lemma {:induction false} OneCallLater<S(!new)>(before: seq<Call<S>>, last: Call<S>, session: bool)
    ensures var none := forall i :: 0 <= i < |before| ==> !Registers(before[i]);
            Registered(before + [last], session)
            <==> (none && Registers(last) && last.c.session == session) || (Registered(before, session) && !Concludes(last, session))
  {
    var calls, n := before + [last], |before|;
    hide Concludes;
    assert calls[n] == last && forall i :: 0 <= i < n ==> calls[i] == before[i];
    if (forall i :: 0 <= i < |before| ==> !Registers(before[i])) && Registers(last) && last.c.session == session {
      assert RegisteredAt(calls, session, n);
    }
    if Registered(before, session) && !Concludes(last, session) {
      var j: nat :| RegisteredAt(before, session, j);
      assert RegisteredAt(calls, session, j);
    }
    if j: nat :| RegisteredAt(calls, session, j) {
      if j < n {
        assert !Concludes(calls[n], session);
        assert RegisteredAt(before, session, j);
      } else {
        assert forall i :: 0 <= i < n ==> !Registers(calls[i]);
      }
    }
  }

  predicate Starts<S>(call: Call<S>) { call.Gets? && call.m.InitialState? }

  predicate Ends<S>(call: Call<S>) { call.Gets? && (call.m.AllStepsDone? || call.m.StepMismatch?) }

  /** An initial state was let through at `j`, and no end of the steps since. */
  ghost predicate Open<S>(calls: seq<Call<S>>, j: nat) {
    && j < |calls| && Starts(calls[j]) && Accepted(calls, j)
    && forall i :: j < i < |calls| && Accepted(calls, i) ==> !Ends(calls[i])
  }

  lemma {:induction false} StepPhaseNext<S>(phase: Phase, call: Call<S>)
    ensures var next := AfterCall(phase, call);
            (if next.Some? then next.value else phase) == StepPhase
            <==> (next.Some? && Starts(call)) || (phase == StepPhase && !(next.Some? && Ends(call)))
    ensures !(Starts(call) && Ends(call))
  {
  }

  lemma {:induction false} StepPhaseIsOpen<S>(calls: seq<Call<S>>)
    ensures PhaseAfter(calls) == StepPhase <==> exists j: nat :: Open(calls, j)
  {
    if calls != [] {
      var n := |calls| - 1;
      var before, last := calls[..n], calls[n];
      assert calls == before + [last];
      StepPhaseIsOpen(before);
      OneCallMore(before, last);
      StepPhaseNext(PhaseAfter(before), last);
      hide AfterCall, PhaseAfter, Starts, Ends;
      if PhaseAfter(calls) == StepPhase {
        if PhaseAfter(before) == StepPhase {
          var j: nat :| Open(before, j);
          assert Open(calls, j);
        } else {
          assert Open(calls, n);
        }
      }
      if j: nat :| Open(calls, j) {
        if j < n { assert Open(before, j); }
      }
    }
  }

  /** A report is let through exactly while a trace is open: after an initial state that was let
      through, and before the end of the steps. */
  lemma {:induction false} ReportsOnlyInTraces<S>(calls: seq<Call<S>>, k: nat)
    requires k < |calls| && calls[k] == Sends(ReportState)
    ensures Accepted(calls, k) <==> exists j: nat :: Open(calls[..k], j)
  {
    StepPhaseIsOpen(calls[..k]);
  }

  // ----- what a conforming conversation is -----------------------------------------------------

  predicate IsStep<S>(m: Mirror<S>) { m.InitialState? || m.NextStep? }

  predicate InBody<S>(i: Inbound<S>) { i.Message? && (IsStep(i.m) || i.m.StepOk?) }

  /** Validation, an initial state, more of the body, and `all_steps_done` at `n`; what comes
      after that is never read. */
  ghost predicate Conversation<S(!new)>(inbox: seq<Inbound<S>>, n: nat) {
    && 2 <= n < |inbox| && inbox[0] == Message(SpecValidated(true))
    && inbox[1].Message? && inbox[1].m.InitialState?
    && (forall k :: 1 <= k < n ==> InBody(inbox[k]))
    && inbox[n] == Message(AllStepsDone)
  }

  /** The steps among some messages, in order. */
  ghost function StepsOf<S>(body: seq<Inbound<S>>): (steps: seq<Mirror<S>>)
    ensures forall k :: 0 <= k < |steps| ==> IsStep(steps[k])
  {
    if body == [] then []
    else
      var last := body[|body| - 1];
      StepsOf(body[..|body| - 1]) + if last.Message? && IsStep(last.m) then [last.m] else []
  }

  /** A state computer: the number of the call, the action, its arguments and the previous state;
      no answer means that it throws. */
  type Computer<!S> = (nat, string, S, S) -> Option<S>

  /** The `k`-th report is computed from the `k`-th step and the report before it, or from the
      empty state when the step starts a trace. */
  ghost predicate IsFold<S(!new)>(compute: Computer<S>, empty: S, steps: seq<Mirror<S>>, reports: seq<S>)
    requires forall k :: 0 <= k < |steps| ==> IsStep(steps[k])
  {
    && |reports| == |steps|
    && forall k :: 0 <= k < |reports| ==> Follows(compute, empty, steps[k], reports, k)
  }

  ghost predicate Follows<S(!new)>(compute: Computer<S>, empty: S, step: Mirror<S>, reports: seq<S>, k: nat)
    requires k < |reports| && IsStep(step)
  {
    compute(k, step.action, step.args, Previous(empty, step, reports, k)) == Some(reports[k])
  }

  ghost function Previous<S>(empty: S, step: Mirror<S>, reports: seq<S>, k: nat): S
    requires k <= |reports|
  {
    if step.InitialState? || k == 0 then empty else reports[k - 1]
  }

  lemma {:induction false} FoldPrefix<S(!new)>(compute: Computer<S>, empty: S, steps: seq<Mirror<S>>, reports: seq<S>, n: nat)
    requires (forall k :: 0 <= k < |steps| ==> IsStep(steps[k])) && IsFold(compute, empty, steps, reports) && n <= |steps|
    ensures IsFold(compute, empty, steps[..n], reports[..n])
  {
    forall k | 0 <= k < n ensures Follows(compute, empty, steps[..n][k], reports[..n], k) {
      assert Follows(compute, empty, steps[k], reports, k);
    }
  }

  /** A fold is determined by its steps. */
  lemma {:induction false} FoldIsUnique<S(!new)>(compute: Computer<S>, empty: S, steps: seq<Mirror<S>>, a: seq<S>, b: seq<S>)
    requires forall k :: 0 <= k < |steps| ==> IsStep(steps[k])
    requires IsFold(compute, empty, steps, a) && IsFold(compute, empty, steps, b)
    ensures a == b
  {
    if steps != [] {
      var n := |steps| - 1;
      FoldPrefix(compute, empty, steps, a, n);
      FoldPrefix(compute, empty, steps, b, n);
      FoldIsUnique(compute, empty, steps[..n], a[..n], b[..n]);
      assert Follows(compute, empty, steps[n], a, n) && Follows(compute, empty, steps[n], b, n);
      assert n > 0 ==> a[n - 1] == a[..n][n - 1] && b[n - 1] == b[..n][n - 1];
      assert a == a[..n] + [a[n]] && b == b[..n] + [b[n]];
    }
  }

  lemma {:induction false} FoldNext<S(!new)>(compute: Computer<S>, empty: S, steps: seq<Mirror<S>>, reports: seq<S>, step: Mirror<S>, report: S)
    requires (forall k :: 0 <= k < |steps| ==> IsStep(steps[k])) && IsStep(step)
    requires IsFold(compute, empty, steps, reports)
    requires compute(|reports|, step.action, step.args, Previous(empty, step, reports, |reports|)) == Some(report)
    ensures IsFold(compute, empty, steps + [step], reports + [report])
  {
    var all := reports + [report];
    forall k | 0 <= k < |all| ensures Follows(compute, empty, (steps + [step])[k], all, k) {
      if k < |reports| { assert Follows(compute, empty, steps[k], reports, k); }
    }
  }

  // ----- the transport ---------------------------------------------------------------------------

  /** What became of one report: sent, not sent, or not even serialized. */
  datatype Delivery = Delivered | NotSent | NotSerialized

  class Transport<!S(==)> {
    const inbox: seq<Inbound<S>>
    const sendOk: nat -> bool
    const serializes: S -> bool
    var read: nat
    var sent: seq<S>
    var closed: bool

    constructor (inbox: seq<Inbound<S>>, sendOk: nat -> bool, serializes: S -> bool)
      ensures this.inbox == inbox && this.sendOk == sendOk && this.serializes == serializes
      ensures read == 0 && sent == [] && !closed
    {
      this.inbox, this.sendOk, this.serializes, read, sent, closed := inbox, sendOk, serializes, 0, [], false;
    }

    /** The next answer of the peer; nothing more comes after the last one. */
    method Receive() returns (i: Inbound<S>)
      requires read <= |inbox|
      modifies `read
      ensures read <= |inbox| && i == (if old(read) < |inbox| then inbox[old(read)] else NoLine)
      ensures read == if old(read) < |inbox| then old(read) + 1 else old(read)
    {
      if read == |inbox| { return NoLine; }
      i := inbox[read];
      read := read + 1;
    }

    /** A report is serialized first, which may raise, and then written, which may fail. */
    method Send(report: S) returns (d: Delivery)
      modifies `sent
      ensures d == if !serializes(report) then NotSerialized else if sendOk(|old(sent)|) then Delivered else NotSent
      ensures sent == old(sent) + if d == Delivered then [report] else []
    {
      if !serializes(report) { return NotSerialized; }
      if !sendOk(|sent|) { return NotSent; }
      sent := sent + [report];
      return Delivered;
    }

    method Close()
      modifies `closed
      ensures closed
    {
      closed := true;
    }
  }

  // ----- when the loop succeeds, and when something escapes it ----------------------------------------

  /** The state computer with its empty state, which sends succeed, and which states serialize. */
  datatype World<!S> = World(compute: Computer<S>, empty: S, sendOk: nat -> bool, serializes: S -> bool)

  ghost function Body<S>(inbox: seq<Inbound<S>>, n: nat): seq<Inbound<S>>
    requires n <= |inbox|
  {
    if n == 0 then [] else inbox[1..n]
  }

  /** Every report so far was serialized and sent. */
  ghost predicate Delivers<S(!new)>(w: World<S>, reports: seq<S>) {
    forall k :: 0 <= k < |reports| ==> w.serializes(reports[k]) && w.sendOk(k)
  }

  ghost predicate ConformsAt<S(!new)>(inbox: seq<Inbound<S>>, w: World<S>, n: nat, reports: seq<S>) {
    Conversation(inbox, n) && IsFold(w.compute, w.empty, StepsOf(Body(inbox, n)), reports) && Delivers(w, reports)
  }

  /** The mirror keeps to the protocol, the computer answers every step, and every report goes out. */
  ghost predicate Conforms<S(!new)>(inbox: seq<Inbound<S>>, w: World<S>) {
    exists n: nat, reports :: ConformsAt(inbox, w, n, reports)
  }

  /** Where the loop stands after `i` messages: validated, all of the body, all of it answered. */
  ghost predicate Underway<S(!new)>(inbox: seq<Inbound<S>>, w: World<S>, i: nat, sent: seq<S>) {
    && 1 <= i <= |inbox| && inbox[0] == Message(SpecValidated(true))
    && (i > 1 ==> inbox[1].Message? && inbox[1].m.InitialState?)
    && (forall k :: 1 <= k < i ==> InBody(inbox[k]))
    && IsFold(w.compute, w.empty, StepsOf(Body(inbox, i)), sent) && Delivers(w, sent)
  }

  /** The computer's answer to a step that comes after `sent`. */
  ghost function Next<S>(w: World<S>, step: Mirror<S>, sent: seq<S>): Option<S>
    requires IsStep(step)
  {
    w.compute(|sent|, step.action, step.args, Previous(w.empty, step, sent, |sent|))
  }

  /** The message at `i` is of the body, an initial state if it is the first, and gets its report out. */
  ghost predicate Continues<S>(inbox: seq<Inbound<S>>, w: World<S>, i: nat, sent: seq<S>) {
    && i < |inbox| && InBody(inbox[i]) && (i == 1 ==> inbox[i].m.InitialState?)
    && (IsStep(inbox[i].m) ==> Next(w, inbox[i].m, sent).Some? && w.serializes(Next(w, inbox[i].m, sent).value) && w.sendOk(|sent|))
  }

  /** At `i` something escapes: decoding raises, or the report to a due step does not serialize. */
  ghost predicate Raises<S>(inbox: seq<Inbound<S>>, w: World<S>, i: nat, sent: seq<S>) {
    && i < |inbox|
    && (inbox[i].Raising?
        || (InBody(inbox[i]) && IsStep(inbox[i].m) && (i == 1 ==> inbox[i].m.InitialState?)
            && Next(w, inbox[i].m, sent).Some? && !w.serializes(Next(w, inbox[i].m, sent).value)))
  }

  /** The first message raises, or the conversation goes well up to a point where something does. */
  ghost predicate Escapes<S(!new)>(inbox: seq<Inbound<S>>, w: World<S>, phase: Phase) {
    || (inbox != [] && inbox[0].Raising?)
    || (phase == Validating && exists i: nat, sent :: EscapesAt(inbox, w, i, sent))
  }

  ghost predicate EscapesAt<S(!new)>(inbox: seq<Inbound<S>>, w: World<S>, i: nat, sent: seq<S>) {
    Underway(inbox, w, i, sent) && Raises(inbox, w, i, sent)
  }

  lemma {:induction false} StepsAppend<S>(inbox: seq<Inbound<S>>, n: nat)
    requires 1 <= n < |inbox|
    ensures StepsOf(Body(inbox, n + 1))
         == StepsOf(Body(inbox, n)) + if inbox[n].Message? && IsStep(inbox[n].m) then [inbox[n].m] else []
  {
    var body := Body(inbox, n + 1);
    assert body[..|body| - 1] == Body(inbox, n) && body[|body| - 1] == inbox[n];
  }

  lemma {:induction false} StepsPrefix<S>(inbox: seq<Inbound<S>>, i: nat, n: nat)
    requires 1 <= i <= n <= |inbox|
    ensures StepsOf(Body(inbox, i)) <= StepsOf(Body(inbox, n))
    decreases n - i
  {
    if i < n {
      StepsPrefix(inbox, i + 1, n);
      StepsAppend(inbox, i);
    }
  }

  /** Whoever is further along has continued here, with the same reports. */
  lemma {:induction false} FurtherAlong<S(!new)>(inbox: seq<Inbound<S>>, w: World<S>, i: nat, sent: seq<S>, n: nat, reports: seq<S>)
    requires Underway(inbox, w, i, sent) && Underway(inbox, w, n, reports) && i <= n
    ensures if i == n then sent == reports else Continues(inbox, w, i, sent)
  {
    if i == n {
      FoldIsUnique(w.compute, w.empty, StepsOf(Body(inbox, i)), sent, reports);
    } else if IsStep(inbox[i].m) {
      StepAnswered(inbox, w, i, sent, n, reports);
    }
  }

  lemma {:induction false} StepAnswered<S(!new)>(inbox: seq<Inbound<S>>, w: World<S>, i: nat, sent: seq<S>, n: nat, reports: seq<S>)
    requires Underway(inbox, w, i, sent) && Underway(inbox, w, n, reports) && i < n && IsStep(inbox[i].m)
    ensures |sent| < |reports| && Next(w, inbox[i].m, sent) == Some(reports[|sent|])
    ensures w.serializes(reports[|sent|]) && w.sendOk(|sent|)
  {
    StepsAppend(inbox, i);
    StepsPrefix(inbox, i + 1, n);
    hide StepsOf, IsFold;
    LongerFold(w, StepsOf(Body(inbox, i)), sent, inbox[i].m, StepsOf(Body(inbox, n)), reports);
  }

  /** A longer fold answers the next step from the same reports. */
  lemma {:induction false} LongerFold<S(!new)>(w: World<S>, some: seq<Mirror<S>>, sent: seq<S>, step: Mirror<S>, all: seq<Mirror<S>>, reports: seq<S>)
    requires (forall k :: 0 <= k < |some| ==> IsStep(some[k])) && IsFold(w.compute, w.empty, some, sent)
    requires (forall k :: 0 <= k < |all| ==> IsStep(all[k])) && IsFold(w.compute, w.empty, all, reports)
    requires IsStep(step) && some + [step] <= all
    ensures |sent| < |reports| && Next(w, step, sent) == Some(reports[|sent|])
  {
    var k := |sent|;
    assert all[k] == (some + [step])[k] == step && all[..k] == some;
    FoldPrefix(w.compute, w.empty, all, reports, k);
    FoldIsUnique(w.compute, w.empty, some, reports[..k], sent);
    assert Follows(w.compute, w.empty, all[k], reports, k);
    assert k > 0 ==> reports[k - 1] == reports[..k][k - 1];
  }

  lemma {:induction false} ConformingIsUnderway<S(!new)>(inbox: seq<Inbound<S>>, w: World<S>, n: nat, reports: seq<S>)
    requires ConformsAt(inbox, w, n, reports)
    ensures n < |inbox| && Underway(inbox, w, n, reports) && inbox[n] == Message(AllStepsDone)
  {
    hide StepsOf, IsFold, Delivers;
  }

  /** A conforming conversation goes on here or ends here. */
  lemma {:induction false} GoesOnOrEnds<S(!new)>(inbox: seq<Inbound<S>>, w: World<S>, i: nat, sent: seq<S>)
    requires Underway(inbox, w, i, sent) && Conforms(inbox, w)
    ensures Continues(inbox, w, i, sent) || (i < |inbox| && inbox[i] == Message(AllStepsDone) && i > 1)
  {
    var n: nat, reports :| ConformsAt(inbox, w, n, reports);
    assert n > 1;
    ConformingIsUnderway(inbox, w, n, reports);
    hide ConformsAt, Continues;
    assert !InBody(inbox[n]);
    if i <= n { FurtherAlong(inbox, w, i, sent, n, reports); }
  }

  /** What escapes does so here or later. */
  lemma {:induction false} EscapesHereOrLater<S(!new)>(inbox: seq<Inbound<S>>, w: World<S>, i: nat, sent: seq<S>)
    requires Underway(inbox, w, i, sent) && Escapes(inbox, w, Validating)
    ensures Continues(inbox, w, i, sent) || Raises(inbox, w, i, sent)
  {
    assert inbox[0].Message?;
    var n: nat, reports :| EscapesAt(inbox, w, n, reports);
    hide Underway;
    if i <= n {
      FurtherAlong(inbox, w, i, sent, n, reports);
    } else {
      FurtherAlong(inbox, w, n, reports, i, sent);
    }
  }

  /** One more message of the body, answered if it is a step. */
  lemma {:induction false} UnderwayNext<S(!new)>(inbox: seq<Inbound<S>>, w: World<S>, i: nat, sent: seq<S>)
    requires Underway(inbox, w, i, sent) && Continues(inbox, w, i, sent)
    ensures Underway(inbox, w, i + 1, if IsStep(inbox[i].m) then sent + [Next(w, inbox[i].m, sent).value] else sent)
  {
    StepsAppend(inbox, i);
    hide StepsOf;
    if IsStep(inbox[i].m) {
      FoldNext(w.compute, w.empty, StepsOf(Body(inbox, i)), sent, inbox[i].m, Next(w, inbox[i].m, sent).value);
    }
  }

  lemma {:induction false} Finished<S(!new)>(inbox: seq<Inbound<S>>, w: World<S>, i: nat, sent: seq<S>)
    requires Underway(inbox, w, i, sent) && 1 < i < |inbox| && inbox[i] == Message(AllStepsDone)
    ensures ConformsAt(inbox, w, i, sent) && Conforms(inbox, w)
  {
    assert ConformsAt(inbox, w, i, sent);
  }

  lemma {:induction false} FirstMessage<S(!new)>(inbox: seq<Inbound<S>>, w: World<S>)
    ensures Conforms(inbox, w) ==> inbox != [] && inbox[0] == Message(SpecValidated(true))
    ensures inbox != [] && inbox[0] == Message(SpecValidated(true)) ==> Underway(inbox, w, 1, [])
    ensures forall phase :: Escapes(inbox, w, phase) ==>
              inbox != [] && (inbox[0].Raising? || (phase == Validating && inbox[0] == Message(SpecValidated(true))))
    ensures forall phase :: inbox != [] && inbox[0].Raising? ==> Escapes(inbox, w, phase)
  {
    hide StepsOf;
    assert Body(inbox, 0) == [];
    if inbox != [] { assert Body(inbox, 1) == []; }
    NoSteps<S>();
  }

  lemma {:induction false} NoSteps<S>()
    ensures StepsOf<S>([]) == []
  {
  }

  /** On every exit: the reports are the fold over the first steps received. */
  ghost predicate SentIsFold<S(!new)>(inbox: seq<Inbound<S>>, w: World<S>, read: nat, sent: seq<S>) {
    && read <= |inbox| && |sent| <= |StepsOf(Body(inbox, read))|
    && IsFold(w.compute, w.empty, StepsOf(Body(inbox, read))[..|sent|], sent)
  }

  lemma {:induction false} StillFold<S(!new)>(inbox: seq<Inbound<S>>, w: World<S>, i: nat, sent: seq<S>)
    requires Underway(inbox, w, i, sent)
    ensures SentIsFold(inbox, w, i, sent)
    ensures i < |inbox| ==> SentIsFold(inbox, w, i + 1, sent)
  {
    assert StepsOf(Body(inbox, i))[..|sent|] == StepsOf(Body(inbox, i));
    if i < |inbox| {
      StepsAppend(inbox, i);
      assert StepsOf(Body(inbox, i + 1))[..|sent|] == StepsOf(Body(inbox, i));
    }
  }

  lemma {:induction false} NothingSent<S(!new)>(inbox: seq<Inbound<S>>, w: World<S>)
    ensures SentIsFold(inbox, w, 0, []) && (inbox != [] ==> SentIsFold(inbox, w, 1, []))
  {
  }

  // ----- the loop ------------------------------------------------------------------------------------------

  /** Waits for the verdict on the specification. Every refusal closes the transport, but a line on
      which decoding raises leaves it as it is. */
  method AwaitValidation<S(==)>(t: Transport<S>, guard: PhaseGuard<S>) returns (outcome: Outcome)
    requires t.read == 0 && guard.Valid()
    modifies t, guard
    ensures guard.Valid() && t.sent == old(t.sent) && t.read == (if t.inbox == [] then 0 else 1)
    ensures outcome == Success <==> old(guard.phase) == Validating && t.inbox != [] && t.inbox[0] == Message(SpecValidated(true))
    ensures outcome == Success ==> guard.phase == Ready
    ensures t.closed <==> old(t.closed) || (outcome != Success && !(t.inbox != [] && t.inbox[0].Raising?))
  {
    var i := t.Receive();
    match i {
      case NoLine => outcome := Failed(Receiving);
      case Undecodable => outcome := Failed(Decoding);
      case Raising => return Threw;
      case Message(m) =>
        var ok := guard.Received(m);
        if !ok {
          outcome := Failed(OutOfPhase);
        } else {
          match m {
            case SpecValidated(valid) => outcome := if valid then Success else Failed(SpecInvalid);
            case RegisterError => outcome := Failed(RegistrationFailed);
            case ProtocolError => outcome := Failed(PeerProtocolError);
            case _ => outcome := Failed(UnexpectedTag);
          }
        }
    }
    if outcome != Success { t.Close(); }
  }

  /** Computes the answer to one step and reports it. A throwing computer and a failed send close the
      transport; a report that does not serialize leaves it as it is. */
  method Answer<S(==, !new)>(t: Transport<S>, guard: PhaseGuard<S>, compute: Computer<S>, step: Mirror<S>, previous: S)
    returns (outcome: Outcome)
    requires IsStep(step) && guard.Valid() && guard.phase == StepPhase
    modifies t`sent, t`closed, guard
    ensures guard.Valid() && guard.phase == StepPhase
    ensures var next := compute(|old(t.sent)|, step.action, step.args, previous);
            && (outcome == Success <==> next.Some? && t.serializes(next.value) && t.sendOk(|old(t.sent)|))
            && t.sent == old(t.sent) + (if outcome == Success then [next.value] else [])
            && (t.closed <==> old(t.closed) || (outcome != Success && !(next.Some? && !t.serializes(next.value))))
  {
    var next := compute(|t.sent|, step.action, step.args, previous);
    if next.None? {
      t.Close();
      return Threw;
    }
    var ok := guard.Sent(ReportState);
    var delivery := t.Send(next.value);
    match delivery {
      case Delivered => return Success;
      case NotSerialized => return Threw;
      case NotSent =>
        t.Close();
        return Failed(Sending);
    }
  }

  /** What one message of the loop means before any answer: go on, stop well, or fail. */
  function Dispatch<S>(phase: Phase, i: Inbound<S>): Option<Outcome> {
    match i
    case NoLine => Some(Failed(Receiving))
    case Undecodable => Some(Failed(Decoding))
    case Raising => Some(Threw)
    case Message(m) =>
      if AfterReceived(phase, m).None? then Some(Failed(OutOfPhase))
      else
        match m
        case InitialState(_, _) => None
        case NextStep(_, _) => None
        case StepOk => None
        case AllStepsDone => Some(Success)
        case StepMismatch => Some(Failed(Mismatch))
        case RegisterError => Some(Failed(RegistrationFailed))
        case ProtocolError => Some(Failed(PeerProtocolError))
        case _ => Some(Failed(UnexpectedTag))
  }

  /** The loop goes on exactly when the next message is of the body, and of a first trace first. */
  lemma {:induction false} DispatchMeans<S>(phase: Phase, i: Inbound<S>)
    requires phase == Ready || phase == StepPhase
    ensures Dispatch(phase, i).None? <==> InBody(i) && (phase == Ready ==> i.m.InitialState?)
    ensures Dispatch(phase, i) == Some(Success) <==> i == Message(AllStepsDone) && phase == StepPhase
    ensures Dispatch(phase, i).None? ==> AfterReceived(phase, i.m) == Some(StepPhase)
    ensures Dispatch(phase, i) == Some(Success) ==> AfterReceived(phase, i.m) == Some(Done)
    ensures Dispatch(phase, i) == Some(Threw) <==> i.Raising?
  {
  }

  /** What the message at `i` decides. */
  lemma {:induction false} Decides<S(!new)>(inbox: seq<Inbound<S>>, w: World<S>, i: nat, sent: seq<S>)
    requires Underway(inbox, w, i, sent)
    ensures !Continues(inbox, w, i, sent) ==>
              && (Conforms(inbox, w) ==> i < |inbox| && inbox[i] == Message(AllStepsDone) && i > 1)
              && (Escapes(inbox, w, Validating) <==> Raises(inbox, w, i, sent))
  {
    hide Underway, Conforms, Continues, Raises;
    if Conforms(inbox, w) { GoesOnOrEnds(inbox, w, i, sent); }
    if Escapes(inbox, w, Validating) { EscapesHereOrLater(inbox, w, i, sent); }
    if Raises(inbox, w, i, sent) { assert EscapesAt(inbox, w, i, sent); }
  }

  /** The stepping loop after registration. Every report sent belongs to the fold; the loop succeeds
      exactly on conforming conversations; and it has closed the transport exactly when nothing
      escaped it. */
  method RunSteppingLoop<S(==, !new)>(t: Transport<S>, guard: PhaseGuard<S>, compute: Computer<S>, empty: S)
    returns (outcome: Outcome)
    requires t.read == 0 && t.sent == [] && guard.Valid()
    modifies t, guard
    ensures guard.Valid() && t.read <= |t.inbox|
    ensures var w := World(compute, empty, t.sendOk, t.serializes);
            && (outcome == Success <==> old(guard.phase) == Validating && Conforms(t.inbox, w))
            && (outcome == Success <==> Registered(old(guard.calls), false) && Conforms(t.inbox, w))
            && (t.closed <==> old(t.closed) || !Escapes(t.inbox, w, old(guard.phase)))
            && SentIsFold(t.inbox, w, t.read, t.sent)
            && (outcome == Success ==> guard.phase == Done && t.read >= 1 && ConformsAt(t.inbox, w, t.read - 1, t.sent))
  {
    hide Conforms, ConformsAt, Underway, SentIsFold, StepsOf, IsFold, Dispatch, AfterReceived, Escapes;
    ghost var w := World(compute, empty, t.sendOk, t.serializes);
    FirstMessage(t.inbox, w);
    NothingSent(t.inbox, w);
    PhaseTellsHistory(guard.calls);
    hide Registered;
    outcome := AwaitValidation(t, guard);
    assert t.sent == [];
    if outcome != Success { return; }
    outcome := StepLoop(t, guard, compute, empty);
  }

  /** A guard whose only call was a plain registration is one that the loop can succeed from. */
  lemma {:induction false} PlainRegistrationWaits<S(!new)>(call: Call<S>)
    ensures Registered([call], false) <==> call == Sends(Registration(false))
  {
    if call == Sends(Registration(false)) { assert RegisteredAt([call], false, 0); }
  }

  /** The loop proper, from a good validation on. */
  method StepLoop<S(==, !new)>(t: Transport<S>, guard: PhaseGuard<S>, compute: Computer<S>, empty: S) returns (outcome: Outcome)
    requires guard.Valid() && guard.phase == Ready && t.read == 1 <= |t.inbox| && t.sent == []
    requires Underway(t.inbox, World(compute, empty, t.sendOk, t.serializes), 1, [])
    modifies t, guard
    ensures guard.Valid() && t.read <= |t.inbox|
    ensures var w := World(compute, empty, t.sendOk, t.serializes);
            && (outcome == Success <==> Conforms(t.inbox, w))
            && (t.closed <==> old(t.closed) || !Escapes(t.inbox, w, Validating))
            && SentIsFold(t.inbox, w, t.read, t.sent)
            && (outcome == Success ==> guard.phase == Done && t.read >= 1 && ConformsAt(t.inbox, w, t.read - 1, t.sent))
  {
    hide Conforms, ConformsAt, Underway, SentIsFold, StepsOf, IsFold, Escapes, Continues, Raises;
    ghost var w := World(compute, empty, t.sendOk, t.serializes);
    var prev := empty;
    var on := true;
    outcome := Success;
    while on
      invariant guard.Valid() && t.read <= |t.inbox|
      invariant on ==> guard.phase == (if t.read == 1 then Ready else StepPhase) && t.read >= 1
      invariant on ==> Underway(t.inbox, w, t.read, t.sent) && t.closed == old(t.closed)
      invariant on ==> prev == if t.sent == [] then empty else t.sent[|t.sent| - 1]
      invariant !on ==> Ended(t, w, guard.phase, outcome, old(t.closed))
      decreases |t.inbox| - t.read, on
    {
      on, outcome, prev := Turn(t, guard, compute, empty, prev);
    }
  }

  /** How the loop leaves things. */
  ghost predicate Ended<S(!new)>(t: Transport<S>, w: World<S>, phase: Phase, outcome: Outcome, wasClosed: bool)
    reads t
  {
    && (outcome == Success <==> Conforms(t.inbox, w))
    && (t.closed <==> wasClosed || !Escapes(t.inbox, w, Validating))
    && SentIsFold(t.inbox, w, t.read, t.sent)
    && (outcome == Success ==> phase == Done && t.read >= 1 && ConformsAt(t.inbox, w, t.read - 1, t.sent))
  }

  /** One turn: a message, and the answer to it if it is a step. */
  method Turn<S(==, !new)>(t: Transport<S>, guard: PhaseGuard<S>, compute: Computer<S>, empty: S, previous: S)
    returns (on: bool, outcome: Outcome, last: S)
    requires guard.Valid() && 1 <= t.read <= |t.inbox| && guard.phase == if t.read == 1 then Ready else StepPhase
    requires Underway(t.inbox, World(compute, empty, t.sendOk, t.serializes), t.read, t.sent)
    requires previous == if t.sent == [] then empty else t.sent[|t.sent| - 1]
    modifies t, guard
    ensures guard.Valid() && t.read <= |t.inbox|
    ensures on ==>
              && t.read == old(t.read) + 1 && guard.phase == StepPhase && t.closed == old(t.closed)
              && Underway(t.inbox, World(compute, empty, t.sendOk, t.serializes), t.read, t.sent)
              && last == if t.sent == [] then empty else t.sent[|t.sent| - 1]
    ensures !on ==> Ended(t, World(compute, empty, t.sendOk, t.serializes), guard.phase, outcome, old(t.closed)) && t.read >= old(t.read)
  {
    hide Conforms, ConformsAt, Underway, SentIsFold, StepsOf, IsFold, Dispatch, AfterReceived, Escapes;
    ghost var w := World(compute, empty, t.sendOk, t.serializes);
    ghost var at, before := t.read, t.sent;
    last, outcome := previous, Success;
    StillFold(t.inbox, w, at, before);
    Decides(t.inbox, w, at, before);
    var i := t.Receive();
    DispatchMeans(guard.phase, i);
    var verdict := Dispatch(guard.phase, i);
    if i.Message? { var ok := guard.Received(i.m); }
    if verdict.Some? {
      if verdict.value == Success { Finished(t.inbox, w, at, before); }
      if verdict.value != Threw { t.Close(); }
      return false, verdict.value, last;
    }
    if IsStep(i.m) {
      outcome := Answer(t, guard, compute, i.m, if i.m.InitialState? then empty else previous);
      if outcome != Success {
        assert t.sent == before;
        return false, outcome, last;
      }
      last := t.sent[|t.sent| - 1];
    }
    UnderwayNext(t.inbox, w, at, before);
    on := true;
  }

  // ----- a total computer and a working line ------------------------------------------------------------

  ghost predicate Total<S(!new)>(compute: Computer<S>) {
    forall k, action, args, previous :: compute(k, action, args, previous).Some?
  }

  lemma {:induction false} FoldExists<S(!new)>(compute: Computer<S>, empty: S, steps: seq<Mirror<S>>) returns (reports: seq<S>)
    requires Total(compute) && forall k :: 0 <= k < |steps| ==> IsStep(steps[k])
    ensures IsFold(compute, empty, steps, reports)
  {
    if steps == [] {
      reports := [];
    } else {
      var n := |steps| - 1;
      var before := FoldExists(compute, empty, steps[..n]);
      var next := compute(n, steps[n].action, steps[n].args, Previous(empty, steps[n], before, n));
      FoldNext(compute, empty, steps[..n], before, steps[n], next.value);
      assert steps[..n] + [steps[n]] == steps;
      reports := before + [next.value];
    }
  }

  /** When the computer always answers and every report serializes and is sent, only the shape of
      what the mirror says decides. */
  lemma {:induction false} OnlyTheShapeDecides<S(!new)>(inbox: seq<Inbound<S>>, w: World<S>)
    requires Total(w.compute) && (forall k :: w.sendOk(k)) && forall s :: w.serializes(s)
    ensures Conforms(inbox, w) <==> exists n: nat :: Conversation(inbox, n)
  {
    hide IsFold, StepsOf, Total;
    if n: nat :| Conversation(inbox, n) {
      var reports := FoldExists(w.compute, w.empty, StepsOf(Body(inbox, n)));
      assert ConformsAt(inbox, w, n, reports);
    }
    if Conforms(inbox, w) {
      var n: nat, reports :| ConformsAt(inbox, w, n, reports);
      assert Conversation(inbox, n);
    }
  }

  /** When decoding never raises and every state serializes, nothing escapes. */
  lemma {:induction false} NothingEscapes<S(!new)>(inbox: seq<Inbound<S>>, w: World<S>, phase: Phase)
    requires (forall i :: 0 <= i < |inbox| ==> !inbox[i].Raising?) && forall s :: w.serializes(s)
    ensures !Escapes(inbox, w, phase)
  {
    hide Underway;
  }

  /** A computer whose first answer holds a text that is not UTF-8 leaves the transport open: the
      conversation is a good one, and the report raises while it is serialized. */
  lemma {:induction false} UnserializableReportEscapes(compute: Computer<VarState>, action: string, args: VarState, sendOk: nat -> bool)
    requires compute(0, action, args, map[]) == Some(map["x" := Str([0xFF as char])])
    ensures var w := World(compute, map[], sendOk, StateDumps);
            Escapes([Message(SpecValidated(true)), Message(InitialState(action, args))], w, Validating)
  {
    var inbox := [Message(SpecValidated(true)), Message(InitialState(action, args))];
    var w := World(compute, map[], sendOk, StateDumps);
    NotText();
    FirstMessage(inbox, w);
    hide StateDumps, Underway;
    assert EscapesAt(inbox, w, 1, []);
  }
}
