/** The controlled mutex/queue scheduler as a step machine over the state that its
    mutex protects: one step per critical section, by the controller or by a worker. */
module ControlledSync {
  import opened Schedules

  datatype Op = Start | Checkpoint | Done | Lock | Unlock | Send | Receive

  datatype Kind = Mutex | Queue

  datatype Pending = Pending(op: Op, resource: string, value: int)

  /** Where a worker's thread is: in application code, blocked inside a request, or gone. */
  datatype Where = InUser | InRequest | Exited

  datatype Actor = Actor(id: string, pending: Pending, parked: bool, grant: bool, finished: bool, version: nat, where: Where)

  /** A declared resource; `sent` and `received` are the values that ever went through it. */
  datatype Resource = Resource(kind: Kind, capacity: nat, owner: string, queue: seq<int>, sent: seq<int>, received: seq<int>)

  datatype Outcome =
    | Completed | ResourceMisuse | ApplicationFailed | TimedOut | ControlledDeadlock | DisabledChoice
    | DecisionExhausted | EvidenceExhausted | ObservationFailed | Cancelled

  datatype Wait = Wait(actor: string, op: Op, resource: string)

  /** The ownership and wait graph kept from the moment of the first failure. */
  datatype Graph = Graph(owners: map<string, string>, waits: seq<Wait>, contents: map<string, seq<int>>)

  datatype Row =
    | Granted(actor: string, op: Op, resource: string, bytes: nat)
    | Applied(actor: string, op: Op, resource: string, value: int, bytes: nat)

  /** What the one controller thread is doing between its critical sections. */
  datatype Controller = AtBarrier | Idle | Waiting(actor: nat, version: nat)

  datatype State = State(
    actors: seq<Actor>, resources: map<string, Resource>, outcome: Outcome, cancelled: bool, graph: Option<Graph>,
    decisions: nat, finished: bool, events: seq<Row>, observations: seq<nat>, controller: Controller,
    maxDecisions: nat, maxEvidenceBytes: nat)

  // ----- reading the state -------------------------------------------------------

  predicate Enabled(s: State, i: nat)
    requires i < |s.actors|
  {
    var a := s.actors[i];
    var p := a.pending;
    if !a.parked || a.finished then false
    else if p.op == Start || p.op == Checkpoint || p.op == Done then true
    else if p.resource !in s.resources then false
    else
      var r := s.resources[p.resource];
      match p.op
      case Lock => r.owner == ""
      case Unlock => r.owner == a.id
      case Send => |r.queue| < r.capacity
      case _ => p.op == Receive && r.queue != []
  }

  predicate AllParked(s: State) {
    forall i :: 0 <= i < |s.actors| ==> s.actors[i].parked || s.actors[i].finished
  }

  predicate AllFinished(s: State) {
    forall i :: 0 <= i < |s.actors| ==> s.actors[i].finished
  }

  predicate NoneEnabled(s: State) {
    forall i :: 0 <= i < |s.actors| ==> !Enabled(s, i)
  }

  /** The actors that are parked and not finished, in declaration order, with what they wait for. */
  function WaitsFrom(actors: seq<Actor>, i: nat): seq<Wait>
    requires i <= |actors|
    decreases |actors| - i
  {
    if i == |actors| then []
    else
      (if !actors[i].finished && actors[i].parked
       then [Wait(actors[i].id, actors[i].pending.op, actors[i].pending.resource)] else [])
      + WaitsFrom(actors, i + 1)
  }

  function GraphOf(s: State): Graph {
    Graph(map r | r in s.resources :: s.resources[r].owner, WaitsFrom(s.actors, 0),
          map r | r in s.resources :: s.resources[r].queue)
  }

  // ----- evidence ------------------------------------------------------------------

  /** The size of a serialized array: brackets, elements and the commas between them. */
  function ArrayBytes(sizes: seq<nat>): nat {
    2 + SumBytes(sizes) + (if sizes == [] then 0 else |sizes| - 1)
  }

  function SumBytes(sizes: seq<nat>): nat {
    if sizes == [] then 0 else SumBytes(sizes[..|sizes| - 1]) + sizes[|sizes| - 1]
  }

  function RowSizes(events: seq<Row>): (sizes: seq<nat>)
    ensures |sizes| == |events|
  {
    seq(|events|, i requires 0 <= i < |events| => events[i].bytes)
  }

  function EvidenceBytes(s: State): nat {
    ArrayBytes(RowSizes(s.events)) + ArrayBytes(s.observations)
  }

  predicate Fits(s: State, destinationEmpty: bool, bytes: nat) {
    EvidenceBytes(s) + bytes + (if destinationEmpty then 0 else 1) <= s.maxEvidenceBytes
  }

  // ----- the critical sections -------------------------------------------------------

  function Fail(s: State, outcome: Outcome): State
    requires outcome != Completed
  {
    if s.outcome == Completed then s.(outcome := outcome, graph := Some(GraphOf(s)), cancelled := true)
    else s.(cancelled := true)
  }

  function Record(s: State, row: Row): State {
    if Fits(s, s.events == [], row.bytes) then s.(events := s.events + [row]) else Fail(s, EvidenceExhausted)
  }

  predicate Misused(s: State, id: string, op: Op, resource: string) {
    op != Start && op != Checkpoint && op != Done &&
    (resource !in s.resources ||
     (var r := s.resources[resource];
      var mutexOp := op == Lock || op == Unlock;
      (mutexOp && r.kind != Mutex) || (!mutexOp && r.kind != Queue)
      || (op == Lock && r.owner == id) || (op == Unlock && r.owner != id)))
  }

  /** A worker asks for an operation: refused, or parked with the operation pending. */
  function Request(s: State, i: nat, op: Op, resource: string, value: int): State
    requires i < |s.actors|
  {
    var a := s.actors[i];
    if s.cancelled then s
    else if Misused(s, a.id, op, resource) then Fail(s, ResourceMisuse)
    else s.(actors := s.actors[i := a.(pending := Pending(op, resource, value), parked := true, grant := false,
                                       version := a.version + 1, where := InRequest)])
  }

  function Effect(r: Resource, id: string, p: Pending): Resource {
    match p.op
    case Lock => r.(owner := id)
    case Unlock => r.(owner := "")
    case Send => r.(queue := r.queue + [p.value], sent := r.sent + [p.value])
    case Receive => if r.queue == [] then r else r.(queue := r.queue[1..], received := r.received + [r.queue[0]])
    case _ => r
  }

  function Delivered(s: State, p: Pending): int {
    if p.op == Receive && p.resource in s.resources && s.resources[p.resource].queue != []
    then s.resources[p.resource].queue[0] else p.value
  }

  /** A blocked worker wakes: cancelled, it leaves the request with an exception; granted,
      it applies its operation once and records the result. */
  function Wake(s: State, i: nat, bytes: nat): State
    requires i < |s.actors|
  {
    var a := s.actors[i];
    var p := a.pending;
    if s.cancelled then s.(actors := s.actors[i := a.(where := InUser)])
    else
      var applied := s.(actors := s.actors[i := a.(grant := false, parked := false, where := InUser)],
                        resources := if p.resource in s.resources
                                     then s.resources[p.resource := Effect(s.resources[p.resource], a.id, p)] else s.resources);
      Record(applied, Applied(a.id, p.op, p.resource, Delivered(s, p), bytes))
  }

  function Released(r: Resource, id: string): Resource {
    if r.owner == id then r.(owner := "") else r
  }

  /** A guard unwinding without a permit gives its mutex back. */
  function UnwindRelease(s: State, i: nat, resource: string): State
    requires i < |s.actors|
  {
    if resource in s.resources
    then s.(resources := s.resources[resource := Released(s.resources[resource], s.actors[i].id)]) else s
  }

  function Threw(s: State): State {
    if s.cancelled then s else Fail(s, ApplicationFailed)
  }

  predicate Holds(s: State, id: string) {
    exists r :: r in s.resources && s.resources[r].owner == id
  }

  /** A worker's last section: holding a mutex is misuse, whatever it holds is released. */
  function Exit(s: State, i: nat): State
    requires i < |s.actors|
  {
    var a := s.actors[i];
    var t := if Holds(s, a.id) && !s.cancelled then Fail(s, ResourceMisuse) else s;
    t.(resources := map r | r in s.resources :: Released(s.resources[r], a.id),
       actors := s.actors[i := a.(finished := true, parked := false, version := a.version + 1, where := Exited)])
  }

  function BarrierEnd(s: State, late: bool): State {
    var t := if !s.cancelled && (late || !AllParked(s)) then Fail(s, TimedOut) else s;
    t.(controller := Idle)
  }

  /** The enabled query; it is the only place where a deadlock is declared. */
  function Query(s: State, late: bool): State {
    if late then Fail(s, TimedOut)
    else if s.cancelled || s.outcome != Completed then s
    else if NoneEnabled(s) && !AllFinished(s) && AllParked(s) then Fail(s, ControlledDeadlock)
    else s
  }

  /** The controller grants one enabled actor's pending operation, or refuses. */
  function Advance(s: State, k: Option<nat>, late: bool, bytes: nat): State
    requires k.Some? ==> k.value < |s.actors|
  {
    if late then Fail(s, TimedOut)
    else if s.cancelled then s
    else if k.None? || !Enabled(s, k.value) then Fail(s, DisabledChoice)
    else if s.decisions >= s.maxDecisions then Fail(s, DecisionExhausted)
    else
      var a := s.actors[k.value];
      var row := Granted(a.id, a.pending.op, a.pending.resource, bytes);
      if !Fits(s, s.events == [], bytes) then Fail(s, EvidenceExhausted)
      else s.(events := s.events + [row], decisions := s.decisions + 1,
              actors := s.actors[k.value := a.(grant := true)], controller := Waiting(k.value, a.version))
  }

  /** The controller's wait ends: the actor reached its next boundary, or time ran out. A finished
      actor is joined before the last look at the clock. */
  function AdvanceEnd(s: State, late: bool, lateJoin: bool): State
    requires s.controller.Waiting? && s.controller.actor < |s.actors|
  {
    var a := s.actors[s.controller.actor];
    var arrived := s.cancelled || a.version != s.controller.version;
    var t := if late || !arrived then Fail(s, TimedOut) else s;
    if t.cancelled then t.(controller := Idle)
    else
      var u := t.(controller := Idle, finished := AllFinished(s));
      if a.finished && lateJoin then Fail(u, TimedOut) else u
  }

  /** What the observer came back with: an exception, something that is not an inert object, or a state. */
  datatype Answer = ObserverThrew | NotInert | Sound

  function Observe(s: State, late: bool, answer: Answer, bytes: nat): State {
    if s.cancelled then (if late then Fail(s, TimedOut) else s)
    else if answer == ObserverThrew then Fail(s, ObservationFailed)
    else if late then Fail(s, TimedOut)
    else if answer == NotInert || !Fits(s, s.observations == [], bytes) then Fail(s, EvidenceExhausted)
    else s.(observations := s.observations + [bytes])
  }

  function Cancel(s: State): State {
    (if s.outcome == Completed && !s.finished then Fail(s, Cancelled) else s).(cancelled := true)
  }

  // ----- runs --------------------------------------------------------------------------

  datatype Label =
    | DoRequest(i: nat, op: Op, resource: string, value: int)
    | DoWake(i: nat, bytes: nat)
    | DoUnwind(i: nat, resource: string)
    | DoThrow(i: nat)
    | DoExit(i: nat)
    | DoForeignCall
    | DoBarrierEnd(late: bool)
    | DoQuery(late: bool)
    | DoAdvance(k: Option<nat>, late: bool, bytes: nat)
    | DoAdvanceEnd(late: bool, lateJoin: bool)
    | DoObserve(late: bool, answer: Answer, bytes: nat)
    | DoCancel

  /** Which sections can run: a worker's own code only while its thread is in that code,
      a wake-up only when its wait condition holds, a controller section only at its place. */
  predicate CanTake(s: State, l: Label) {
    match l
    case DoRequest(i, _, _, _) => i < |s.actors| && s.actors[i].where == InUser
    case DoWake(i, _) => i < |s.actors| && s.actors[i].where == InRequest && (s.cancelled || s.actors[i].grant)
    case DoUnwind(i, _) => i < |s.actors| && s.actors[i].where == InUser
    case DoThrow(i) => i < |s.actors| && s.actors[i].where == InUser
    case DoExit(i) => i < |s.actors| && s.actors[i].where == InUser
    case DoForeignCall => true
    case DoBarrierEnd(late) => s.controller == AtBarrier && (late || s.cancelled || AllParked(s))
    case DoQuery(_) => s.controller == Idle
    case DoAdvance(k, _, _) => s.controller == Idle && (k.Some? ==> k.value < |s.actors|)
    case DoAdvanceEnd(late, _) =>
      s.controller.Waiting? && s.controller.actor < |s.actors|
      && (late || s.cancelled || s.actors[s.controller.actor].version != s.controller.version)
    case DoObserve(_, _, _) => s.controller == Idle
    case DoCancel => !s.controller.Waiting?
  }

  function Take(s: State, l: Label): State
    requires CanTake(s, l)
  {
    match l
    case DoRequest(i, op, resource, value) => Request(s, i, op, resource, value)
    case DoWake(i, bytes) => Wake(s, i, bytes)
    case DoUnwind(i, resource) => UnwindRelease(s, i, resource)
    case DoThrow(i) => Threw(s)
    case DoExit(i) => Exit(s, i)
    case DoForeignCall => Fail(s, ResourceMisuse)
    case DoBarrierEnd(late) => BarrierEnd(s, late)
    case DoQuery(late) => Query(s, late)
    case DoAdvance(k, late, bytes) => Advance(s, k, late, bytes)
    case DoAdvanceEnd(late, lateJoin) => AdvanceEnd(s, late, lateJoin)
    case DoObserve(late, answer, bytes) => Observe(s, late, answer, bytes)
    case DoCancel => Cancel(s)
  }

  ghost predicate Runs(s: State, labels: seq<Label>, t: State)
    decreases |labels|
  {
    if labels == [] then s == t else CanTake(s, labels[0]) && Runs(Take(s, labels[0]), labels[1..], t)
  }

  /** The state at the end of a successful admission, before any worker ran. */
  ghost predicate Initial(s: State) {
    && (forall i :: 0 <= i < |s.actors| ==>
          var a := s.actors[i];
          a.id != "" && !a.parked && !a.grant && !a.finished && a.version == 0 && a.where == InUser)
    && (forall i, j :: 0 <= i < j < |s.actors| ==> s.actors[i].id != s.actors[j].id)
    && (forall r :: r in s.resources ==>
          var x := s.resources[r];
          x.owner == "" && x.queue == [] && x.sent == [] && x.received == [])
    && s.outcome == Completed && !s.cancelled && s.graph == None && s.decisions == 0 && !s.finished
    && s.events == [] && s.observations == [] && s.controller == AtBarrier && s.maxEvidenceBytes >= 256
  }
}
