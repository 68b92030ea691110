/** What is asked of the checkpoint scheduler, and which schedules it can encode. */
module Requests {
  import opened Schedules
  import opened Merges
  import opened Admission
  import opened ItfCodec
  import opened Reports

  const PROFILE: string := "mirrorcpp.cooperative-checkpoints/v1"
  const MAX_ARTIFACT: nat := 1048576
  const MAX_INPUT: nat := 65535
  const MAX_PLAIN_DEPTH: nat := 28

  /** A schedule and one of its steps as they are serialized, without what varies. */
  const ARTIFACT: string :=
    "{\"identity\":{\"implementationSha256\":\"\",\"mappingSha256\":\"\",\"modelSemanticDigest\":\"\"},\"inputs\":,"
    + "\"profile\":\"mirrorcpp.cooperative-checkpoints/v1\",\"schema\":\"mirrors.checkpoint-schedule/v1\",\"steps\":[]}"
  const STEP: string := "{\"actor\":\"\",\"checkpoint\":\"\"}"

  datatype Identity = Identity(model: string, mapping: string, implementation: string)

  predicate Digest(s: string) {
    |s| == 64 && forall i :: 0 <= i < |s| ==> '0' <= s[i] <= '9' || 'a' <= s[i] <= 'f'
  }

  predicate ValidIdentity(id: Identity) {
    Digest(id.model) && Digest(id.mapping) && Digest(id.implementation)
  }

  /** An input: its tree, and the text that the serializer makes of it. */
  datatype Input = Input(tree: Json, text: string)

  /** Finite numbers only, and not nested too deep. */
  predicate Plain(j: Json, depth: nat)
    decreases j
  {
    depth <= MAX_PLAIN_DEPTH
    && match j
       case JNonFinite => false
       case JArray(items) => forall i :: 0 <= i < |items| ==> Plain(items[i], depth + 1)
       case JObject(members) => forall k :: k in members ==> Plain(members[k], depth + 1)
       case _ => true
  }

  function StepsBytes(steps: seq<Step>): nat {
    if steps == [] then 0
    else
      var last := steps[|steps| - 1];
      StepsBytes(steps[..|steps| - 1]) + |STEP| + |last.actor| + |last.checkpoint| + (if |steps| == 1 then 0 else 1)
  }

  /** The size of an encoded schedule whose names need no escapes. */
  function ArtifactBytes(id: Identity, input: Input, steps: seq<Step>): nat {
    |ARTIFACT| + |id.model| + |id.mapping| + |id.implementation| + |input.text| + StepsBytes(steps)
  }

  predicate StepNames(steps: seq<Step>) {
    forall i :: 0 <= i < |steps| ==>
      Identifier(steps[i].actor) && (Identifier(steps[i].checkpoint) || steps[i].checkpoint == COMPLETION)
  }

  /** What the encoder accepts: it serializes and then parses what it has written. */
  predicate Encodes(profile: string, id: Identity, input: Input, steps: seq<Step>) {
    && Plain(input.tree, 0) && Dumps(input.tree) && ArtifactBytes(id, input, steps) <= MAX_ARTIFACT
    && |steps| <= 65536 && profile == PROFILE && ValidIdentity(id) && StepNames(steps)
  }

  // ----- every candidate of a campaign encodes -------------------------------------------------------

  lemma {:induction false} StepsAreShort(steps: seq<Step>)
    requires StepNames(steps)
    ensures StepsBytes(steps) <= 285 * |steps|
  {
    hide Identifier;
    if steps != [] {
      var n := |steps| - 1;
      assert steps[n] in steps;
      NamesAreShort(steps[n]);
      StepsAreShort(steps[..n]);
    }
  }

  lemma {:induction false} NamesAreShort(step: Step)
    requires Identifier(step.actor) && (Identifier(step.checkpoint) || step.checkpoint == COMPLETION)
    ensures |STEP| + |step.actor| + |step.checkpoint| <= 284
  {
  }

  /** The steps of a merge of valid chains have proper names. */
  lemma {:induction false} MergeNames(chains: seq<ActorChain>, steps: seq<Step>)
    requires ValidChains(chains) && IsMerge(chains, steps)
    ensures StepNames(steps)
  {
    hide Identifier;
    forall i | 0 <= i < |steps| ensures Identifier(steps[i].actor) && (Identifier(steps[i].checkpoint) || steps[i].checkpoint == COMPLETION) {
      var c :| 0 <= c < |chains| && chains[c].actor == steps[i].actor;
      InProjection(steps, i);
      assert steps[i].checkpoint in chains[c].checkpoints;
      var k :| 0 <= k < |chains[c].checkpoints| && chains[c].checkpoints[k] == steps[i].checkpoint;
      assert k < |chains[c].checkpoints| - 1 || chains[c].checkpoints[k] == COMPLETION;
    }
  }

  lemma {:induction false} InProjection(steps: seq<Step>, i: nat)
    requires i < |steps|
    ensures steps[i].checkpoint in Projection(steps, steps[i].actor)
  {
    if i > 0 { InProjection(steps[1..], i - 1); }
  }

  /** Within the bounds of a campaign no candidate is too large to encode. */
  lemma {:induction false} CandidatesEncode(chains: seq<ActorChain>, steps: seq<Step>, id: Identity, input: Input)
    requires ValidChains(chains) && IsMerge(chains, steps) && |steps| <= 64
    requires ValidIdentity(id) && Plain(input.tree, 0) && Dumps(input.tree) && |input.text| <= MAX_INPUT
    ensures Encodes(PROFILE, id, input, steps)
  {
    MergeNames(chains, steps);
    StepsAreShort(steps);
    ArtifactIsShort();
    hide StepNames, StepsBytes, Plain, Dumps, IsMerge, ValidChains, ARTIFACT;
  }

  lemma {:induction false} ArtifactIsShort()
    ensures |ARTIFACT| <= 300
  {
  }

  // ----- the whole admission --------------------------------------------------------------------------

  /** Budgets are in milliseconds. */
  datatype Policy = Policy(maxActors: nat, maxSteps: nat, executionBudget: int, cleanupBudget: int)

  datatype Request = Request(
    reentrant: bool, policy: Policy, profile: string, identity: Identity, adapterIdentity: Identity, hasFactory: bool,
    actors: seq<ActorDeclaration>, checkpoints: seq<string>, input: Input, steps: seq<Step>)

  datatype Verdict = Granted | InvalidRequest | IncompatibleIdentity

  predicate ValidBudget(milliseconds: int) { 0 < milliseconds <= 24 * 60 * 60 * 1000 }

  predicate ValidPolicy(p: Policy) {
    0 < p.maxActors <= 64 && 0 < p.maxSteps <= 65536 && ValidBudget(p.executionBudget) && ValidBudget(p.cleanupBudget)
  }

  /** What is looked at before the two identities are compared. */
  predicate WellFormed(q: Request) {
    && !q.reentrant && ValidPolicy(q.policy)
    && q.profile == PROFILE && ValidIdentity(q.identity) && ValidIdentity(q.adapterIdentity)
  }

  /** A request that deserves threads: everything within its bounds, encodable, and a plan. */
  ghost predicate Acceptable(q: Request) {
    && WellFormed(q) && q.identity == q.adapterIdentity
    && q.hasFactory && 0 < |q.actors| <= q.policy.maxActors && |q.checkpoints| <= q.policy.maxSteps && |q.steps| <= q.policy.maxSteps
    && Encodes(q.profile, q.identity, q.input, q.steps) && |q.input.text| <= MAX_INPUT
    && Declarations(q.actors, q.checkpoints) && Plan(Names(q.actors), (set c | c in q.checkpoints), q.steps)
  }

  /** Admission test by test; no application code runs before it has granted the request. */
  method AdmitRequest(q: Request) returns (verdict: Verdict)
    ensures verdict == Granted <==> Acceptable(q)
    ensures verdict == IncompatibleIdentity <==> WellFormed(q) && q.identity != q.adapterIdentity
  {
    hide Plan, Declarations, Encodes, ValidIdentity, ValidPolicy;
    if q.reentrant || !ValidPolicy(q.policy) { return InvalidRequest; }
    if q.profile != PROFILE || !ValidIdentity(q.identity) || !ValidIdentity(q.adapterIdentity) { return InvalidRequest; }
    if q.identity != q.adapterIdentity { return IncompatibleIdentity; }
    if !q.hasFactory || q.actors == [] || |q.actors| > q.policy.maxActors || |q.checkpoints| > q.policy.maxSteps || |q.steps| > q.policy.maxSteps {
      return InvalidRequest;
    }
    if !Encodes(q.profile, q.identity, q.input, q.steps) || |q.input.text| > MAX_INPUT { return InvalidRequest; }
    var ok := Admit(q.actors, q.checkpoints, q.steps);
    return if ok then Granted else InvalidRequest;
  }

  /** An adapter for the declared chains, with an ordinary policy, admits every candidate of a campaign. */
  lemma {:induction false} CandidatesAreGranted(chains: seq<ActorChain>, bound: nat, q: Request)
    requires WellFormed(q) && q.identity == q.adapterIdentity && q.hasFactory
    requires ValidChains(chains) && q.steps in AllSchedules(chains, bound) && |q.steps| <= 64
    requires Plain(q.input.tree, 0) && Dumps(q.input.tree) && |q.input.text| <= MAX_INPUT
    requires Declarations(q.actors, q.checkpoints) && 0 < |q.actors| <= q.policy.maxActors
    requires |q.checkpoints| <= q.policy.maxSteps && |q.steps| <= q.policy.maxSteps
    requires Names(q.actors) == set i | 0 <= i < |chains| :: chains[i].actor
    requires forall i, k :: 0 <= i < |chains| && 0 <= k < |chains[i].checkpoints| - 1 ==> chains[i].checkpoints[k] in q.checkpoints
    ensures Acceptable(q)
  {
    hide AllSchedules, Plan, Declarations, Plain, Dumps, Encodes, IsMerge;
    AllSchedulesAreTheMerges(chains, bound, q.steps);
    CandidatesEncode(chains, q.steps, q.identity, q.input);
    EnumeratedSchedulesAreAdmitted(chains, bound, Names(q.actors), (set c | c in q.checkpoints), q.steps);
  }
}
