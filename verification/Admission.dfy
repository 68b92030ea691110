/** Static admission of a whole plan by the checkpoint scheduler, before any application code. */
module Admission {
  import opened Schedules
  import opened Merges

  predicate Identifier(text: string) {
    0 < |text| <= 128 && forall i :: 0 <= i < |text| ==>
      var c := text[i];
      'a' <= c <= 'z' || 'A' <= c <= 'Z' || '0' <= c <= '9' || c == '_' || c == '-' || c == '.' || c == '/'
  }

  datatype ActorDeclaration = ActorDeclaration(actor: string, operation: string)

  /** What the plan of one actor must look like: declared checkpoints, then one completion. */
  predicate Terminated(chain: seq<string>, checkpoints: set<string>) {
    && chain != [] && chain[|chain| - 1] == COMPLETION
    && forall i :: 0 <= i < |chain| - 1 ==> chain[i] in checkpoints
  }

  /** Every step belongs to a declared actor and every actor's own steps are terminated. */
  ghost predicate Plan(actors: set<string>, checkpoints: set<string>, steps: seq<Step>) {
    && (forall k :: 0 <= k < |steps| ==> steps[k].actor in actors)
    && (forall a :: a in actors ==> Terminated(Projection(steps, a), checkpoints))
  }

  ghost predicate Declarations(actors: seq<ActorDeclaration>, checkpoints: seq<string>) {
    && (forall i :: 0 <= i < |actors| ==> Identifier(actors[i].actor) && Identifier(actors[i].operation))
    && (forall i, j :: 0 <= i < j < |actors| ==> actors[i].actor != actors[j].actor)
    && (forall i :: 0 <= i < |checkpoints| ==> Identifier(checkpoints[i]))
    && (forall i, j :: 0 <= i < j < |checkpoints| ==> checkpoints[i] != checkpoints[j])
  }

  lemma {:induction false} CompletionIsReserved()
    ensures !Identifier(COMPLETION)
  {
    assert COMPLETION[0] == '$';
  }

  // ----- projections of growing plans ---------------------------------------------------

  lemma {:induction false} ProjectionAppend(steps: seq<Step>, x: Step, actor: string)
    ensures Projection(steps + [x], actor) == Projection(steps, actor) + if x.actor == actor then [x.checkpoint] else []
  {
    if steps == [] {
      assert (steps + [x])[1..] == [];
    } else {
      assert (steps + [x])[1..] == steps[1..] + [x];
      ProjectionAppend(steps[1..], x, actor);
    }
  }

  lemma {:induction false} ProjectionPrefix(steps: seq<Step>, i: nat, actor: string)
    requires i <= |steps|
    ensures Projection(steps[..i], actor) <= Projection(steps, actor)
  {
    if i > 0 {
      ProjectionPrefix(steps[1..], i - 1, actor);
      assert steps[..i][1..] == steps[1..][..i - 1];
    }
  }

  /** The single pass over the steps: unknown actors, steps after completion and undeclared
      checkpoints stop it; at the end every actor must be done. It accepts exactly the plans. */
  method AdmitSteps(actors: set<string>, checkpoints: set<string>, steps: seq<Step>) returns (ok: bool)
    requires COMPLETION !in checkpoints
    ensures ok <==> Plan(actors, checkpoints, steps)
  {
    hide Projection;
    var done: set<string> := {};
    NoSteps();
    for i := 0 to |steps|
      invariant done <= actors
      invariant forall k :: 0 <= k < i ==> steps[k].actor in actors
      invariant forall a :: a in actors ==> Underway(Projection(steps[..i], a), checkpoints, a in done)
    {
      var step := steps[i];
      assert steps[..i + 1] == steps[..i] + [step];
      forall a ensures Projection(steps[..i + 1], a)
                    == Projection(steps[..i], a) + if step.actor == a then [step.checkpoint] else []
      {
        ProjectionAppend(steps[..i], step, a);
      }
      if step.actor !in actors || step.actor in done {
        if step.actor in actors { Refuted(steps, i, checkpoints); }
        return false;
      }
      if step.checkpoint == COMPLETION {
        done := done + {step.actor};
      } else if step.checkpoint !in checkpoints {
        Undeclared(steps, i, checkpoints);
        return false;
      }
    }
    assert steps[..|steps|] == steps;
    ok := done == actors;
    if !ok {
      var a :| a in actors && a !in done;
      assert Underway(Projection(steps, a), checkpoints, false);
    }
  }

  lemma {:induction false} NoSteps()
    ensures forall a :: Projection([], a) == []
  {
  }

  /** An actor's steps so far: all declared, but for a last completion once it is done. */
  predicate Underway(chain: seq<string>, checkpoints: set<string>, done: bool) {
    if done then Terminated(chain, checkpoints) else forall i :: 0 <= i < |chain| ==> chain[i] in checkpoints
  }

  lemma {:induction false} Refuted(steps: seq<Step>, i: nat, checkpoints: set<string>)
    requires i < |steps| && COMPLETION !in checkpoints && Terminated(Projection(steps[..i], steps[i].actor), checkpoints)
    ensures !Terminated(Projection(steps, steps[i].actor), checkpoints)
  {
    hide Projection, Terminated;
    var actor := steps[i].actor;
    assert steps[..i + 1] == steps[..i] + [steps[i]];
    ProjectionAppend(steps[..i], steps[i], actor);
    ProjectionPrefix(steps, i + 1, actor);
    NotLast(Projection(steps[..i], actor), steps[i].checkpoint, Projection(steps, actor), checkpoints);
  }

  lemma {:induction false} NotLast(before: seq<string>, next: string, all: seq<string>, checkpoints: set<string>)
    requires COMPLETION !in checkpoints && Terminated(before, checkpoints) && before + [next] <= all
    ensures !Terminated(all, checkpoints)
  {
    var k := |before| - 1;
    assert all[k] == (before + [next])[k] == before[k];
  }

  lemma {:induction false} Undeclared(steps: seq<Step>, i: nat, checkpoints: set<string>)
    requires i < |steps| && steps[i].checkpoint != COMPLETION && steps[i].checkpoint !in checkpoints
    ensures !Terminated(Projection(steps, steps[i].actor), checkpoints)
  {
    hide Projection;
    var actor := steps[i].actor;
    var before := Projection(steps[..i], actor);
    assert steps[..i + 1] == steps[..i] + [steps[i]];
    ProjectionAppend(steps[..i], steps[i], actor);
    ProjectionPrefix(steps, i + 1, actor);
    assert Projection(steps, actor)[|before|] == steps[i].checkpoint;
  }

  ghost function Names(actors: seq<ActorDeclaration>): set<string> {
    set i | 0 <= i < |actors| :: actors[i].actor
  }

  /** Admission of declarations and steps together. */
  method Admit(actors: seq<ActorDeclaration>, checkpoints: seq<string>, steps: seq<Step>) returns (ok: bool)
    ensures ok <==> Declarations(actors, checkpoints)
                    && Plan(Names(actors), (set c | c in checkpoints), steps)
  {
    var names: set<string>, points: set<string> := {}, {};
    for i := 0 to |actors|
      invariant forall j :: 0 <= j < i ==> Identifier(actors[j].actor) && Identifier(actors[j].operation)
      invariant forall j, k :: 0 <= j < k < i ==> actors[j].actor != actors[k].actor
      invariant names == set j | 0 <= j < i :: actors[j].actor
    {
      if !Identifier(actors[i].actor) || !Identifier(actors[i].operation) || actors[i].actor in names { return false; }
      names := names + {actors[i].actor};
    }
    for i := 0 to |checkpoints|
      invariant forall j :: 0 <= j < i ==> Identifier(checkpoints[j])
      invariant forall j, k :: 0 <= j < k < i ==> checkpoints[j] != checkpoints[k]
      invariant points == set c | c in checkpoints[..i]
    {
      if !Identifier(checkpoints[i]) || checkpoints[i] in points { return false; }
      points := points + {checkpoints[i]};
      assert checkpoints[..i + 1] == checkpoints[..i] + [checkpoints[i]];
    }
    assert checkpoints[..|checkpoints|] == checkpoints;
    CompletionIsReserved();
    ok := AdmitSteps(names, points, steps);
  }

  // ----- enumerated schedules are admitted ------------------------------------------------------

  /** What `explore_finite` demands of its actor chains. */
  predicate ValidChains(chains: seq<ActorChain>) {
    && DistinctActors(chains)
    && forall i :: 0 <= i < |chains| ==>
         var c := chains[i];
         && Identifier(c.actor) && Identifier(c.operation)
         && c.checkpoints != [] && c.checkpoints[|c.checkpoints| - 1] == COMPLETION
         && forall k :: 0 <= k < |c.checkpoints| - 1 ==> Identifier(c.checkpoints[k])
  }

  /** Every schedule the enumeration yields from valid chains is a plan for an adapter that
      declares exactly those actors and at least those checkpoints. */
  lemma {:induction false} EnumeratedSchedulesAreAdmitted(chains: seq<ActorChain>, bound: nat, actors: set<string>, checkpoints: set<string>,
                                       steps: seq<Step>)
    requires ValidChains(chains) && steps in AllSchedules(chains, bound)
    requires actors == set i | 0 <= i < |chains| :: chains[i].actor
    requires forall i, k :: 0 <= i < |chains| && 0 <= k < |chains[i].checkpoints| - 1 ==>
               chains[i].checkpoints[k] in checkpoints
    ensures Plan(actors, checkpoints, steps)
  {
    AllSchedulesAreTheMerges(chains, bound, steps);
    hide AllSchedules;
    forall a | a in actors ensures Terminated(Projection(steps, a), checkpoints) {
      var i :| 0 <= i < |chains| && chains[i].actor == a;
      assert Projection(steps, a) == chains[i].checkpoints;
    }
    forall k | 0 <= k < |steps| ensures steps[k].actor in actors {
      assert Declared(chains, steps[k].actor);
    }
  }
}
