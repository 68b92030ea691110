/** The schedules that the backtracking search of `enumerate` is meant to list,
    and what that list is: exactly the order-preserving merges of the actor chains
    within the preemption bound, in lexicographic actor order, without repetition. */
module Merges {
  import opened Schedules

  // ----- positions in the chains ---------------------------------------------

  ghost predicate Within(chains: seq<ActorChain>, pos: seq<nat>) {
    |pos| == |chains| && forall i :: 0 <= i < |chains| ==> pos[i] <= |chains[i].checkpoints|
  }

  ghost predicate Unfinished(chains: seq<ActorChain>, pos: seq<nat>, i: nat)
    requires Within(chains, pos) && i < |chains|
  {
    pos[i] < |chains[i].checkpoints|
  }

  ghost function RemainingFrom(chains: seq<ActorChain>, pos: seq<nat>, i: nat): nat
    requires Within(chains, pos) && i <= |chains|
    decreases |chains| - i
  {
    if i == |chains| then 0 else |chains[i].checkpoints| - pos[i] + RemainingFrom(chains, pos, i + 1)
  }

  ghost function Remaining(chains: seq<ActorChain>, pos: seq<nat>): nat
    requires Within(chains, pos)
  {
    RemainingFrom(chains, pos, 0)
  }

  ghost function Advance(chains: seq<ActorChain>, pos: seq<nat>, i: nat): (next: seq<nat>)
    requires Within(chains, pos) && i < |chains| && Unfinished(chains, pos, i)
    ensures Within(chains, next)
  {
    pos[i := pos[i] + 1]
  }

  lemma {:induction false} RemainingAfterAdvance(chains: seq<ActorChain>, pos: seq<nat>, i: nat, from: nat)
    requires Within(chains, pos) && i < |chains| && Unfinished(chains, pos, i) && from <= |chains|
    ensures RemainingFrom(chains, Advance(chains, pos, i), from)
         == RemainingFrom(chains, pos, from) - (if from <= i then 1 else 0)
    decreases |chains| - from
  {
    if from < |chains| {
      RemainingAfterAdvance(chains, pos, i, from + 1);
    }
  }

  lemma {:induction false} NothingRemains(chains: seq<ActorChain>, pos: seq<nat>, from: nat)
    requires Within(chains, pos) && from <= |chains|
    ensures RemainingFrom(chains, pos, from) == 0
       <==> forall i :: from <= i < |chains| ==> !Unfinished(chains, pos, i)
    decreases |chains| - from
  {
    if from < |chains| {
      NothingRemains(chains, pos, from + 1);
      if !Unfinished(chains, pos, from) && RemainingFrom(chains, pos, from + 1) == 0 {
        forall i | from <= i < |chains| ensures !Unfinished(chains, pos, i) { }
      }
    }
  }

  // ----- the choice tree -----------------------------------------------------

  /** Leaving an actor that still has checkpoints is a preemption. */
  ghost function Cost(chains: seq<ActorChain>, pos: seq<nat>, prior: Option<nat>, i: nat): nat
    requires Within(chains, pos) && i < |chains| && (prior.Some? ==> prior.value < |chains|)
  {
    if prior.Some? && prior.value != i && Unfinished(chains, pos, prior.value) then 1 else 0
  }

  ghost predicate Eligible(chains: seq<ActorChain>, pos: seq<nat>, prior: Option<nat>, used: nat, bound: nat, i: nat)
    requires Within(chains, pos) && i < |chains| && (prior.Some? ==> prior.value < |chains|)
  {
    Unfinished(chains, pos, i) && used + Cost(chains, pos, prior, i) <= bound
  }

  ghost function StepAt(chains: seq<ActorChain>, pos: seq<nat>, i: nat): Step
    requires Within(chains, pos) && i < |chains| && Unfinished(chains, pos, i)
  {
    Step(chains[i].actor, chains[i].checkpoints[pos[i]])
  }

  /** Every sequence of `ss` with `prefix` in front. */
  ghost function Extend(prefix: seq<Step>, ss: seq<seq<Step>>): (r: seq<seq<Step>>)
    ensures |r| == |ss|
    ensures forall k :: 0 <= k < |ss| ==> r[k] == prefix + ss[k]
  {
    seq(|ss|, k requires 0 <= k < |ss| => prefix + ss[k])
  }

  /** All ways to finish from `pos`, having last run `prior` and spent `used` preemptions. */
  ghost function Completions(chains: seq<ActorChain>, pos: seq<nat>, prior: Option<nat>, used: nat, bound: nat): seq<seq<Step>>
    requires Within(chains, pos) && (prior.Some? ==> prior.value < |chains|)
    decreases Remaining(chains, pos), |chains| + 1
  {
    if Remaining(chains, pos) == 0 then [[]] else Branches(chains, pos, prior, used, bound, 0)
  }

  /** The completions whose first step is taken by actor `i` or a later one. */
  ghost function Branches(chains: seq<ActorChain>, pos: seq<nat>, prior: Option<nat>, used: nat, bound: nat, i: nat): seq<seq<Step>>
    requires Within(chains, pos) && (prior.Some? ==> prior.value < |chains|) && i <= |chains|
    decreases Remaining(chains, pos), |chains| - i
  {
    if i == |chains| then []
    else Branch(chains, pos, prior, used, bound, i) + Branches(chains, pos, prior, used, bound, i + 1)
  }

  /** The completions whose first step is taken by actor `i`. */
  ghost function Branch(chains: seq<ActorChain>, pos: seq<nat>, prior: Option<nat>, used: nat, bound: nat, i: nat): seq<seq<Step>>
    requires Within(chains, pos) && (prior.Some? ==> prior.value < |chains|) && i < |chains|
    decreases Remaining(chains, pos), 0
  {
    if !Eligible(chains, pos, prior, used, bound, i) then []
    else
      RemainingAfterAdvance(chains, pos, i, 0);
      Extend([StepAt(chains, pos, i)],
             Completions(chains, Advance(chains, pos, i), Some(i), used + Cost(chains, pos, prior, i), bound))
  }

  ghost function Origin(chains: seq<ActorChain>): (pos: seq<nat>)
    ensures Within(chains, pos)
    ensures forall i :: 0 <= i < |chains| ==> pos[i] == 0
  {
    seq(|chains|, _ => 0)
  }

  lemma {:induction false} TotalFrom(chains: seq<ActorChain>, i: nat)
    requires i <= |chains|
    ensures RemainingFrom(chains, Origin(chains), i) == TotalSteps(chains[i..])
    decreases |chains| - i
  {
    if i < |chains| {
      TotalFrom(chains, i + 1);
      assert chains[i..][1..] == chains[i + 1..];
    }
  }

  lemma {:induction false} AllRemains(chains: seq<ActorChain>)
    ensures Remaining(chains, Origin(chains)) == TotalSteps(chains)
  {
    TotalFrom(chains, 0);
    assert chains[0..] == chains;
  }

  /** The list that an unstopped search produces. */
  ghost function AllSchedules(chains: seq<ActorChain>, bound: nat): seq<seq<Step>> {
    Completions(chains, Origin(chains), None, 0, bound)
  }

  // ----- an independent description of the eligible schedules ------------------

  /** `steps` runs every chain from its position to its end, in chain order. */
  ghost predicate IsMergeFrom(chains: seq<ActorChain>, pos: seq<nat>, steps: seq<Step>)
    requires Within(chains, pos)
  {
    && (forall k :: 0 <= k < |steps| ==> Declared(chains, steps[k].actor))
    && (forall i :: 0 <= i < |chains| ==> Projection(steps, chains[i].actor) == chains[i].checkpoints[pos[i]..])
  }

  ghost predicate IsMerge(chains: seq<ActorChain>, steps: seq<Step>) {
    && (forall k :: 0 <= k < |steps| ==> Declared(chains, steps[k].actor))
    && (forall i :: 0 <= i < |chains| ==> Projection(steps, chains[i].actor) == chains[i].checkpoints)
  }

  /** How often the steps switch away from an actor that runs again later. */
  ghost function Preemptions(prior: Option<string>, steps: seq<Step>): nat
    decreases steps
  {
    if steps == [] then 0
    else
      (if prior.Some? && prior.value != steps[0].actor && Projection(steps, prior.value) != [] then 1 else 0)
      + Preemptions(Some(steps[0].actor), steps[1..])
  }

  ghost function Name(chains: seq<ActorChain>, prior: Option<nat>): Option<string>
    requires prior.Some? ==> prior.value < |chains|
  {
    if prior.Some? then Some(chains[prior.value].actor) else None
  }

  // ----- membership ------------------------------------------------------------

  /** Taking the first step of a merge leaves a merge of the rest. */
  lemma {:induction false} MergeStep(chains: seq<ActorChain>, pos: seq<nat>, i: nat, steps: seq<Step>)
    requires Within(chains, pos) && DistinctActors(chains) && i < |chains|
    requires steps != [] && steps[0].actor == chains[i].actor
    ensures IsMergeFrom(chains, pos, steps)
       <==> Unfinished(chains, pos, i) && steps[0] == StepAt(chains, pos, i)
            && IsMergeFrom(chains, Advance(chains, pos, i), steps[1..])
  {
    hide Declared;
    var rest := steps[1..];
    assert Declared(chains, steps[0].actor) by { DeclaredAt(chains, i); }
    assert (forall k :: 0 <= k < |steps| ==> Declared(chains, steps[k].actor))
      <==> (forall k :: 0 <= k < |rest| ==> Declared(chains, rest[k].actor)) by {
      assert forall k :: 0 < k < |steps| ==> steps[k] == rest[k - 1];
      assert forall k :: 0 <= k < |rest| ==> rest[k] == steps[k + 1];
    }
    forall j | 0 <= j < |chains| && j != i
      ensures Projection(steps, chains[j].actor) == Projection(rest, chains[j].actor)
    {
    }
    if Unfinished(chains, pos, i) {
      assert chains[i].checkpoints[pos[i]..] == [chains[i].checkpoints[pos[i]]] + chains[i].checkpoints[pos[i] + 1..];
      FirstCheckpoint(chains, pos, i, steps);
    } else {
      assert Projection(steps, chains[i].actor) != [];
    }
  }

  lemma {:induction false} DeclaredAt(chains: seq<ActorChain>, i: nat)
    requires i < |chains|
    ensures Declared(chains, chains[i].actor)
  {
  }

  lemma {:induction false} FirstCheckpoint(chains: seq<ActorChain>, pos: seq<nat>, i: nat, steps: seq<Step>)
    requires Within(chains, pos) && i < |chains| && Unfinished(chains, pos, i)
    requires steps != [] && steps[0].actor == chains[i].actor
    ensures Projection(steps, chains[i].actor) == chains[i].checkpoints[pos[i]..]
       <==> steps[0] == StepAt(chains, pos, i)
            && Projection(steps[1..], chains[i].actor) == chains[i].checkpoints[pos[i] + 1..]
  {
    var tail := Projection(steps[1..], chains[i].actor);
    var left := chains[i].checkpoints[pos[i]..];
    assert Projection(steps, chains[i].actor) == [steps[0].checkpoint] + tail;
    assert left[1..] == chains[i].checkpoints[pos[i] + 1..];
    assert ([steps[0].checkpoint] + tail)[1..] == tail;
    assert left == [left[0]] + left[1..];
  }

  lemma {:induction false} EmptyMerge(chains: seq<ActorChain>, pos: seq<nat>, steps: seq<Step>)
    requires Within(chains, pos)
    ensures steps == [] ==> (IsMergeFrom(chains, pos, steps) <==> Remaining(chains, pos) == 0)
    ensures IsMergeFrom(chains, pos, steps) && Remaining(chains, pos) == 0 ==> steps == []
  {
    NothingRemains(chains, pos, 0);
    if IsMergeFrom(chains, pos, steps) && steps == [] {
      forall i | 0 <= i < |chains| ensures !Unfinished(chains, pos, i) {
        assert Projection(steps, chains[i].actor) == chains[i].checkpoints[pos[i]..];
      }
    }
    if steps == [] && Remaining(chains, pos) == 0 {
      forall i | 0 <= i < |chains| ensures Projection(steps, chains[i].actor) == chains[i].checkpoints[pos[i]..] {
        assert !Unfinished(chains, pos, i);
      }
    }
    if IsMergeFrom(chains, pos, steps) && steps != [] {
      var i :| 0 <= i < |chains| && chains[i].actor == steps[0].actor;
      assert Projection(steps, chains[i].actor) != [];
      assert Unfinished(chains, pos, i);
    }
  }

  lemma {:induction false} InExtend(x: Step, ss: seq<seq<Step>>, s: seq<Step>)
    ensures s in Extend([x], ss) <==> s != [] && s[0] == x && s[1..] in ss
  {
    var r := Extend([x], ss);
    if s in r {
      var k :| 0 <= k < |r| && r[k] == s;
      assert s[1..] == ss[k];
    }
    if s != [] && s[0] == x && s[1..] in ss {
      var k :| 0 <= k < |ss| && ss[k] == s[1..];
      assert r[k] == [x] + s[1..] == s;
    }
  }

  lemma {:induction false} InBranches(chains: seq<ActorChain>, pos: seq<nat>, prior: Option<nat>, used: nat, bound: nat,
                                      i: nat, s: seq<Step>)
    requires Within(chains, pos) && (prior.Some? ==> prior.value < |chains|) && i <= |chains|
    ensures s in Branches(chains, pos, prior, used, bound, i)
       <==> exists j :: i <= j < |chains| && s in Branch(chains, pos, prior, used, bound, j)
    decreases |chains| - i
  {
    if i < |chains| {
      InBranches(chains, pos, prior, used, bound, i + 1, s);
      assert s in Branches(chains, pos, prior, used, bound, i)
        <==> s in Branch(chains, pos, prior, used, bound, i) || s in Branches(chains, pos, prior, used, bound, i + 1);
    }
  }

  /** A completion list holds exactly the merges of what remains that fit the budget. */
  lemma {:induction false} Members(chains: seq<ActorChain>, pos: seq<nat>, prior: Option<nat>, used: nat, bound: nat, s: seq<Step>)
    requires Within(chains, pos) && DistinctActors(chains) && (prior.Some? ==> prior.value < |chains|) && used <= bound
    ensures s in Completions(chains, pos, prior, used, bound)
       <==> IsMergeFrom(chains, pos, s) && used + Preemptions(Name(chains, prior), s) <= bound
    decreases |s|, 1
  {
    EmptyMerge(chains, pos, s);
    if Remaining(chains, pos) != 0 {
      InBranches(chains, pos, prior, used, bound, 0, s);
      assert Completions(chains, pos, prior, used, bound) == Branches(chains, pos, prior, used, bound, 0);
      if s in Completions(chains, pos, prior, used, bound) {
        var j :| 0 <= j < |chains| && s in Branch(chains, pos, prior, used, bound, j);
        BranchMembers(chains, pos, prior, used, bound, j, s);
      } else if s != [] && IsMergeFrom(chains, pos, s) {
        assert Declared(chains, s[0].actor);
        var j :| 0 <= j < |chains| && chains[j].actor == s[0].actor;
        BranchMembers(chains, pos, prior, used, bound, j, s);
      }
    }
  }

  lemma {:induction false} BranchMembers(chains: seq<ActorChain>, pos: seq<nat>, prior: Option<nat>, used: nat, bound: nat,
                                         i: nat, s: seq<Step>)
    requires Within(chains, pos) && DistinctActors(chains) && (prior.Some? ==> prior.value < |chains|) && used <= bound
    requires i < |chains|
    ensures s in Branch(chains, pos, prior, used, bound, i)
       <==> s != [] && s[0].actor == chains[i].actor && IsMergeFrom(chains, pos, s)
            && used + Preemptions(Name(chains, prior), s) <= bound
    decreases |s|, 0
  {
    hide Completions, Remaining;
    if s == [] || s[0].actor != chains[i].actor {
      if Eligible(chains, pos, prior, used, bound, i) {
        RemainingAfterAdvance(chains, pos, i, 0);
        InExtend(StepAt(chains, pos, i),
                 Completions(chains, Advance(chains, pos, i), Some(i), used + Cost(chains, pos, prior, i), bound), s);
      }
    } else {
      MergeStep(chains, pos, i, s);
      if IsMergeFrom(chains, pos, s) {
        if prior.Some? {
          assert Projection(s, chains[prior.value].actor) == chains[prior.value].checkpoints[pos[prior.value]..];
          assert Projection(s, chains[prior.value].actor) != [] <==> Unfinished(chains, pos, prior.value);
          assert prior.value != i <==> chains[prior.value].actor != s[0].actor;
        }
        assert Preemptions(Name(chains, prior), s)
            == Cost(chains, pos, prior, i) + Preemptions(Some(s[0].actor), s[1..]);
      }
      if Eligible(chains, pos, prior, used, bound, i) {
        var next, spent := Advance(chains, pos, i), used + Cost(chains, pos, prior, i);
        RemainingAfterAdvance(chains, pos, i, 0);
        InExtend(StepAt(chains, pos, i), Completions(chains, next, Some(i), spent, bound), s);
        Members(chains, next, Some(i), spent, bound, s[1..]);
      }
    }
  }

  /** The unstopped enumeration lists exactly the order-preserving merges within the bound. */
  lemma {:induction false} AllSchedulesAreTheMerges(chains: seq<ActorChain>, bound: nat, s: seq<Step>)
    requires DistinctActors(chains)
    ensures s in AllSchedules(chains, bound) <==> IsMerge(chains, s) && Preemptions(None, s) <= bound
  {
    Members(chains, Origin(chains), None, 0, bound, s);
    assert forall i :: 0 <= i < |chains| ==> chains[i].checkpoints[Origin(chains)[i]..] == chains[i].checkpoints;
  }

  // ----- order -----------------------------------------------------------------

  /** Lexicographic order on schedules by the rank of the acting actor. */
  ghost predicate Before(chains: seq<ActorChain>, s: seq<Step>, t: seq<Step>) {
    && s != [] && t != []
    && ((exists i, j :: 0 <= i < j < |chains| && chains[i].actor == s[0].actor && chains[j].actor == t[0].actor)
        || (s[0] == t[0] && Before(chains, s[1..], t[1..])))
  }

  ghost predicate Ascending(chains: seq<ActorChain>, ss: seq<seq<Step>>) {
    forall a, b :: 0 <= a < b < |ss| ==> Before(chains, ss[a], ss[b])
  }

  lemma {:induction false} BeforeIsIrreflexive(chains: seq<ActorChain>, s: seq<Step>)
    requires DistinctActors(chains)
    ensures !Before(chains, s, s)
  {
    if s != [] { BeforeIsIrreflexive(chains, s[1..]); }
  }

  lemma {:induction false} AscendingAppend(chains: seq<ActorChain>, left: seq<seq<Step>>, right: seq<seq<Step>>)
    requires Ascending(chains, left) && Ascending(chains, right)
    requires forall s, t :: s in left && t in right ==> Before(chains, s, t)
    ensures Ascending(chains, left + right)
  {
    hide Before;
    var all := left + right;
    forall a, b | 0 <= a < b < |all| ensures Before(chains, all[a], all[b]) {
      if a < |left| <= b {
        assert all[a] in left && all[b] in right;
      } else if |left| <= a {
        assert all[a] == right[a - |left|] && all[b] == right[b - |left|];
      }
    }
  }

  lemma {:induction false} AscendingExtend(chains: seq<ActorChain>, step: Step, tails: seq<seq<Step>>)
    requires Ascending(chains, tails)
    ensures Ascending(chains, Extend([step], tails))
  {
    var all := Extend([step], tails);
    forall a, b | 0 <= a < b < |all| ensures Before(chains, all[a], all[b]) {
      assert all[a][1..] == tails[a] && all[b][1..] == tails[b];
    }
  }

  /** A completion in actor `i`'s branch starts with that actor's next step. */
  lemma {:induction false} BranchHead(chains: seq<ActorChain>, pos: seq<nat>, prior: Option<nat>, used: nat, bound: nat, i: nat, s: seq<Step>)
    requires Within(chains, pos) && (prior.Some? ==> prior.value < |chains|) && i < |chains|
    requires s in Branch(chains, pos, prior, used, bound, i)
    ensures s != [] && s[0].actor == chains[i].actor
  {
    hide Completions;
    RemainingAfterAdvance(chains, pos, i, 0);
    InExtend(StepAt(chains, pos, i),
             Completions(chains, Advance(chains, pos, i), Some(i), used + Cost(chains, pos, prior, i), bound), s);
  }

  lemma {:induction false} EarlierActorFirst(chains: seq<ActorChain>, pos: seq<nat>, prior: Option<nat>, used: nat, bound: nat, i: nat,
                          s: seq<Step>, t: seq<Step>)
    requires Within(chains, pos) && (prior.Some? ==> prior.value < |chains|) && i < |chains|
    requires s in Branch(chains, pos, prior, used, bound, i)
    requires t in Branches(chains, pos, prior, used, bound, i + 1)
    ensures Before(chains, s, t)
  {
    hide Branch, Branches;
    BranchHead(chains, pos, prior, used, bound, i, s);
    InBranches(chains, pos, prior, used, bound, i + 1, t);
    var j :| i + 1 <= j < |chains| && t in Branch(chains, pos, prior, used, bound, j);
    BranchHead(chains, pos, prior, used, bound, j, t);
  }

  lemma {:induction false} BranchAscends(chains: seq<ActorChain>, pos: seq<nat>, prior: Option<nat>, used: nat, bound: nat, i: nat)
    requires Within(chains, pos) && (prior.Some? ==> prior.value < |chains|) && i < |chains|
    ensures Ascending(chains, Branch(chains, pos, prior, used, bound, i))
    decreases Remaining(chains, pos), 0
  {
    hide Ascending, Branches;
    if Eligible(chains, pos, prior, used, bound, i) {
      var next, spent := Advance(chains, pos, i), used + Cost(chains, pos, prior, i);
      RemainingAfterAdvance(chains, pos, i, 0);
      var tails := Completions(chains, next, Some(i), spent, bound);
      if Remaining(chains, next) != 0 {
        BranchesAscend(chains, next, Some(i), spent, bound, 0);
      } else {
        ShortAscending(chains, tails);
      }
      AscendingExtend(chains, StepAt(chains, pos, i), tails);
    } else {
      ShortAscending(chains, []);
    }
  }

  lemma {:induction false} ShortAscending(chains: seq<ActorChain>, ss: seq<seq<Step>>)
    requires |ss| <= 1
    ensures Ascending(chains, ss)
  {
  }

  lemma {:induction false} BranchesAscend(chains: seq<ActorChain>, pos: seq<nat>, prior: Option<nat>, used: nat, bound: nat, i: nat)
    requires Within(chains, pos) && (prior.Some? ==> prior.value < |chains|) && i <= |chains|
    ensures Ascending(chains, Branches(chains, pos, prior, used, bound, i))
    decreases Remaining(chains, pos), |chains| + 1 - i
  {
    hide Ascending, Before, Branch;
    if i < |chains| {
      var here, later := Branch(chains, pos, prior, used, bound, i), Branches(chains, pos, prior, used, bound, i + 1);
      BranchAscends(chains, pos, prior, used, bound, i);
      BranchesAscend(chains, pos, prior, used, bound, i + 1);
      forall s, t | s in here && t in later ensures Before(chains, s, t) {
        EarlierActorFirst(chains, pos, prior, used, bound, i, s, t);
      }
      AscendingAppend(chains, here, later);
    } else {
      ShortAscending(chains, []);
    }
  }

  /** The enumeration is in strictly ascending lexicographic actor order, so nothing is listed twice. */
  lemma {:induction false} AllSchedulesAscend(chains: seq<ActorChain>, bound: nat)
    requires DistinctActors(chains)
    ensures Ascending(chains, AllSchedules(chains, bound))
    ensures forall a, b :: 0 <= a < b < |AllSchedules(chains, bound)| ==>
              AllSchedules(chains, bound)[a] != AllSchedules(chains, bound)[b]
  {
    var all := AllSchedules(chains, bound);
    if Remaining(chains, Origin(chains)) != 0 {
      BranchesAscend(chains, Origin(chains), None, 0, bound, 0);
    }
    forall a, b | 0 <= a < b < |all| ensures all[a] != all[b] {
      assert Before(chains, all[a], all[b]);
      BeforeIsIrreflexive(chains, all[a]);
    }
  }
}
