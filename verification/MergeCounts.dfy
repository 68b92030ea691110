/** How many schedules an unstopped enumeration yields. */
module MergeCounts {
  import opened Schedules
  import opened Merges

  ghost function Factorial(n: nat): (f: nat)
    ensures f > 0
  {
    if n == 0 then 1 else n * Factorial(n - 1)
  }

  // ----- without a binding preemption bound: the multinomial coefficient -------

  /** The product of the factorials of what each chain from `i` on has left. */
  ghost function FactorialsFrom(chains: seq<ActorChain>, pos: seq<nat>, i: nat): (p: nat)
    requires Within(chains, pos) && i <= |chains|
    ensures p > 0
    decreases |chains| - i
  {
    if i == |chains| then 1
    else
      var f, rest := Factorial(|chains[i].checkpoints| - pos[i]), FactorialsFrom(chains, pos, i + 1);
      Positive(f, rest);
      f * rest
  }

  lemma {:induction false} Positive(a: nat, b: nat)
    requires a > 0 && b > 0
    ensures a * b > 0
  {
  }

  lemma {:induction false} FactorialsAfterAdvance(chains: seq<ActorChain>, pos: seq<nat>, i: nat, from: nat)
    requires Within(chains, pos) && i < |chains| && Unfinished(chains, pos, i) && from <= |chains|
    ensures i < from ==> FactorialsFrom(chains, Advance(chains, pos, i), from) == FactorialsFrom(chains, pos, from)
    ensures from <= i ==>
              FactorialsFrom(chains, pos, from)
              == (|chains[i].checkpoints| - pos[i]) * FactorialsFrom(chains, Advance(chains, pos, i), from)
    decreases |chains| - from
  {
    if from < |chains| {
      FactorialsAfterAdvance(chains, pos, i, from + 1);
      var next := Advance(chains, pos, i);
      var left := |chains[i].checkpoints| - pos[i];
      if from == i {
        Regroup(left, Factorial(left - 1), FactorialsFrom(chains, next, from + 1));
      } else if from < i {
        var f := Factorial(|chains[from].checkpoints| - pos[from]);
        Swap(f, left, FactorialsFrom(chains, next, from + 1));
      }
    }
  }

  lemma {:induction false} Regroup(a: int, b: int, c: int)
    ensures (a * b) * c == a * (b * c)
  {
  }

  lemma {:induction false} Swap(a: int, b: int, c: int)
    ensures a * (b * c) == b * (a * c)
  {
  }

  /** With room for every remaining switch, the completions number
      `Remaining! / product of what each chain has left!`. */
  lemma {:induction false} UnboundedCount(chains: seq<ActorChain>, pos: seq<nat>, prior: Option<nat>, used: nat, bound: nat)
    requires Within(chains, pos) && (prior.Some? ==> prior.value < |chains|)
    requires used + Remaining(chains, pos) <= bound
    ensures |Completions(chains, pos, prior, used, bound)| * FactorialsFrom(chains, pos, 0) == Factorial(Remaining(chains, pos))
    decreases Remaining(chains, pos), |chains| + 1
  {
    if Remaining(chains, pos) == 0 {
      AllOnes(chains, pos, 0);
    } else {
      UnboundedBranches(chains, pos, prior, used, bound, 0);
    }
  }

  lemma {:induction false} AllOnes(chains: seq<ActorChain>, pos: seq<nat>, i: nat)
    requires Within(chains, pos) && i <= |chains| && RemainingFrom(chains, pos, i) == 0
    ensures FactorialsFrom(chains, pos, i) == 1
    decreases |chains| - i
  {
    if i < |chains| { AllOnes(chains, pos, i + 1); }
  }

  lemma {:induction false} UnboundedBranches(chains: seq<ActorChain>, pos: seq<nat>, prior: Option<nat>, used: nat, bound: nat, i: nat)
    requires Within(chains, pos) && (prior.Some? ==> prior.value < |chains|) && i <= |chains|
    requires used + Remaining(chains, pos) <= bound && Remaining(chains, pos) > 0
    ensures |Branches(chains, pos, prior, used, bound, i)| * FactorialsFrom(chains, pos, 0)
         == RemainingFrom(chains, pos, i) * Factorial(Remaining(chains, pos) - 1)
    decreases Remaining(chains, pos), |chains| - i
  {
    if i < |chains| {
      var all, rest := FactorialsFrom(chains, pos, 0), Factorial(Remaining(chains, pos) - 1);
      var here, later := |Branch(chains, pos, prior, used, bound, i)|, |Branches(chains, pos, prior, used, bound, i + 1)|;
      var left := |chains[i].checkpoints| - pos[i];
      UnboundedBranches(chains, pos, prior, used, bound, i + 1);
      assert here * all == left * rest by {
        if left > 0 {
          var next := Advance(chains, pos, i);
          RemainingAfterAdvance(chains, pos, i, 0);
          FactorialsAfterAdvance(chains, pos, i, 0);
          UnboundedCount(chains, next, Some(i), used + Cost(chains, pos, prior, i), bound);
          Swap(here, left, FactorialsFrom(chains, next, 0));
        }
      }
      Distribute(here, later, all);
      Distribute(left, RemainingFrom(chains, pos, i + 1), rest);
    }
  }

  lemma {:induction false} Distribute(a: int, b: int, c: int)
    ensures (a + b) * c == a * c + b * c
  {
  }

  /** A bound of at least the number of steps admits every merge: the list has
      `n! / (l1! * l2! * ...)` entries. With at most 64 steps, 64 is such a bound. */
  lemma {:induction false} MultinomialCount(chains: seq<ActorChain>, bound: nat)
    requires bound >= TotalSteps(chains)
    ensures |AllSchedules(chains, bound)| * FactorialsFrom(chains, Origin(chains), 0) == Factorial(TotalSteps(chains))
  {
    AllRemains(chains);
    UnboundedCount(chains, Origin(chains), None, 0, bound);
  }

  // ----- with no preemption allowed: the orders of the actors ------------------

  ghost function UnfinishedFrom(chains: seq<ActorChain>, pos: seq<nat>, i: nat): nat
    requires Within(chains, pos) && i <= |chains|
    decreases |chains| - i
  {
    if i == |chains| then 0 else (if Unfinished(chains, pos, i) then 1 else 0) + UnfinishedFrom(chains, pos, i + 1)
  }

  lemma {:induction false} UnfinishedAfterAdvance(chains: seq<ActorChain>, pos: seq<nat>, i: nat, from: nat)
    requires Within(chains, pos) && i < |chains| && Unfinished(chains, pos, i) && from <= |chains|
    ensures UnfinishedFrom(chains, Advance(chains, pos, i), from)
         == UnfinishedFrom(chains, pos, from)
            - (if from <= i && !Unfinished(chains, Advance(chains, pos, i), i) then 1 else 0)
    ensures from <= i ==> UnfinishedFrom(chains, pos, from) > 0
    decreases |chains| - from
  {
    if from < |chains| { UnfinishedAfterAdvance(chains, pos, i, from + 1); }
  }

  ghost predicate Committed(chains: seq<ActorChain>, pos: seq<nat>, prior: Option<nat>)
    requires Within(chains, pos) && (prior.Some? ==> prior.value < |chains|)
  {
    prior.Some? && Unfinished(chains, pos, prior.value)
  }

  /** With the budget spent, a running actor must finish, after which any other may start. */
  lemma {:induction false} SpentCount(chains: seq<ActorChain>, pos: seq<nat>, prior: Option<nat>, bound: nat)
    requires Within(chains, pos) && (prior.Some? ==> prior.value < |chains|)
    ensures Committed(chains, pos, prior) ==> UnfinishedFrom(chains, pos, 0) > 0
    ensures |Completions(chains, pos, prior, bound, bound)|
         == Factorial(UnfinishedFrom(chains, pos, 0) - (if Committed(chains, pos, prior) then 1 else 0))
    decreases Remaining(chains, pos), |chains| + 1
  {
    if Committed(chains, pos, prior) { UnfinishedAfterAdvance(chains, pos, prior.value, 0); }
    if Remaining(chains, pos) == 0 {
      NothingRemains(chains, pos, 0);
      NoneUnfinished(chains, pos, 0);
    } else {
      SpentBranches(chains, pos, prior, bound, 0);
      NothingRemains(chains, pos, 0);
      SomeUnfinished(chains, pos, 0);
    }
  }

  lemma {:induction false} NoneUnfinished(chains: seq<ActorChain>, pos: seq<nat>, i: nat)
    requires Within(chains, pos) && i <= |chains| && forall j :: i <= j < |chains| ==> !Unfinished(chains, pos, j)
    ensures UnfinishedFrom(chains, pos, i) == 0
    decreases |chains| - i
  {
    if i < |chains| { NoneUnfinished(chains, pos, i + 1); }
  }

  lemma {:induction false} SomeUnfinished(chains: seq<ActorChain>, pos: seq<nat>, i: nat)
    requires Within(chains, pos) && i <= |chains| && RemainingFrom(chains, pos, i) > 0
    ensures UnfinishedFrom(chains, pos, i) > 0
    decreases |chains| - i
  {
    if !Unfinished(chains, pos, i) { SomeUnfinished(chains, pos, i + 1); }
  }

  lemma {:induction false} SpentBranches(chains: seq<ActorChain>, pos: seq<nat>, prior: Option<nat>, bound: nat, i: nat)
    requires Within(chains, pos) && (prior.Some? ==> prior.value < |chains|) && i <= |chains|
    requires Remaining(chains, pos) > 0
    ensures UnfinishedFrom(chains, pos, 0) > 0
    ensures |Branches(chains, pos, prior, bound, bound, i)|
         == (if Committed(chains, pos, prior) then (if i <= prior.value then 1 else 0) else UnfinishedFrom(chains, pos, i))
            * Factorial(UnfinishedFrom(chains, pos, 0) - 1)
    decreases Remaining(chains, pos), |chains| - i
  {
    SomeUnfinished(chains, pos, 0);
    if i < |chains| {
      var rest := Factorial(UnfinishedFrom(chains, pos, 0) - 1);
      SpentBranches(chains, pos, prior, bound, i + 1);
      if Eligible(chains, pos, prior, bound, bound, i) {
        RemainingAfterAdvance(chains, pos, i, 0);
        UnfinishedAfterAdvance(chains, pos, i, 0);
        SpentCount(chains, Advance(chains, pos, i), Some(i), bound);
        assert |Branch(chains, pos, prior, bound, bound, i)| == rest;
      }
      Distribute(1, UnfinishedFrom(chains, pos, i + 1), rest);
    }
  }

  /** Bound zero leaves only the orders in which whole chains run one after another. */
  lemma {:induction false} ZeroPreemptionCount(chains: seq<ActorChain>)
    requires forall i :: 0 <= i < |chains| ==> chains[i].checkpoints != []
    ensures |AllSchedules(chains, 0)| == Factorial(|chains|)
  {
    SpentCount(chains, Origin(chains), None, 0);
    EveryChainCounts(chains, 0);
  }

  lemma {:induction false} EveryChainCounts(chains: seq<ActorChain>, i: nat)
    requires i <= |chains| && forall j :: 0 <= j < |chains| ==> chains[j].checkpoints != []
    ensures UnfinishedFrom(chains, Origin(chains), i) == |chains| - i
    decreases |chains| - i
  {
    if i < |chains| { EveryChainCounts(chains, i + 1); }
  }

  // ----- between the two: monotone in the bound --------------------------------

  lemma {:induction false} MoreRoomMoreBranches(chains: seq<ActorChain>, pos: seq<nat>, prior: Option<nat>, used: nat,
                                                bound: nat, larger: nat, i: nat)
    requires Within(chains, pos) && (prior.Some? ==> prior.value < |chains|) && i <= |chains| && bound <= larger
    ensures |Branches(chains, pos, prior, used, bound, i)| <= |Branches(chains, pos, prior, used, larger, i)|
    decreases Remaining(chains, pos), |chains| - i
  {
    if i < |chains| {
      MoreRoomMoreBranches(chains, pos, prior, used, bound, larger, i + 1);
      if Eligible(chains, pos, prior, used, bound, i) {
        var next, spent := Advance(chains, pos, i), used + Cost(chains, pos, prior, i);
        RemainingAfterAdvance(chains, pos, i, 0);
        if Remaining(chains, next) != 0 {
          MoreRoomMoreBranches(chains, next, Some(i), spent, bound, larger, 0);
        }
        assert |Completions(chains, next, Some(i), spent, bound)| <= |Completions(chains, next, Some(i), spent, larger)|;
        assert |Branch(chains, pos, prior, used, bound, i)| <= |Branch(chains, pos, prior, used, larger, i)|;
      }
    }
  }

  /** A larger bound keeps every schedule and never lists fewer. */
  lemma {:induction false} MonotoneInBound(chains: seq<ActorChain>, bound: nat, larger: nat)
    requires DistinctActors(chains) && bound <= larger
    ensures |AllSchedules(chains, bound)| <= |AllSchedules(chains, larger)|
    ensures forall s :: s in AllSchedules(chains, bound) ==> s in AllSchedules(chains, larger)
  {
    if Remaining(chains, Origin(chains)) != 0 {
      MoreRoomMoreBranches(chains, Origin(chains), None, 0, bound, larger, 0);
    }
    forall s | s in AllSchedules(chains, bound) ensures s in AllSchedules(chains, larger) {
      AllSchedulesAreTheMerges(chains, bound, s);
      AllSchedulesAreTheMerges(chains, larger, s);
    }
  }
}
