/** The backtracking search `enumerate`: one mutable position per actor, one
    mutable current schedule, pushed and popped around each recursive visit. */
module Enumerate {
  import opened Schedules
  import opened Merges
  import opened Signals

  datatype StopReason = NotStopped | Cancelled | TimeBudget | EnumerationLimit

  datatype Enumeration = Enumeration(schedules: seq<seq<Step>>, exhausted: bool, stopReason: StopReason)

  /** What a reason says about the polls made so far. */
  ghost predicate Heeded(interrupts: Interrupts, polls: Polls, reason: StopReason) {
    match reason
    case Cancelled => Struck(interrupts.stop, polls.stops)
    case TimeBudget => Struck(interrupts.late, polls.looks)
    case _ => Undisturbed(interrupts, polls)
  }

  class Search {
    const chains: seq<ActorChain>
    const maxPreemptions: nat
    const cap: nat
    const interrupts: Interrupts
    const length: nat
    const positions: array<nat>
    var current: seq<Step>
    var schedules: seq<seq<Step>>
    var exhausted: bool
    var stopReason: StopReason
    var polls: Polls

    ghost predicate Valid()
      reads this, positions
    {
      && Within(chains, positions[..])
      && length == Remaining(chains, Origin(chains))
      && |current| + Remaining(chains, positions[..]) == length
      && |schedules| <= cap
      && (exhausted <==> stopReason == NotStopped)
      && (stopReason == EnumerationLimit ==> |schedules| == cap)
      && Heeded(interrupts, polls, stopReason) && |schedules| <= polls.stops
    }

    constructor (chains: seq<ActorChain>, maxPreemptions: nat, cap: nat, interrupts: Interrupts)
      ensures Valid() && fresh(positions)
      ensures this.chains == chains && this.maxPreemptions == maxPreemptions && this.cap == cap && this.interrupts == interrupts
      ensures positions[..] == Origin(chains) && current == [] && schedules == [] && exhausted
    {
      this.chains, this.maxPreemptions, this.cap, this.interrupts, polls := chains, maxPreemptions, cap, interrupts, Polls(0, 0);
      var total := TotalLength(chains);
      length := total;
      var zeros := new nat[|chains|](_ => 0);
      positions := zeros;
      current, schedules, exhausted, stopReason := [], [], true, NotStopped;
      new;
      assert positions[..] == Origin(chains);
    }

    /** The schedules found so far against the list they are meant to become: all of it
        when nothing stopped the search, a prefix otherwise, a proper one when the cap did. */
    ghost predicate Reached(all: seq<seq<Step>>)
      reads this
    {
      && (exhausted ==> schedules == all)
      && (!exhausted ==> schedules <= all)
      && (stopReason == EnumerationLimit ==> |schedules| < |all|)
    }

    /** Visits every way to finish from the current node. The stop token and
        the clock are polled once per node. Positions and the current schedule are back as
        they were on every return. */
    method Visit(prior: Option<nat>, preemptions: nat)
      requires Valid() && (prior.Some? ==> prior.value < |chains|)
      modifies this, positions
      ensures Valid()
      ensures positions[..] == old(positions[..]) && current == old(current)
      ensures if old(exhausted)
              then Reached(old(schedules) + Extend(current, Completions(chains, positions[..], prior, preemptions, maxPreemptions)))
              else schedules == old(schedules) && exhausted == old(exhausted) && stopReason == old(stopReason)
      decreases Remaining(chains, positions[..]), 2
    {
      if !exhausted { return; }
      var interrupted := Poll();
      if interrupted { return; }
      if |current| == length {
        if |schedules| == cap {
          exhausted, stopReason := false, EnumerationLimit;
        } else {
          schedules := schedules + [current];
        }
        ExtendLeaf(current);
        return;
      }
      VisitChildren(prior, preemptions);
    }

    /** Looks at the stop token and the clock; the token once more for the reason. */
    method Poll() returns (interrupted: bool)
      requires Valid() && exhausted
      modifies `exhausted, `stopReason, `polls
      ensures Valid() && exhausted == !interrupted && stopReason != EnumerationLimit && |schedules| < polls.stops
    {
      hide Struck, RemainingFrom;
      var cancelled, late, after := LookBoth(interrupts, polls);
      polls, interrupted := after, cancelled || late;
      if interrupted {
        OneMorePoll(interrupts.stop, polls.stops);
        exhausted := false;
        stopReason := if cancelled || interrupts.stop(polls.stops) then Cancelled else TimeBudget;
        polls := polls.(stops := polls.stops + 1);
      }
    }

    /** The loop over the actors that may take the next step. */
    method VisitChildren(prior: Option<nat>, preemptions: nat)
      requires Valid() && exhausted && (prior.Some? ==> prior.value < |chains|)
      modifies this, positions
      ensures Valid()
      ensures positions[..] == old(positions[..]) && current == old(current)
      ensures Reached(old(schedules) + Extend(current, Branches(chains, positions[..], prior, preemptions, maxPreemptions, 0)))
      decreases Remaining(chains, positions[..]), 1
    {
      hide Branches, Completions, RemainingFrom, Extend, Heeded;
      ghost var pos := positions[..];
      ghost var all := schedules + Extend(current, Branches(chains, pos, prior, preemptions, maxPreemptions, 0));
      var index := 0;
      while index < |chains|
        invariant index <= |chains|
        invariant Valid() && exhausted
        invariant positions[..] == pos && current == old(current)
        invariant schedules + Extend(current, Branches(chains, pos, prior, preemptions, maxPreemptions, index)) == all
      {
        var preemption := prior.Some? && prior.value != index && positions[prior.value] < |chains[prior.value].checkpoints|;
        var spent := preemptions + (if preemption then 1 else 0);
        ghost var before := schedules;
        ghost var here := Extend(current, Branch(chains, pos, prior, preemptions, maxPreemptions, index));
        SplitBranches(current, before, chains, pos, prior, preemptions, maxPreemptions, index);
        if positions[index] != |chains[index].checkpoints| && spent <= maxPreemptions {
          Descend(index, spent);
          if !exhausted { return; }
        }
        assert schedules == before + here;
        index := index + 1;
      }
      NoBranches(current, chains, pos, prior, preemptions, maxPreemptions);
    }

    /** Pushes one step of actor `index`, visits below it and pops it again. */
    method Descend(index: nat, spent: nat)
      requires Valid() && exhausted && index < |chains| && Unfinished(chains, positions[..], index)
      modifies this, positions
      ensures Valid()
      ensures positions[..] == old(positions[..]) && current == old(current)
      ensures var tails := Completions(chains, Advance(chains, positions[..], index), Some(index), spent, maxPreemptions);
              Reached(old(schedules) + Extend(current, Extend([StepAt(chains, positions[..], index)], tails)))
      decreases Remaining(chains, positions[..]), 0
    {
      ghost var pos := positions[..];
      var offset := positions[index];
      var step := Step(chains[index].actor, chains[index].checkpoints[offset]);
      RemainingAfterAdvance(chains, pos, index, 0);
      ExtendTwice(current, step, Completions(chains, Advance(chains, pos, index), Some(index), spent, maxPreemptions));
      positions[index] := offset + 1;
      current := current + [step];
      assert positions[..] == Advance(chains, pos, index);
      Visit(Some(index), spent);
      current := current[..|current| - 1];
      positions[index] := positions[index] - 1;
      assert positions[..] == pos;
    }
  }

  lemma {:induction false} ExtendLeaf(prefix: seq<Step>)
    ensures Extend(prefix, [[]]) == [prefix]
  {
    assert prefix + [] == prefix;
  }

  lemma {:induction false} ExtendSplit(prefix: seq<Step>, here: seq<seq<Step>>, later: seq<seq<Step>>)
    ensures Extend(prefix, here + later) == Extend(prefix, here) + Extend(prefix, later)
  {
  }

  /** What is found and what the loop still owes, with the next actor's share split off. */
  lemma {:induction false} SplitBranches(current: seq<Step>, found: seq<seq<Step>>, chains: seq<ActorChain>, pos: seq<nat>,
                      prior: Option<nat>, used: nat, bound: nat, i: nat)
    requires Within(chains, pos) && (prior.Some? ==> prior.value < |chains|) && i < |chains|
    ensures found + Extend(current, Branches(chains, pos, prior, used, bound, i))
         == found + Extend(current, Branch(chains, pos, prior, used, bound, i))
            + Extend(current, Branches(chains, pos, prior, used, bound, i + 1))
    ensures !Eligible(chains, pos, prior, used, bound, i) ==> Extend(current, Branch(chains, pos, prior, used, bound, i)) == []
  {
    hide Extend, Branch;
    var here, later := Branch(chains, pos, prior, used, bound, i), Branches(chains, pos, prior, used, bound, i + 1);
    assert Branches(chains, pos, prior, used, bound, i) == here + later;
    ExtendSplit(current, here, later);
    assert found + (Extend(current, here) + Extend(current, later)) == found + Extend(current, here) + Extend(current, later);
    if !Eligible(chains, pos, prior, used, bound, i) {
      NoBranch(chains, pos, prior, used, bound, i);
      assert Extend(current, here) == [];
    }
  }

  lemma {:induction false} NoBranch(chains: seq<ActorChain>, pos: seq<nat>, prior: Option<nat>, used: nat, bound: nat, i: nat)
    requires Within(chains, pos) && (prior.Some? ==> prior.value < |chains|) && i < |chains|
    requires !Eligible(chains, pos, prior, used, bound, i)
    ensures Branch(chains, pos, prior, used, bound, i) == []
  {
  }

  lemma {:induction false} NoBranches(current: seq<Step>, chains: seq<ActorChain>, pos: seq<nat>, prior: Option<nat>, used: nat, bound: nat)
    requires Within(chains, pos) && (prior.Some? ==> prior.value < |chains|)
    ensures Extend(current, Branches(chains, pos, prior, used, bound, |chains|)) == []
  {
  }

  lemma {:induction false} ExtendTwice(prefix: seq<Step>, step: Step, tails: seq<seq<Step>>)
    ensures Extend(prefix + [step], tails) == Extend(prefix, Extend([step], tails))
  {
    forall k | 0 <= k < |tails| ensures Extend(prefix + [step], tails)[k] == Extend(prefix, Extend([step], tails))[k] {
      assert (prefix + [step]) + tails[k] == prefix + ([step] + tails[k]);
    }
  }

  method TotalLength(chains: seq<ActorChain>) returns (length: nat)
    ensures length == Remaining(chains, Origin(chains))
  {
    length := 0;
    for i := 0 to |chains|
      invariant length + RemainingFrom(chains, Origin(chains), i) == Remaining(chains, Origin(chains))
    {
      length := length + |chains[i].checkpoints|;
    }
  }

  /** Unstopped, the search returns exactly the list of eligible merges; stopped by
      the cap, its first `cap` entries, with more to come; stopped from outside, some prefix.
      It is stopped from outside exactly when a poll found a reason. */
  method Enumerate(chains: seq<ActorChain>, maxPreemptions: nat, cap: nat, interrupts: Interrupts) returns (r: Enumeration, polls: Polls)
    ensures r.exhausted <==> r.stopReason == NotStopped
    ensures r.exhausted ==> r.schedules == AllSchedules(chains, maxPreemptions)
    ensures r.schedules <= AllSchedules(chains, maxPreemptions) && |r.schedules| <= cap
    ensures r.stopReason == EnumerationLimit ==> |r.schedules| == cap < |AllSchedules(chains, maxPreemptions)|
    ensures Heeded(interrupts, polls, r.stopReason) && |r.schedules| <= polls.stops
    ensures Undisturbed(interrupts, polls) ==> (r.exhausted <==> |AllSchedules(chains, maxPreemptions)| <= cap)
  {
    hide Struck;
    var search := new Search(chains, maxPreemptions, cap, interrupts);
    search.Visit(None, 0);
    ghost var all := AllSchedules(chains, maxPreemptions);
    assert Extend([], all) == all by {
      assert forall k :: 0 <= k < |all| ==> [] + all[k] == all[k];
    }
    r, polls := Enumeration(search.schedules, search.exhausted, search.stopReason), search.polls;
  }
}
