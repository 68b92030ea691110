/** Waiting on one another: a finite set of waiters, each waiting for another one of
    them, contains a cycle of at least two. */
module WaitGraph {
  import opened Counting

  /** `target[i]` is the waiter that waiter `i` waits for. */
  ghost predicate WaitsForAnother(target: seq<nat>) {
    forall i :: 0 <= i < |target| ==> target[i] < |target| && target[i] != i
  }

  ghost predicate Path(target: seq<nat>, path: seq<nat>) {
    && path != [] && Distinct(path)
    && (forall k :: 0 <= k < |path| ==> path[k] < |target|)
    && (forall k :: 0 <= k < |path| - 1 ==> target[path[k]] == path[k + 1])
  }

  ghost predicate Cycle(target: seq<nat>, cycle: seq<nat>) {
    && |cycle| >= 2 && Path(target, cycle)
    && target[cycle[|cycle| - 1]] == cycle[0]
  }

  lemma {:induction false} FollowUntilRepeated(target: seq<nat>, path: seq<nat>)
    requires WaitsForAnother(target) && Path(target, path)
    ensures exists cycle :: Cycle(target, cycle)
    decreases |target| - |path|
  {
    var last := path[|path| - 1];
    var next := target[last];
    if next in path {
      var m :| 0 <= m < |path| && path[m] == next;
      var cycle := path[m..];
      assert cycle[|cycle| - 1] == last && cycle[0] == next;
      assert Cycle(target, cycle);
    } else {
      var longer := path + [next];
      assert Path(target, longer);
      PigeonHole(longer, |target|);
      FollowUntilRepeated(target, longer);
    }
  }

  /** Waiters that all wait for another waiter contain a cycle of two or more. */
  lemma {:induction false} EveryWaiterWaitsMeansCycle(target: seq<nat>)
    requires WaitsForAnother(target) && target != []
    ensures exists cycle :: Cycle(target, cycle)
  {
    FollowUntilRepeated(target, [0]);
  }
}
