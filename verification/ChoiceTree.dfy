/** The tree of enabled choices of a controlled program, and its preorder. A
    program is given by what it shows after every sequence of decisions. */
module ChoiceTree {

  datatype Node = Open(enabled: seq<string>) | Finished | Deadlocked

  type Program = seq<string> -> Node

  /** Every decision of `path` was enabled where it was taken. */
  ghost predicate InTree(program: Program, path: seq<string>) {
    path == [] || (var parent := path[..|path| - 1];
                   InTree(program, parent) && program(parent).Open? && path[|path| - 1] in program(parent).enabled)
  }

  /** No actor is offered twice at the same node. */
  ghost predicate DistinctChoices(program: Program) {
    forall path: seq<string>, i, j :: program(path).Open? && 0 <= i < j < |program(path).enabled| ==>
      program(path).enabled[i] != program(path).enabled[j]
  }

  /** The nodes at and below `path`, down to `depth` decisions, parents first. */
  ghost function Preorder(program: Program, depth: nat, path: seq<string>): seq<seq<string>>
    requires |path| <= depth
    decreases depth - |path|, 1, 0
  {
    [path] + if program(path).Open? && |path| < depth then Below(program, depth, path, 0) else []
  }

  /** The subtrees of the enabled choices from the `i`-th on. */
  ghost function Below(program: Program, depth: nat, path: seq<string>, i: nat): seq<seq<string>>
    requires program(path).Open? && |path| < depth && i <= |program(path).enabled|
    decreases depth - |path|, 0, |program(path).enabled| - i
  {
    if i == |program(path).enabled| then []
    else Preorder(program, depth, path + [program(path).enabled[i]]) + Below(program, depth, path, i + 1)
  }

  ghost function Tally(program: Program, paths: seq<seq<string>>, kind: Node): nat {
    if paths == [] then 0
    else Tally(program, paths[..|paths| - 1], kind) + if program(paths[|paths| - 1]) == kind then 1 else 0
  }

  // ----- which nodes the preorder holds ------------------------------------------

  lemma {:induction false} Child(program: Program, path: seq<string>, choice: string)
    requires InTree(program, path) && program(path).Open? && choice in program(path).enabled
    ensures InTree(program, path + [choice])
  {
    assert (path + [choice])[..|path|] == path;
  }

  lemma {:induction false} Ancestor(program: Program, path: seq<string>, k: nat)
    requires InTree(program, path) && k < |path|
    ensures InTree(program, path[..k]) && program(path[..k]).Open? && path[k] in program(path[..k]).enabled
  {
    var parent := path[..|path| - 1];
    if k < |parent| {
      Ancestor(program, parent, k);
      assert parent[..k] == path[..k];
    }
  }

  lemma {:induction false} PreorderMembers(program: Program, depth: nat, path: seq<string>, q: seq<string>)
    requires |path| <= depth && InTree(program, path)
    ensures q in Preorder(program, depth, path) <==> path <= q && |q| <= depth && InTree(program, q)
    decreases depth - |path|, 1, 0
  {
    hide InTree;
    if program(path).Open? && |path| < depth {
      BelowMembers(program, depth, path, 0, q);
      assert q in Preorder(program, depth, path) <==> q == path || q in Below(program, depth, path, 0);
      if path <= q && q != path && InTree(program, q) {
        Ancestor(program, q, |path|);
        assert q[..|path|] == path;
        assert path + [q[|path|]] <= q;
      }
    } else if path <= q && q != path && InTree(program, q) {
      Ancestor(program, q, |path|);
      assert q[..|path|] == path;
    }
  }

  lemma {:induction false} BelowMembers(program: Program, depth: nat, path: seq<string>, i: nat, q: seq<string>)
    requires program(path).Open? && |path| < depth && i <= |program(path).enabled| && InTree(program, path)
    ensures q in Below(program, depth, path, i)
       <==> |q| <= depth && InTree(program, q)
            && exists j :: i <= j < |program(path).enabled| && path + [program(path).enabled[j]] <= q
    decreases depth - |path|, 0, |program(path).enabled| - i
  {
    hide InTree, Preorder;
    if i < |program(path).enabled| {
      var child := path + [program(path).enabled[i]];
      var here, later := Preorder(program, depth, child), Below(program, depth, path, i + 1);
      Child(program, path, program(path).enabled[i]);
      PreorderMembers(program, depth, child, q);
      BelowMembers(program, depth, path, i + 1, q);
      assert Below(program, depth, path, i) == here + later;
    }
  }

  // ----- the order of the preorder ------------------------------------------------

  /** `p` comes before `q`: an ancestor, or to the left where they part. */
  ghost predicate Precedes(program: Program, p: seq<string>, q: seq<string>) {
    (p <= q && p != q)
    || exists k, i, j :: 0 <= k < |p| && k < |q| && p[..k] == q[..k] && program(p[..k]).Open?
                         && 0 <= i < j < |program(p[..k]).enabled|
                         && p[k] == program(p[..k]).enabled[i] && q[k] == program(p[..k]).enabled[j]
  }

  ghost predicate Ordered(program: Program, paths: seq<seq<string>>) {
    forall a, b :: 0 <= a < b < |paths| ==> Precedes(program, paths[a], paths[b])
  }

  lemma {:induction false} OrderedAppend(program: Program, left: seq<seq<string>>, right: seq<seq<string>>)
    requires Ordered(program, left) && Ordered(program, right)
    requires forall p, q :: p in left && q in right ==> Precedes(program, p, q)
    ensures Ordered(program, left + right)
  {
    var all := left + right;
    forall a, b | 0 <= a < b < |all| ensures Precedes(program, all[a], all[b]) {
      if a < |left| <= b {
        assert all[a] in left && all[b] in right;
      } else if |left| <= a {
        assert all[a] == right[a - |left|] && all[b] == right[b - |left|];
      }
    }
  }

  lemma {:induction false} PreorderOrdered(program: Program, depth: nat, path: seq<string>)
    requires |path| <= depth && InTree(program, path)
    ensures Ordered(program, Preorder(program, depth, path))
    decreases depth - |path|, 1, 0
  {
    if program(path).Open? && |path| < depth {
      var below := Below(program, depth, path, 0);
      BelowOrdered(program, depth, path, 0);
      forall p, q | p in [path] && q in below ensures Precedes(program, p, q) {
        BelowMembers(program, depth, path, 0, q);
      }
      OrderedAppend(program, [path], below);
    }
  }

  /** Whatever lies below an earlier choice precedes whatever lies below a later one. */
  lemma {:induction false} EarlierChoiceFirst(program: Program, depth: nat, path: seq<string>, i: nat, p: seq<string>, q: seq<string>)
    requires program(path).Open? && |path| < depth && i < |program(path).enabled| && InTree(program, path)
    requires p in Preorder(program, depth, path + [program(path).enabled[i]])
    requires q in Below(program, depth, path, i + 1)
    ensures Precedes(program, p, q)
  {
    hide InTree, Preorder, Below;
    var choices := program(path).enabled;
    Child(program, path, choices[i]);
    PreorderMembers(program, depth, path + [choices[i]], p);
    BelowMembers(program, depth, path, i + 1, q);
    var j :| i + 1 <= j < |choices| && path + [choices[j]] <= q;
    var k := |path|;
    assert p[..k] == path && q[..k] == path;
    assert p[k] == choices[i] && q[k] == choices[j];
  }

  lemma {:induction false} BelowOrdered(program: Program, depth: nat, path: seq<string>, i: nat)
    requires program(path).Open? && |path| < depth && i <= |program(path).enabled| && InTree(program, path)
    ensures Ordered(program, Below(program, depth, path, i))
    decreases depth - |path|, 0, |program(path).enabled| - i
  {
    hide InTree, Ordered, Precedes;
    if i < |program(path).enabled| {
      var child := path + [program(path).enabled[i]];
      var here, later := Preorder(program, depth, child), Below(program, depth, path, i + 1);
      Child(program, path, program(path).enabled[i]);
      PreorderOrdered(program, depth, child);
      BelowOrdered(program, depth, path, i + 1);
      forall p, q | p in here && q in later ensures Precedes(program, p, q) {
        EarlierChoiceFirst(program, depth, path, i, p, q);
      }
      OrderedAppend(program, here, later);
    } else {
      EmptyOrdered(program);
    }
  }

  lemma {:induction false} EmptyOrdered(program: Program)
    ensures Ordered(program, [])
  {
  }

  lemma {:induction false} PrecedesIsIrreflexive(program: Program, p: seq<string>)
    requires DistinctChoices(program)
    ensures !Precedes(program, p, p)
  {
  }

  /** The preorder of the whole tree: exactly the nodes within `depth`, each once, in order. */
  lemma {:induction false} PreorderOfTheTree(program: Program, depth: nat)
    requires DistinctChoices(program)
    ensures forall q :: q in Preorder(program, depth, []) <==> |q| <= depth && InTree(program, q)
    ensures Ordered(program, Preorder(program, depth, []))
    ensures forall a, b :: 0 <= a < b < |Preorder(program, depth, [])| ==>
              Preorder(program, depth, [])[a] != Preorder(program, depth, [])[b]
  {
    var all := Preorder(program, depth, []);
    forall q ensures q in all <==> |q| <= depth && InTree(program, q) {
      PreorderMembers(program, depth, [], q);
    }
    PreorderOrdered(program, depth, []);
    forall a, b | 0 <= a < b < |all| ensures all[a] != all[b] {
      assert Precedes(program, all[a], all[b]);
      PrecedesIsIrreflexive(program, all[a]);
    }
  }

  /** When no node at `depth` is open, nothing lies deeper. */
  lemma {:induction false} NothingDeeper(program: Program, depth: nat, q: seq<string>)
    requires forall p :: p in Preorder(program, depth, []) && |p| == depth ==> !program(p).Open?
    requires InTree(program, q)
    ensures |q| <= depth
  {
    if |q| > depth {
      var p := q[..depth];
      Ancestor(program, q, depth);
      PreorderMembers(program, depth, [], p);
    }
  }
}
