/** Counting arguments shared by the proofs. */
module Counting {

  ghost predicate Distinct<T>(s: seq<T>) {
    forall i, j :: 0 <= i < j < |s| ==> s[i] != s[j]
  }

  function Elements<T(==)>(s: seq<T>): set<T> { set x | x in s }

  lemma {:induction false} PigeonHole(s: seq<nat>, bound: nat)
    requires Distinct(s) && forall k :: 0 <= k < |s| ==> s[k] < bound
    ensures |s| <= bound
  {
    var members := set k | 0 <= k < |s| :: s[k];
    MembersCount(s, members);
    SubsetCount(members, Below(bound));
  }

  lemma {:induction false} MembersCount<T>(s: seq<T>, members: set<T>)
    requires Distinct(s) && members == set k | 0 <= k < |s| :: s[k]
    ensures |members| == |s|
  {
    if s != [] {
      var init := s[..|s| - 1];
      var fewer := set k | 0 <= k < |init| :: init[k];
      MembersCount(init, fewer);
      assert members == fewer + {s[|s| - 1]} by {
        forall x | x in members ensures x in fewer + {s[|s| - 1]} {
          var k :| 0 <= k < |s| && s[k] == x;
          if k < |init| { assert init[k] == x; }
        }
        forall x | x in fewer ensures x in members {
          var k :| 0 <= k < |init| && init[k] == x;
          assert s[k] == x;
        }
      }
    }
  }

  ghost function Below(bound: nat): (s: set<nat>)
    ensures (forall n :: n in s <==> 0 <= n < bound) && |s| == bound
  {
    if bound == 0 then {} else Below(bound - 1) + {bound - 1}
  }

  lemma {:induction false} SubsetCount<T>(a: set<T>, b: set<T>)
    requires a <= b
    ensures |a| <= |b|
  {
    if a != {} {
      var x :| x in a;
      SubsetCount(a - {x}, b - {x});
    }
  }
}
