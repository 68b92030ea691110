/** The order in which a string-keyed map is traversed. */
module Sorting {

  /** Lexicographic order of byte strings. */
  predicate StringLess(s: string, t: string) {
    t != "" && (s == "" || s[0] < t[0] || (s[0] == t[0] && StringLess(s[1..], t[1..])))
  }

  lemma {:induction false} LessIsTotal(s: string, t: string)
    ensures s == t || StringLess(s, t) || StringLess(t, s)
  {
    if s != "" && t != "" && s[0] == t[0] {
      LessIsTotal(s[1..], t[1..]);
      if s[1..] == t[1..] { assert s == [s[0]] + s[1..] && t == [t[0]] + t[1..]; }
    }
  }

  lemma {:induction false} LessIsTransitive(s: string, t: string, u: string)
    requires StringLess(s, t) && StringLess(t, u)
    ensures StringLess(s, u)
  {
    if s != "" && s[0] == t[0] && t[0] == u[0] { LessIsTransitive(s[1..], t[1..], u[1..]); }
  }

  predicate InjectiveOn<T(==, !new)>(items: set<T>, key: T -> string) {
    forall a, b :: a in items && b in items && key(a) == key(b) ==> a == b
  }

  predicate Least<T(==, !new)>(items: set<T>, key: T -> string, m: T) {
    m in items && forall x :: x in items && x != m ==> StringLess(key(m), key(x))
  }

  lemma {:induction false} LeastExists<T(!new)>(items: set<T>, key: T -> string)
    requires items != {} && InjectiveOn(items, key)
    ensures exists m :: Least(items, key, m)
    decreases items
  {
    var x :| x in items;
    if items == {x} {
      assert Least(items, key, x);
    } else {
      var rest := items - {x};
      assert items == rest + {x};
      LeastExists(rest, key);
      var m :| Least(rest, key, m);
      LessIsTotal(key(x), key(m));
      if StringLess(key(m), key(x)) {
        assert Least(items, key, m);
      } else {
        forall y | y in items && y != x ensures StringLess(key(x), key(y)) {
          if y != m { LessIsTransitive(key(x), key(m), key(y)); }
        }
        assert Least(items, key, x);
      }
    }
  }

  lemma {:induction false} LessIsAsymmetric(s: string, t: string)
    requires StringLess(s, t)
    ensures !StringLess(t, s)
  {
    if s != "" && s[0] == t[0] { LessIsAsymmetric(s[1..], t[1..]); }
  }

  lemma {:induction false} LeastIsUnique<T(!new)>(items: set<T>, key: T -> string)
    ensures forall m, n :: Least(items, key, m) && Least(items, key, n) ==> m == n
  {
    forall m, n | Least(items, key, m) && Least(items, key, n) ensures m == n {
      if m != n { LessIsAsymmetric(key(m), key(n)); }
    }
  }

  /** The items in strictly ascending order of their keys. */
  function SortBy<T(==, !new)>(items: set<T>, key: T -> string): (r: seq<T>)
    requires InjectiveOn(items, key)
    ensures forall x :: x in items <==> x in r
    ensures forall i, j :: 0 <= i < j < |r| ==> StringLess(key(r[i]), key(r[j]))
    decreases items
  {
    if items == {} then []
    else
      LeastExists(items, key);
      LeastIsUnique(items, key);
      var m :| m in items && Least(items, key, m);
      [m] + SortBy(items - {m}, key)
  }

  /** Sorted lists are equal exactly when they hold the same items. */
  lemma {:induction false} SameItems<T(!new)>(a: set<T>, b: set<T>, key: T -> string)
    requires InjectiveOn(a, key) && InjectiveOn(b, key)
    ensures SortBy(a, key) == SortBy(b, key) <==> a == b
  {
    if SortBy(a, key) == SortBy(b, key) {
      assert forall x :: x in a <==> x in b;
    }
  }
}
