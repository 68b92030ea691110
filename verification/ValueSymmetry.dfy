/** Set equality checks one inclusion and the length. It is symmetric, and agrees with the
    documented mutual membership, exactly on values whose sets hold no element twice. */
module ValueSymmetry {
  import opened Counting
  import opened Values

  /** No set inside `v` holds two equal elements. */
  ghost predicate DupFree(v: Value)
    decreases v
  {
    match v
    case Set(xs) =>
      (forall i :: 0 <= i < |xs| ==> DupFree(xs[i]))
      && forall i, j :: 0 <= i < |xs| && 0 <= j < |xs| && i != j ==> !ValueEq(xs[i], xs[j])
    case Seq(xs) => forall i :: 0 <= i < |xs| ==> DupFree(xs[i])
    case Tuple(xs) => forall i :: 0 <= i < |xs| ==> DupFree(xs[i])
    case Record(fs) => forall k :: k in fs ==> DupFree(fs[k])
    case Map(es) => forall i :: 0 <= i < |es| ==> DupFree(es[i].key) && DupFree(es[i].value)
    case Variant(_, x) => DupFree(x)
    case _ => true
  }

  // ----- duplicate-free values: symmetric ------------------------------------------

  /** Where each element of `xs` occurs in `ys`. */
  ghost function Places(xs: seq<Value>, ys: seq<Value>): (f: seq<nat>)
    requires forall i :: 0 <= i < |xs| ==> Occurs(xs[i], ys)
    ensures |f| == |xs| && forall i :: 0 <= i < |xs| ==> f[i] < |ys| && ValueEq(xs[i], ys[f[i]])
  {
    seq(|xs|, i requires 0 <= i < |xs| => Place(xs[i], ys))
  }

  ghost function Place(x: Value, ys: seq<Value>): (j: nat)
    requires Occurs(x, ys)
    ensures j < |ys| && ValueEq(x, ys[j])
  {
    var j :| 0 <= j < |ys| && ValueEq(x, ys[j]);
    j
  }

  /** An injection between lists of the same length reaches every place. */
  lemma {:induction false} Surjective(f: seq<nat>, j: nat)
    requires Distinct(f) && (forall i :: 0 <= i < |f| ==> f[i] < |f|) && j < |f|
    ensures j in f
  {
    if j !in f {
      PigeonHole(f + [j], |f|);
    }
  }

  lemma {:induction false} Symmetric(a: Value, b: Value)
    requires DupFree(a) && ValueEq(a, b)
    ensures ValueEq(b, a)
    decreases a, 1
  {
    match a
    case Set(xs) =>
      forall j | 0 <= j < |b.elems| ensures Occurs(b.elems[j], xs) {
        var i := Preimage(a, b, j);
        Symmetric(xs[i], b.elems[j]);
      }
    case Seq(xs) => forall i | 0 <= i < |xs| ensures ValueEq(b.elems[i], xs[i]) { Symmetric(xs[i], b.elems[i]); }
    case Tuple(xs) => forall i | 0 <= i < |xs| ensures ValueEq(b.elems[i], xs[i]) { Symmetric(xs[i], b.elems[i]); }
    case Record(fs) => forall k | k in fs ensures ValueEq(b.fields[k], fs[k]) { Symmetric(fs[k], b.fields[k]); }
    case Map(es) =>
      forall i | 0 <= i < |es| ensures ValueEq(b.entries[i].key, es[i].key) && ValueEq(b.entries[i].value, es[i].value) {
        Symmetric(es[i].key, b.entries[i].key);
        Symmetric(es[i].value, b.entries[i].value);
      }
    case Variant(_, x) => Symmetric(x, b.value);
    case _ =>
  }

  /** Every element of an equal set is hit by some element of a duplicate-free one. */
  lemma {:induction false} Preimage(a: Value, b: Value, j: nat) returns (i: nat)
    requires a.Set? && DupFree(a) && ValueEq(a, b) && j < |b.elems|
    ensures i < |a.elems| && ValueEq(a.elems[i], b.elems[j])
    decreases a, 0
  {
    var xs, ys := a.elems, b.elems;
    var f := Places(xs, ys);
    forall m, n | 0 <= m < n < |f| ensures f[m] != f[n] {
      if f[m] == f[n] {
        Symmetric(xs[n], ys[f[n]]);
        Transitive(xs[m], ys[f[m]], xs[n]);
      }
    }
    Surjective(f, j);
    i :| 0 <= i < |f| && f[i] == j;
  }

  // ----- the documented relation ------------------------------------------------------

  /** Structural, with sets compared by length and membership in both directions. */
  ghost predicate MutualEq(a: Value, b: Value)
    decreases a, 0
  {
    match a
    case Set(xs) =>
      b.Set? && |xs| == |b.elems|
      && (forall i :: 0 <= i < |xs| ==> OccursIn(xs[i], b.elems))
      && (forall j :: 0 <= j < |b.elems| ==> Contains(xs, b.elems[j]))
    case Seq(xs) => b.Seq? && |xs| == |b.elems| && forall i :: 0 <= i < |xs| ==> MutualEq(xs[i], b.elems[i])
    case Tuple(xs) => b.Tuple? && |xs| == |b.elems| && forall i :: 0 <= i < |xs| ==> MutualEq(xs[i], b.elems[i])
    case Record(fs) => b.Record? && fs.Keys == b.fields.Keys && forall k :: k in fs ==> MutualEq(fs[k], b.fields[k])
    case Map(es) =>
      b.Map? && |es| == |b.entries|
      && forall i :: 0 <= i < |es| ==> MutualEq(es[i].key, b.entries[i].key) && MutualEq(es[i].value, b.entries[i].value)
    case Variant(tag, v) => b.Variant? && tag == b.tag && MutualEq(v, b.value)
    case _ => a == b
  }

  ghost predicate OccursIn(x: Value, ys: seq<Value>)
    decreases x, 1
  {
    exists j :: 0 <= j < |ys| && MutualEq(x, ys[j])
  }

  ghost predicate Contains(xs: seq<Value>, y: Value)
    decreases xs, 1
  {
    exists i :: 0 <= i < |xs| && MutualEq(xs[i], y)
  }

  lemma {:induction false} MutualImpliesEqual(a: Value, b: Value)
    requires MutualEq(a, b)
    ensures ValueEq(a, b)
    decreases a
  {
    match a
    case Set(xs) =>
      forall i | 0 <= i < |xs| ensures Occurs(xs[i], b.elems) {
        assert OccursIn(xs[i], b.elems);
        var j :| 0 <= j < |b.elems| && MutualEq(xs[i], b.elems[j]);
        MutualImpliesEqual(xs[i], b.elems[j]);
      }
    case Seq(xs) => forall i | 0 <= i < |xs| ensures ValueEq(xs[i], b.elems[i]) { MutualImpliesEqual(xs[i], b.elems[i]); }
    case Tuple(xs) => forall i | 0 <= i < |xs| ensures ValueEq(xs[i], b.elems[i]) { MutualImpliesEqual(xs[i], b.elems[i]); }
    case Record(fs) => forall k | k in fs ensures ValueEq(fs[k], b.fields[k]) { MutualImpliesEqual(fs[k], b.fields[k]); }
    case Map(es) =>
      forall i | 0 <= i < |es| ensures ValueEq(es[i].key, b.entries[i].key) && ValueEq(es[i].value, b.entries[i].value) {
        MutualImpliesEqual(es[i].key, b.entries[i].key);
        MutualImpliesEqual(es[i].value, b.entries[i].value);
      }
    case Variant(_, x) => MutualImpliesEqual(x, b.value);
    case _ =>
  }

  lemma {:induction false} EqualImpliesMutual(a: Value, b: Value)
    requires DupFree(a) && ValueEq(a, b)
    ensures MutualEq(a, b)
    decreases a
  {
    match a
    case Set(xs) =>
      forall i | 0 <= i < |xs| ensures OccursIn(xs[i], b.elems) {
        assert Occurs(xs[i], b.elems);
        var j :| 0 <= j < |b.elems| && ValueEq(xs[i], b.elems[j]);
        EqualImpliesMutual(xs[i], b.elems[j]);
      }
      forall j | 0 <= j < |b.elems| ensures Contains(xs, b.elems[j]) {
        var i := Preimage(a, b, j);
        EqualImpliesMutual(xs[i], b.elems[j]);
      }
    case Seq(xs) => forall i | 0 <= i < |xs| ensures MutualEq(xs[i], b.elems[i]) { EqualImpliesMutual(xs[i], b.elems[i]); }
    case Tuple(xs) => forall i | 0 <= i < |xs| ensures MutualEq(xs[i], b.elems[i]) { EqualImpliesMutual(xs[i], b.elems[i]); }
    case Record(fs) => forall k | k in fs ensures MutualEq(fs[k], b.fields[k]) { EqualImpliesMutual(fs[k], b.fields[k]); }
    case Map(es) =>
      forall i | 0 <= i < |es| ensures MutualEq(es[i].key, b.entries[i].key) && MutualEq(es[i].value, b.entries[i].value) {
        EqualImpliesMutual(es[i].key, b.entries[i].key);
        EqualImpliesMutual(es[i].value, b.entries[i].value);
      }
    case Variant(_, x) => EqualImpliesMutual(x, b.value);
    case _ =>
  }

  lemma {:induction false} MutualIsSymmetric(a: Value, b: Value)
    requires MutualEq(a, b)
    ensures MutualEq(b, a)
    decreases a, 1
  {
    match a
    case Set(xs) => MutualSets(a, b);
    case Seq(xs) => forall i | 0 <= i < |xs| ensures MutualEq(b.elems[i], xs[i]) { MutualIsSymmetric(xs[i], b.elems[i]); }
    case Tuple(xs) => forall i | 0 <= i < |xs| ensures MutualEq(b.elems[i], xs[i]) { MutualIsSymmetric(xs[i], b.elems[i]); }
    case Record(fs) => forall k | k in fs ensures MutualEq(b.fields[k], fs[k]) { MutualIsSymmetric(fs[k], b.fields[k]); }
    case Map(es) =>
      forall i | 0 <= i < |es| ensures MutualEq(b.entries[i].key, es[i].key) && MutualEq(b.entries[i].value, es[i].value) {
        MutualIsSymmetric(es[i].key, b.entries[i].key);
        MutualIsSymmetric(es[i].value, b.entries[i].value);
      }
    case Variant(_, x) => MutualIsSymmetric(x, b.value);
    case _ =>
  }

  lemma {:induction false} MutualSets(a: Value, b: Value)
    requires a.Set? && MutualEq(a, b)
    ensures MutualEq(b, a)
    decreases a, 0
  {
    var xs, ys := a.elems, b.elems;
    forall j | 0 <= j < |ys| ensures OccursIn(ys[j], xs) {
      assert Contains(xs, ys[j]);
      var i :| 0 <= i < |xs| && MutualEq(xs[i], ys[j]);
      MutualIsSymmetric(xs[i], ys[j]);
    }
    forall i | 0 <= i < |xs| ensures Contains(ys, xs[i]) {
      assert OccursIn(xs[i], ys);
      var j :| 0 <= j < |ys| && MutualEq(xs[i], ys[j]);
      MutualIsSymmetric(xs[i], ys[j]);
    }
  }

  // ----- values with a duplicate: not symmetric -----------------------------------------

  /** The strings that occur as string values inside `v`. */
  ghost function Strings(v: Value): set<string>
    decreases v
  {
    match v
    case Str(s) => {s}
    case Set(xs) => set i, s | 0 <= i < |xs| && s in Strings(xs[i]) :: s
    case Seq(xs) => set i, s | 0 <= i < |xs| && s in Strings(xs[i]) :: s
    case Tuple(xs) => set i, s | 0 <= i < |xs| && s in Strings(xs[i]) :: s
    case Record(fs) => set k, s | k in fs && s in Strings(fs[k]) :: s
    case Map(es) =>
      (set i, s | 0 <= i < |es| && s in Strings(es[i].key) :: s) + (set i, s | 0 <= i < |es| && s in Strings(es[i].value) :: s)
    case Variant(_, x) => Strings(x)
    case _ => {}
  }

  /** Equality never loses a string value on the way from left to right. */
  lemma {:induction false} StringsSurvive(a: Value, b: Value)
    requires ValueEq(a, b)
    ensures Strings(a) <= Strings(b)
    decreases a
  {
    match a
    case Set(xs) =>
      forall i, s | 0 <= i < |xs| && s in Strings(xs[i]) ensures s in Strings(b) {
        assert Occurs(xs[i], b.elems);
        var j :| 0 <= j < |b.elems| && ValueEq(xs[i], b.elems[j]);
        StringsSurvive(xs[i], b.elems[j]);
      }
    case Seq(xs) => forall i, s | 0 <= i < |xs| && s in Strings(xs[i]) ensures s in Strings(b) { StringsSurvive(xs[i], b.elems[i]); }
    case Tuple(xs) => forall i, s | 0 <= i < |xs| && s in Strings(xs[i]) ensures s in Strings(b) { StringsSurvive(xs[i], b.elems[i]); }
    case Record(fs) => forall k, s | k in fs && s in Strings(fs[k]) ensures s in Strings(b) { StringsSurvive(fs[k], b.fields[k]); }
    case Map(es) =>
      forall i, s | 0 <= i < |es| && s in Strings(es[i].key) ensures s in Strings(b) { StringsSurvive(es[i].key, b.entries[i].key); }
      forall i, s | 0 <= i < |es| && s in Strings(es[i].value) ensures s in Strings(b) { StringsSurvive(es[i].value, b.entries[i].value); }
    case Variant(_, x) => StringsSurvive(x, b.value);
    case _ =>
  }

  /** Replacing one element of a list by an equal one gives an equal list. */
  lemma {:induction false} ReplaceOne(xs: seq<Value>, k: nat, y: Value)
    requires k < |xs| && ValueEq(xs[k], y)
    ensures forall i :: 0 <= i < |xs| ==> ValueEq(xs[i], xs[k := y][i])
  {
    forall i | 0 <= i < |xs| ensures ValueEq(xs[i], xs[k := y][i]) {
      if i != k { Reflexive(xs[i]); }
    }
  }

  lemma {:induction false} ReplaceInSet(xs: seq<Value>, k: nat, y: Value)
    requires k < |xs| && (ValueEq(xs[k], y) || exists j :: 0 <= j < |xs| && j != k && ValueEq(xs[k], xs[j]))
    ensures ValueEq(Set(xs), Set(xs[k := y]))
  {
    var ys := xs[k := y];
    forall i | 0 <= i < |xs| ensures Occurs(xs[i], ys) {
      if i != k {
        Reflexive(xs[i]);
        assert ys[i] == xs[i];
      } else if ValueEq(xs[k], y) {
        assert ys[k] == y;
      } else {
        var j :| 0 <= j < |xs| && j != k && ValueEq(xs[k], xs[j]);
        assert ys[j] == xs[j];
      }
    }
  }

  /** A value with a duplicate is equal to one that holds a string it does not hold itself:
      the second copy can be overwritten without the comparison noticing. */
  lemma {:induction false} Spoil(a: Value, novel: string) returns (b: Value)
    requires !DupFree(a)
    ensures ValueEq(a, b) && novel in Strings(b)
    decreases a, 1
  {
    match a
    case Set(_) => b := SpoilSet(a, novel);
    case Seq(_) => b := SpoilList(a, novel);
    case Tuple(_) => b := SpoilList(a, novel);
    case Record(_) => b := SpoilRecord(a, novel);
    case Map(_) => b := SpoilEntry(a, novel);
    case Variant(tag, x) =>
      var y := Spoil(x, novel);
      b := Variant(tag, y);
  }

  lemma {:induction false} SpoilSet(a: Value, novel: string) returns (b: Value)
    requires a.Set? && !DupFree(a)
    ensures ValueEq(a, b) && novel in Strings(b)
    decreases a, 0
  {
    var xs := a.elems;
    if k :| 0 <= k < |xs| && !DupFree(xs[k]) {
      var y := Spoil(xs[k], novel);
      hide ValueEq, DupFree;
      ReplaceInSet(xs, k, y);
      b := Set(xs[k := y]);
      assert b.elems[k] == y;
    } else {
      var i, j :| 0 <= i < |xs| && 0 <= j < |xs| && i != j && ValueEq(xs[i], xs[j]);
      hide ValueEq, DupFree;
      ReplaceInSet(xs, i, Str(novel));
      b := Set(xs[i := Str(novel)]);
      assert b.elems[i] == Str(novel) && novel in Strings(b.elems[i]);
    }
  }

  lemma {:induction false} SpoilList(a: Value, novel: string) returns (b: Value)
    requires (a.Seq? || a.Tuple?) && !DupFree(a)
    ensures ValueEq(a, b) && novel in Strings(b)
    decreases a, 0
  {
    var xs := a.elems;
    var k :| 0 <= k < |xs| && !DupFree(xs[k]);
    var y := Spoil(xs[k], novel);
    ReplaceOne(xs, k, y);
    b := if a.Seq? then Seq(xs[k := y]) else Tuple(xs[k := y]);
    assert b.elems[k] == y;
  }

  lemma {:induction false} SpoilRecord(a: Value, novel: string) returns (b: Value)
    requires a.Record? && !DupFree(a)
    ensures ValueEq(a, b) && novel in Strings(b)
    decreases a, 0
  {
    var fs := a.fields;
    var k :| k in fs && !DupFree(fs[k]);
    var y := Spoil(fs[k], novel);
    b := Record(fs[k := y]);
    forall m | m in fs ensures ValueEq(fs[m], b.fields[m]) { Reflexive(fs[m]); }
    assert b.fields[k] == y;
  }

  lemma {:induction false} SpoilEntry(a: Value, novel: string) returns (b: Value)
    requires a.Map? && !DupFree(a)
    ensures ValueEq(a, b) && novel in Strings(b)
    decreases a, 0
  {
    var es := a.entries;
    var k :| 0 <= k < |es| && !(DupFree(es[k].key) && DupFree(es[k].value));
    var e := es[k];
    Reflexive(e.key);
    Reflexive(e.value);
    if !DupFree(e.key) {
      var y := Spoil(e.key, novel);
      e := e.(key := y);
    } else {
      var y := Spoil(e.value, novel);
      e := e.(value := y);
    }
    b := Map(es[k := e]);
    forall i | 0 <= i < |es| ensures ValueEq(es[i].key, b.entries[i].key) && ValueEq(es[i].value, b.entries[i].value) {
      Reflexive(es[i].key);
      Reflexive(es[i].value);
    }
    assert b.entries[k] == e;
  }

  /** Some string is in none of finitely many. */
  lemma {:induction false} NovelString(used: set<string>) returns (novel: string, bound: nat)
    ensures novel !in used && |novel| == bound && forall s :: s in used ==> |s| < bound
    decreases used
  {
    if used == {} {
      novel, bound := "", 0;
    } else {
      var s :| s in used;
      var _, b := NovelString(used - {s});
      bound := if |s| < b then b else |s| + 1;
      novel := seq(bound, _ => 'x');
      forall t | t in used ensures |t| < bound { if t != s { assert t in used - {s}; } }
    }
  }

  // ----- the exact domain -------------------------------------------------------------------

  /** Equality from `a` is symmetric for every partner exactly when no set inside `a` holds
      an element twice. */
  lemma {:induction false} SymmetricExactlyWhenDupFree(a: Value)
    ensures (forall b :: ValueEq(a, b) ==> ValueEq(b, a)) <==> DupFree(a)
  {
    hide ValueEq, DupFree, Strings;
    if DupFree(a) {
      forall b | ValueEq(a, b) ensures ValueEq(b, a) { Symmetric(a, b); }
    } else {
      var novel, _ := NovelString(Strings(a));
      var b := Spoil(a, novel);
      if ValueEq(b, a) { StringsSurvive(b, a); }
      assert ValueEq(a, b) && !ValueEq(b, a);
    }
  }

  lemma {:induction false} EqualIsMutual(a: Value, b: Value)
    requires DupFree(a)
    ensures ValueEq(a, b) <==> MutualEq(a, b)
  {
    hide ValueEq, MutualEq;
    if ValueEq(a, b) { EqualImpliesMutual(a, b); }
    if MutualEq(a, b) { MutualImpliesEqual(a, b); }
  }

  /** Equality from `a` is the documented mutual membership for every partner exactly when no set
      inside `a` holds an element twice. */
  lemma {:induction false} MutualExactlyWhenDupFree(a: Value)
    ensures (forall b :: ValueEq(a, b) <==> MutualEq(a, b)) <==> DupFree(a)
  {
    hide ValueEq, MutualEq, DupFree;
    if DupFree(a) {
      forall b ensures ValueEq(a, b) <==> MutualEq(a, b) { EqualIsMutual(a, b); }
    } else {
      SymmetricExactlyWhenDupFree(a);
      var b :| ValueEq(a, b) && !ValueEq(b, a);
      if MutualEq(a, b) {
        MutualIsSymmetric(a, b);
        MutualImpliesEqual(b, a);
      }
      assert !(ValueEq(a, b) <==> MutualEq(a, b));
    }
  }

  /** The smallest case: `{1, 1}` equals `{1, 2}`, but not the other way round. */
  lemma {:induction false} OneWayEquality()
    ensures ValueEq(Set([Int(1), Int(1)]), Set([Int(1), Int(2)]))
    ensures !ValueEq(Set([Int(1), Int(2)]), Set([Int(1), Int(1)]))
  {
    var xs, ys := [Int(1), Int(1)], [Int(1), Int(2)];
    assert ValueEq(xs[0], ys[0]) && ValueEq(xs[1], ys[0]);
    assert Occurs(xs[0], ys) && Occurs(xs[1], ys);
    assert !ValueEq(ys[1], xs[0]) && !ValueEq(ys[1], xs[1]);
    assert !Occurs(ys[1], xs);
  }
}
