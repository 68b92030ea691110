/** TLA+/ITF values and their equality as the library decides it. */
module Values {

  datatype Entry = Entry(key: Value, value: Value)

  datatype Value =
    | Null
    | Int(i: int)
    | Bool(b: bool)
    | Str(text: string)
    | Set(elems: seq<Value>)
    | Seq(elems: seq<Value>)
    | Tuple(elems: seq<Value>)
    | Record(fields: map<string, Value>)
    | Map(entries: seq<Entry>)
    | Variant(tag: string, value: Value)
    | Unserializable(text: string)

  /** A state maps variable names to values. */
  type VarState = map<string, Value>

  // ----- equality ----------------------------------------------------------------

  /** Structural, except that a set equals another of the same length when each of its
      own elements occurs in the other one. */
  predicate ValueEq(a: Value, b: Value)
    decreases a, 0
  {
    match a
    case Set(xs) =>
      b.Set? && |xs| == |b.elems| && forall i :: 0 <= i < |xs| ==> Occurs(xs[i], b.elems)
    case Seq(xs) => b.Seq? && |xs| == |b.elems| && forall i :: 0 <= i < |xs| ==> ValueEq(xs[i], b.elems[i])
    case Tuple(xs) => b.Tuple? && |xs| == |b.elems| && forall i :: 0 <= i < |xs| ==> ValueEq(xs[i], b.elems[i])
    case Record(fs) => b.Record? && fs.Keys == b.fields.Keys && forall k :: k in fs ==> ValueEq(fs[k], b.fields[k])
    case Map(es) =>
      b.Map? && |es| == |b.entries|
      && forall i :: 0 <= i < |es| ==> ValueEq(es[i].key, b.entries[i].key) && ValueEq(es[i].value, b.entries[i].value)
    case Variant(tag, v) => b.Variant? && tag == b.tag && ValueEq(v, b.value)
    case _ => a == b
  }

  predicate Occurs(x: Value, ys: seq<Value>)
    decreases x, 1
  {
    exists j :: 0 <= j < |ys| && ValueEq(x, ys[j])
  }

  /** The comparison as it runs: nested loops with a `found` flag for sets. */
  method Equal(a: Value, b: Value) returns (same: bool)
    ensures same == ValueEq(a, b)
    decreases a
  {
    match a {
      case Set(xs) =>
        if !b.Set? || |xs| != |b.elems| { return false; }
        for i := 0 to |xs|
          invariant forall k :: 0 <= k < i ==> Occurs(xs[k], b.elems)
        {
          var found := Find(a, xs[i], b.elems);
          if !found { return false; }
        }
        return true;
      case Seq(xs) =>
        if !b.Seq? { return false; }
        same := EqualLists(a, xs, b.elems);
      case Tuple(xs) =>
        if !b.Tuple? { return false; }
        same := EqualLists(a, xs, b.elems);
      case Record(fs) =>
        if !b.Record? || fs.Keys != b.fields.Keys { return false; }
        var todo := fs.Keys;
        while todo != {}
          invariant todo <= fs.Keys && forall k :: k in fs && k !in todo ==> ValueEq(fs[k], b.fields[k])
          decreases |todo|
        {
          var k :| k in todo;
          var equal := Equal(fs[k], b.fields[k]);
          if !equal { return false; }
          todo := todo - {k};
        }
        return true;
      case Map(es) =>
        if !b.Map? || |es| != |b.entries| { return false; }
        for i := 0 to |es|
          invariant forall k :: 0 <= k < i ==>
                      ValueEq(es[k].key, b.entries[k].key) && ValueEq(es[k].value, b.entries[k].value)
        {
          var equal := Equal(es[i].key, b.entries[i].key);
          if !equal { return false; }
          equal := Equal(es[i].value, b.entries[i].value);
          if !equal { return false; }
        }
        return true;
      case Variant(tag, v) =>
        if !b.Variant? || tag != b.tag { return false; }
        same := Equal(v, b.value);
      case _ => return a == b;
    }
  }

  /** The inner loop of set comparison. */
  method Find(ghost whole: Value, x: Value, ys: seq<Value>) returns (found: bool)
    requires x < whole
    ensures found == Occurs(x, ys)
    decreases whole, 0
  {
    found := false;
    var j := 0;
    while j < |ys| && !found
      invariant 0 <= j <= |ys|
      invariant found ==> Occurs(x, ys)
      invariant !found ==> forall m :: 0 <= m < j ==> !ValueEq(x, ys[m])
      decreases |ys| - j
    {
      found := Equal(x, ys[j]);
      j := j + 1;
    }
  }

  method EqualLists(ghost whole: Value, xs: seq<Value>, ys: seq<Value>) returns (same: bool)
    requires forall i :: 0 <= i < |xs| ==> xs[i] < whole
    ensures same <==> |xs| == |ys| && forall i :: 0 <= i < |xs| ==> ValueEq(xs[i], ys[i])
    decreases whole, 0
  {
    if |xs| != |ys| { return false; }
    for i := 0 to |xs|
      invariant forall k :: 0 <= k < i ==> ValueEq(xs[k], ys[k])
    {
      var equal := Equal(xs[i], ys[i]);
      if !equal { return false; }
    }
    return true;
  }

  /** Equality is reflexive on all values. */
  lemma {:induction false} Reflexive(v: Value)
    ensures ValueEq(v, v)
    decreases v
  {
    match v
    case Set(xs) => forall i | 0 <= i < |xs| ensures Occurs(xs[i], xs) { Reflexive(xs[i]); }
    case Seq(xs) => forall i | 0 <= i < |xs| ensures ValueEq(xs[i], xs[i]) { Reflexive(xs[i]); }
    case Tuple(xs) => forall i | 0 <= i < |xs| ensures ValueEq(xs[i], xs[i]) { Reflexive(xs[i]); }
    case Record(fs) => forall k | k in fs ensures ValueEq(fs[k], fs[k]) { Reflexive(fs[k]); }
    case Map(es) =>
      forall i | 0 <= i < |es| ensures ValueEq(es[i].key, es[i].key) && ValueEq(es[i].value, es[i].value) {
        Reflexive(es[i].key);
        Reflexive(es[i].value);
      }
    case Variant(_, x) => Reflexive(x);
    case _ =>
  }

  /** Equality is transitive on all values. */
  lemma {:induction false} Transitive(a: Value, b: Value, c: Value)
    requires ValueEq(a, b) && ValueEq(b, c)
    ensures ValueEq(a, c)
    decreases a
  {
    match a
    case Set(xs) =>
      forall i | 0 <= i < |xs| ensures Occurs(xs[i], c.elems) {
        assert Occurs(xs[i], b.elems);
        var j :| 0 <= j < |b.elems| && ValueEq(xs[i], b.elems[j]);
        assert Occurs(b.elems[j], c.elems);
        var k :| 0 <= k < |c.elems| && ValueEq(b.elems[j], c.elems[k]);
        Transitive(xs[i], b.elems[j], c.elems[k]);
      }
    case Seq(xs) => forall i | 0 <= i < |xs| ensures ValueEq(xs[i], c.elems[i]) { Transitive(xs[i], b.elems[i], c.elems[i]); }
    case Tuple(xs) => forall i | 0 <= i < |xs| ensures ValueEq(xs[i], c.elems[i]) { Transitive(xs[i], b.elems[i], c.elems[i]); }
    case Record(fs) => forall k | k in fs ensures ValueEq(fs[k], c.fields[k]) { Transitive(fs[k], b.fields[k], c.fields[k]); }
    case Map(es) =>
      forall i | 0 <= i < |es|
        ensures ValueEq(es[i].key, c.entries[i].key) && ValueEq(es[i].value, c.entries[i].value)
      {
        Transitive(es[i].key, b.entries[i].key, c.entries[i].key);
        Transitive(es[i].value, b.entries[i].value, c.entries[i].value);
      }
    case Variant(_, x) => Transitive(x, b.value, c.value);
    case _ =>
  }
}
