/** The canonical form of observed states: a type-tagged tree, and its text. */
module Canonical {
  import opened Decimals
  import opened JsonText
  import opened Sorting
  import opened Values
  import opened Counting
  import opened Utf8
  import opened Reports

  function Same(s: string): string { s }

  function Tagged(tag: string, x: Tree): Tree { TArray([TString(tag), x]) }

  /** A map is canonical only with distinct keys that are all strings that serialize or all integers. */
  predicate KeysSupported(es: seq<Entry>) {
    && ((forall i :: 0 <= i < |es| ==> es[i].key.Str? && ValidText(es[i].key.text)) || (forall i :: 0 <= i < |es| ==> es[i].key.Int?))
    && (forall i, j :: 0 <= i < j < |es| ==> es[i].key != es[j].key)
  }

  /** What has a canonical tree. The elements of a set are sorted by their texts, so they must have one. */
  predicate Supported(v: Value)
    decreases v
  {
    match v
    case Set(xs) => forall i :: 0 <= i < |xs| ==> Supported(xs[i]) && TextsValid(xs[i])
    case Seq(xs) => forall i :: 0 <= i < |xs| ==> Supported(xs[i])
    case Tuple(xs) => forall i :: 0 <= i < |xs| ==> Supported(xs[i])
    case Record(fs) => forall k :: k in fs ==> Supported(fs[k])
    case Map(es) => KeysSupported(es) && forall i :: 0 <= i < |es| ==> Supported(es[i].value)
    case Variant(_, x) => Supported(x)
    case _ => true
  }

  // ----- collecting elements -----------------------------------------------------------------

  ghost predicate Covered<T(!new)>(s: seq<T>, t: seq<T>) {
    forall i :: 0 <= i < |s| ==> s[i] in t
  }

  lemma {:induction false} SameElements<T(!new)>(s: seq<T>, t: seq<T>)
    ensures Elements(s) == Elements(t) <==> Covered(s, t) && Covered(t, s)
  {
    if Elements(s) == Elements(t) {
      forall i | 0 <= i < |s| ensures s[i] in t { assert s[i] in Elements(s); }
      forall j | 0 <= j < |t| ensures t[j] in s { assert t[j] in Elements(t); }
    }
  }

  // ----- the canonical tree --------------------------------------------------------------

  /** A key's own tree; only strings and integers are keys. */
  function KeyTree(key: Value): Tree
    requires key.Str? || key.Int?
  {
    if key.Str? then Tagged("string", TString(key.text)) else Tagged("integer", TString(IntText(key.i)))
  }

  /** What a map row is sorted by: the text of its key. */
  function RowKey(row: Tree): string {
    if row.TArray? && row.items != [] then Dump(row.items[0]) else ""
  }

  lemma {:induction false} DumpInjectiveOn(trees: set<Tree>)
    ensures InjectiveOn(trees, Dump)
  {
    hide Dump;
    forall a, b | a in trees && b in trees && Dump(a) == Dump(b) ensures a == b { DumpInjective(a, b); }
  }

  lemma {:induction false} KeyTreeInjective(k: Value, l: Value)
    requires (k.Str? || k.Int?) && (l.Str? || l.Int?) && KeyTree(k) == KeyTree(l)
    ensures k == l
  {
    hide IntText;
    if k.Int? && l.Int? { IntTextInjective(k.i, l.i); }
  }

  ghost function TreeList(xs: seq<Value>): (ts: seq<Tree>)
    requires forall i :: 0 <= i < |xs| ==> Supported(xs[i])
    ensures |ts| == |xs| && forall i :: 0 <= i < |xs| ==> ts[i] == Canon(xs[i])
    decreases xs, 1
  {
    seq(|xs|, i requires 0 <= i < |xs| => Canon(xs[i]))
  }

  ghost function Row(e: Entry): Tree
    requires (e.key.Str? || e.key.Int?) && Supported(e.value)
    decreases e, 1
  {
    TArray([KeyTree(e.key), Canon(e.value)])
  }

  ghost function RowList(es: seq<Entry>): (rows: seq<Tree>)
    requires KeysSupported(es) && forall i :: 0 <= i < |es| ==> Supported(es[i].value)
    ensures |rows| == |es| && forall i :: 0 <= i < |es| ==> rows[i] == Row(es[i])
    decreases es, 2
  {
    seq(|es|, i requires 0 <= i < |es| => Row(es[i]))
  }

  lemma {:induction false} KeysAre(es: seq<Entry>)
    requires KeysSupported(es)
    ensures forall i :: 0 <= i < |es| ==> es[i].key.Str? || es[i].key.Int?
    ensures forall i, j :: 0 <= i < |es| && 0 <= j < |es| && es[i].key == es[j].key ==> i == j
  {
    hide ValidText;
  }

  lemma {:induction false} RowKeysInjective(es: seq<Entry>)
    requires KeysSupported(es) && forall i :: 0 <= i < |es| ==> Supported(es[i].value)
    ensures InjectiveOn(Elements(RowList(es)), RowKey)
    decreases es, 3
  {
    KeysAre(es);
    hide Dump, Canon, RowList, KeysSupported, Supported;
    var rows := RowList(es);
    forall a, b | a in Elements(rows) && b in Elements(rows) && RowKey(a) == RowKey(b) ensures a == b {
      var i :| 0 <= i < |es| && a == rows[i];
      var j :| 0 <= j < |es| && b == rows[j];
      DumpInjective(a.items[0], b.items[0]);
      KeyTreeInjective(es[i].key, es[j].key);
    }
  }

  ghost function FieldRows(fs: map<string, Value>): (rows: seq<Tree>)
    requires forall k :: k in fs ==> Supported(fs[k])
    ensures |rows| == |SortBy(fs.Keys, Same)|
    decreases Record(fs), 1
  {
    var keys := SortBy(fs.Keys, Same);
    seq(|keys|, i requires 0 <= i < |keys| => assert keys[i] in keys; TArray([TString(keys[i]), Canon(fs[keys[i]])]))
  }

  /** The canonical tree: sets sorted and without repetition, maps sorted by key, records in
      key order, sequences and tuples as they are, every kind with its own tag. */
  ghost function Canon(v: Value): Tree
    requires Supported(v)
    decreases v, 3
  {
    match v
    case Null => TArray([TString("null")])
    case Int(i) => Tagged("integer", TString(IntText(i)))
    case Bool(b) => Tagged("boolean", TBool(b))
    case Str(s) => Tagged("string", TString(s))
    case Unserializable(s) => Tagged("unserializable", TString(s))
    case Variant(tag, x) => TArray([TString("variant"), TString(tag), Canon(x)])
    case Record(fs) => Tagged("record", TArray(FieldRows(fs)))
    case Map(es) => RowKeysInjective(es); Tagged("map", TArray(SortBy(Elements(RowList(es)), RowKey)))
    case Set(xs) => DumpInjectiveOn(Elements(TreeList(xs))); Tagged("set", TArray(SortBy(Elements(TreeList(xs)), Dump)))
    case Seq(xs) => Tagged("sequence", TArray(TreeList(xs)))
    case Tuple(xs) => Tagged("tuple", TArray(TreeList(xs)))
  }

  // ----- what two observations must share -----------------------------------------------------

  /** Semantic equality: sets as sets, maps as functions, everything else structurally. */
  ghost predicate SemEq(a: Value, b: Value)
    decreases a, 0
  {
    match a
    case Set(xs) =>
      b.Set? && (forall i :: 0 <= i < |xs| ==> MemberOf(xs[i], b.elems)) && (forall j :: 0 <= j < |b.elems| ==> HasMember(xs, b.elems[j]))
    case Map(es) =>
      b.Map? && (forall i :: 0 <= i < |es| ==> MapsAs(es[i], b.entries)) && (forall j :: 0 <= j < |b.entries| ==> HasEntry(es, b.entries[j]))
    case Seq(xs) => b.Seq? && |xs| == |b.elems| && forall i :: 0 <= i < |xs| ==> SemEq(xs[i], b.elems[i])
    case Tuple(xs) => b.Tuple? && |xs| == |b.elems| && forall i :: 0 <= i < |xs| ==> SemEq(xs[i], b.elems[i])
    case Record(fs) => b.Record? && fs.Keys == b.fields.Keys && forall k :: k in fs ==> SemEq(fs[k], b.fields[k])
    case Variant(tag, x) => b.Variant? && tag == b.tag && SemEq(x, b.value)
    case _ => a == b
  }

  ghost predicate MemberOf(x: Value, ys: seq<Value>)
    decreases x, 1
  {
    exists j :: 0 <= j < |ys| && SemEq(x, ys[j])
  }

  ghost predicate HasMember(xs: seq<Value>, y: Value)
    decreases xs, 1
  {
    exists i :: 0 <= i < |xs| && SemEq(xs[i], y)
  }

  /** Some entry of `es` has the same key and a semantically equal value. */
  ghost predicate MapsAs(e: Entry, es: seq<Entry>)
    decreases e, 2
  {
    exists j :: 0 <= j < |es| && e.key == es[j].key && EntryValueEq(e, es[j])
  }

  ghost predicate HasEntry(es: seq<Entry>, e: Entry)
    decreases es, 2
  {
    exists i :: 0 <= i < |es| && es[i].key == e.key && EntryValueEq(es[i], e)
  }

  ghost predicate EntryValueEq(d: Entry, e: Entry)
    decreases d, 1
  {
    SemEq(d.value, e.value)
  }

  // ----- equal forms, kind by kind ---------------------------------------------------------------

  function TagOf(v: Value): string {
    match v
    case Null => "null"
    case Int(_) => "integer"
    case Bool(_) => "boolean"
    case Str(_) => "string"
    case Unserializable(_) => "unserializable"
    case Variant(_, _) => "variant"
    case Record(_) => "record"
    case Map(_) => "map"
    case Set(_) => "set"
    case Seq(_) => "sequence"
    case Tuple(_) => "tuple"
  }

  /** The third letter tells the tags apart, but for two pairs of different length. */
  lemma {:induction false} TagsApart(a: Value, b: Value)
    requires TagOf(a) == TagOf(b)
    ensures a.Null? == b.Null? && a.Int? == b.Int? && a.Bool? == b.Bool? && a.Str? == b.Str?
    ensures a.Unserializable? == b.Unserializable? && a.Variant? == b.Variant? && a.Record? == b.Record?
    ensures a.Map? == b.Map? && a.Set? == b.Set? && a.Seq? == b.Seq? && a.Tuple? == b.Tuple?
  {
    assert |TagOf(a)| == |TagOf(b)| && TagOf(a)[2] == TagOf(b)[2] && TagOf(a)[0] == TagOf(b)[0];
  }

  lemma {:induction false} CanonTag(v: Value)
    requires Supported(v)
    ensures Canon(v).TArray? && Canon(v).items != [] && Canon(v).items[0] == TString(TagOf(v))
  {
    hide Supported, SortBy, FieldRows, TreeList, RowList, IntText;
  }

  lemma {:induction false} SameKind(a: Value, b: Value)
    requires Supported(a) && Supported(b) && Canon(a) == Canon(b)
    ensures TagOf(a) == TagOf(b)
  {
    hide Supported, Canon, TagOf;
    CanonTag(a);
    CanonTag(b);
  }

  lemma {:induction false} TaggedPayload(tag: string, x: Tree, y: Tree)
    ensures Tagged(tag, x) == Tagged(tag, y) <==> x == y
  {
    assert Tagged(tag, x).items[1] == x && Tagged(tag, y).items[1] == y;
  }

  lemma {:induction false} SetForms(a: Value, b: Value)
    requires a.Set? && b.Set? && Supported(a) && Supported(b)
    ensures Canon(a) == Canon(b) <==> SemEq(a, b)
    decreases a, 1
  {
    var p, q := TreeList(a.elems), TreeList(b.elems);
    DumpInjectiveOn(Elements(p));
    DumpInjectiveOn(Elements(q));
    TaggedPayload("set", TArray(SortBy(Elements(p), Dump)), TArray(SortBy(Elements(q), Dump)));
    SameItems(Elements(p), Elements(q), Dump);
    assert Canon(a) == Canon(b) <==> Elements(p) == Elements(q);
    hide Canon, Dump, Elements, TreeList, SemEq, Supported, Covered, AllIn, AllHit;
    SameElements(p, q);
    SetMembers(a, b);
    SetMeaning(a, b);
  }

  ghost predicate AllIn(xs: seq<Value>, ys: seq<Value>) {
    forall i :: 0 <= i < |xs| ==> MemberOf(xs[i], ys)
  }

  ghost predicate AllHit(xs: seq<Value>, ys: seq<Value>) {
    forall j :: 0 <= j < |ys| ==> HasMember(xs, ys[j])
  }

  lemma {:induction false} SetMeaning(a: Value, b: Value)
    requires a.Set? && b.Set?
    ensures SemEq(a, b) <==> AllIn(a.elems, b.elems) && AllHit(a.elems, b.elems)
  {
  }

  lemma {:induction false} SetMembers(a: Value, b: Value)
    requires a.Set? && b.Set? && Supported(a) && Supported(b)
    ensures Covered(TreeList(a.elems), TreeList(b.elems)) <==> AllIn(a.elems, b.elems)
    ensures Covered(TreeList(b.elems), TreeList(a.elems)) <==> AllHit(a.elems, b.elems)
    decreases a, 0, 1
  {
    var xs, ys := a.elems, b.elems;
    hide Canon, TreeList, MemberOf, HasMember, SemEq;
    forall i | 0 <= i < |xs| ensures TreeList(xs)[i] in TreeList(ys) <==> MemberOf(xs[i], ys) { InRight(a, b, i); }
    forall j | 0 <= j < |ys| ensures TreeList(ys)[j] in TreeList(xs) <==> HasMember(xs, ys[j]) { InLeft(a, b, j); }
  }

  lemma {:induction false} InRight(a: Value, b: Value, i: nat)
    requires a.Set? && b.Set? && Supported(a) && Supported(b) && i < |a.elems|
    ensures TreeList(a.elems)[i] in TreeList(b.elems) <==> MemberOf(a.elems[i], b.elems)
    decreases a, 0, 0
  {
    var x, ys := a.elems[i], b.elems;
    assert x < a;
    hide Canon, SemEq, TreeList;
    forall j | 0 <= j < |ys| ensures TreeList(ys)[j] == Canon(x) <==> SemEq(x, ys[j]) { CanonIff(x, ys[j]); }
  }

  lemma {:induction false} InLeft(a: Value, b: Value, j: nat)
    requires a.Set? && b.Set? && Supported(a) && Supported(b) && j < |b.elems|
    ensures TreeList(b.elems)[j] in TreeList(a.elems) <==> HasMember(a.elems, b.elems[j])
    decreases a, 0, 0
  {
    var xs, y := a.elems, b.elems[j];
    hide Canon, SemEq, TreeList;
    forall i | 0 <= i < |xs| ensures TreeList(xs)[i] == Canon(y) <==> SemEq(xs[i], y) { CanonIff(xs[i], y); }
  }

  lemma {:induction false} RowTrees(k: Tree, x: Tree, l: Tree, y: Tree)
    ensures TArray([k, x]) == TArray([l, y]) <==> k == l && x == y
  {
    assert [k, x][0] == k && [k, x][1] == x && [l, y][0] == l && [l, y][1] == y;
  }

  /** Two rows coincide exactly when key and value agree. */
  lemma {:induction false} RowsIff(a: Value, b: Value, i: nat, j: nat)
    requires a.Map? && b.Map? && Supported(a) && Supported(b) && i < |a.entries| && j < |b.entries|
    ensures Row(a.entries[i]) == Row(b.entries[j])
       <==> a.entries[i].key == b.entries[j].key && EntryValueEq(a.entries[i], b.entries[j])
    decreases a, 0, 0
  {
    var d, e := a.entries[i], b.entries[j];
    assert d.value < a;
    hide Canon;
    RowTrees(KeyTree(d.key), Canon(d.value), KeyTree(e.key), Canon(e.value));
    CanonIff(d.value, e.value);
    if KeyTree(d.key) == KeyTree(e.key) { KeyTreeInjective(d.key, e.key); }
  }

  ghost predicate AllMapped(es: seq<Entry>, fs: seq<Entry>) {
    forall i :: 0 <= i < |es| ==> MapsAs(es[i], fs)
  }

  ghost predicate AllEntered(es: seq<Entry>, fs: seq<Entry>) {
    forall j :: 0 <= j < |fs| ==> HasEntry(es, fs[j])
  }

  lemma {:induction false} MapMeaning(a: Value, b: Value)
    requires a.Map? && b.Map?
    ensures SemEq(a, b) <==> AllMapped(a.entries, b.entries) && AllEntered(a.entries, b.entries)
  {
  }

  lemma {:induction false} MapRows(a: Value, b: Value)
    requires a.Map? && b.Map? && Supported(a) && Supported(b)
    ensures Covered(RowList(a.entries), RowList(b.entries)) <==> AllMapped(a.entries, b.entries)
    ensures Covered(RowList(b.entries), RowList(a.entries)) <==> AllEntered(a.entries, b.entries)
    decreases a, 0, 2
  {
    var es, fs := a.entries, b.entries;
    hide RowList, Row, MapsAs, HasEntry, SemEq;
    forall i | 0 <= i < |es| ensures RowList(es)[i] in RowList(fs) <==> MapsAs(es[i], fs) { RowInRight(a, b, i); }
    forall j | 0 <= j < |fs| ensures RowList(fs)[j] in RowList(es) <==> HasEntry(es, fs[j]) { RowInLeft(a, b, j); }
  }

  lemma {:induction false} RowInRight(a: Value, b: Value, i: nat)
    requires a.Map? && b.Map? && Supported(a) && Supported(b) && i < |a.entries|
    ensures RowList(a.entries)[i] in RowList(b.entries) <==> MapsAs(a.entries[i], b.entries)
    decreases a, 0, 1
  {
    hide Row, RowList, EntryValueEq;
    var d, fs := a.entries[i], b.entries;
    forall j | 0 <= j < |fs|
      ensures RowList(fs)[j] == RowList(a.entries)[i] <==> d.key == fs[j].key && EntryValueEq(d, fs[j])
    {
      RowsIff(a, b, i, j);
    }
  }

  lemma {:induction false} RowInLeft(a: Value, b: Value, j: nat)
    requires a.Map? && b.Map? && Supported(a) && Supported(b) && j < |b.entries|
    ensures RowList(b.entries)[j] in RowList(a.entries) <==> HasEntry(a.entries, b.entries[j])
    decreases a, 0, 1
  {
    hide Row, RowList, EntryValueEq;
    var es, e := a.entries, b.entries[j];
    forall i | 0 <= i < |es|
      ensures RowList(es)[i] == RowList(b.entries)[j] <==> es[i].key == e.key && EntryValueEq(es[i], e)
    {
      RowsIff(a, b, i, j);
    }
  }

  lemma {:induction false} MapForms(a: Value, b: Value)
    requires a.Map? && b.Map? && Supported(a) && Supported(b)
    ensures Canon(a) == Canon(b) <==> SemEq(a, b)
    decreases a, 1
  {
    var p, q := RowList(a.entries), RowList(b.entries);
    RowKeysInjective(a.entries);
    RowKeysInjective(b.entries);
    TaggedPayload("map", TArray(SortBy(Elements(p), RowKey)), TArray(SortBy(Elements(q), RowKey)));
    SameItems(Elements(p), Elements(q), RowKey);
    assert Canon(a) == Canon(b) <==> Elements(p) == Elements(q);
    hide Canon, RowKey, Elements, RowList, SemEq, Supported, Covered, AllMapped, AllEntered;
    SameElements(p, q);
    MapRows(a, b);
    MapMeaning(a, b);
  }

  lemma {:induction false} ListForms(a: Value, b: Value)
    requires ((a.Seq? && b.Seq?) || (a.Tuple? && b.Tuple?)) && Supported(a) && Supported(b)
    ensures Canon(a) == Canon(b) <==> SemEq(a, b)
    decreases a, 0
  {
    var xs, ys := a.elems, b.elems;
    TaggedPayload(if a.Seq? then "sequence" else "tuple", TArray(TreeList(xs)), TArray(TreeList(ys)));
    assert Canon(a) == Canon(b) <==> TreeList(xs) == TreeList(ys);
    if |xs| == |ys| {
      forall i | 0 <= i < |xs| ensures TreeList(xs)[i] == TreeList(ys)[i] <==> SemEq(xs[i], ys[i]) { CanonIff(xs[i], ys[i]); }
      assert TreeList(xs) == TreeList(ys) <==> forall i :: 0 <= i < |xs| ==> TreeList(xs)[i] == TreeList(ys)[i];
    }
  }

  lemma {:induction false} FieldRowAt(fs: map<string, Value>, i: nat)
    requires (forall k :: k in fs ==> Supported(fs[k])) && i < |SortBy(fs.Keys, Same)|
    ensures |FieldRows(fs)| == |SortBy(fs.Keys, Same)| && SortBy(fs.Keys, Same)[i] in fs
    ensures FieldRows(fs)[i] == TArray([TString(SortBy(fs.Keys, Same)[i]), Canon(fs[SortBy(fs.Keys, Same)[i]])])
  {
    hide Canon, Supported;
    assert SortBy(fs.Keys, Same)[i] in SortBy(fs.Keys, Same);
  }

  lemma {:induction false} SameFieldAt(a: Value, b: Value, i: nat)
    requires a.Record? && b.Record? && Supported(a) && Supported(b) && FieldRows(a.fields) == FieldRows(b.fields)
    requires i < |SortBy(a.fields.Keys, Same)|
    ensures |SortBy(a.fields.Keys, Same)| == |SortBy(b.fields.Keys, Same)|
    ensures SortBy(a.fields.Keys, Same)[i] == SortBy(b.fields.Keys, Same)[i]
    ensures SortBy(a.fields.Keys, Same)[i] in a.fields && SortBy(a.fields.Keys, Same)[i] in b.fields
    ensures SemEq(a.fields[SortBy(a.fields.Keys, Same)[i]], b.fields[SortBy(a.fields.Keys, Same)[i]])
    decreases a, 0
  {
    var fs, gs := a.fields, b.fields;
    var ks, ls := SortBy(fs.Keys, Same), SortBy(gs.Keys, Same);
    assert |FieldRows(fs)| == |ks| && |FieldRows(gs)| == |ls|;
    FieldRowAt(fs, i);
    FieldRowAt(gs, i);
    hide Canon, SemEq, FieldRows;
    RowTrees(TString(ks[i]), Canon(fs[ks[i]]), TString(ls[i]), Canon(gs[ls[i]]));
    CanonIff(fs[ks[i]], gs[ls[i]]);
  }

  lemma {:induction false} RecordMeaning(a: Value, b: Value)
    requires a.Record? && b.Record?
    ensures SemEq(a, b) <==> a.fields.Keys == b.fields.Keys && forall k :: k in a.fields ==> SemEq(a.fields[k], b.fields[k])
  {
  }

  lemma {:induction false} SameFields(a: Value, b: Value)
    requires a.Record? && b.Record? && Supported(a) && Supported(b) && FieldRows(a.fields) == FieldRows(b.fields)
    ensures SemEq(a, b)
    decreases a, 1
  {
    hide Canon, FieldRows, SortBy, SemEq;
    var fs, gs := a.fields, b.fields;
    var ks, ls := SortBy(fs.Keys, Same), SortBy(gs.Keys, Same);
    forall i | 0 <= i < |ks| ensures ks[i] == ls[i] && ks[i] in fs && ks[i] in gs && SemEq(fs[ks[i]], gs[ks[i]]) {
      SameFieldAt(a, b, i);
    }
    assert ks == ls;
    SameItems(fs.Keys, gs.Keys, Same);
    FieldsByKey(fs, gs, ks);
    RecordMeaning(a, b);
  }

  lemma {:induction false} FieldsByKey(fs: map<string, Value>, gs: map<string, Value>, ks: seq<string>)
    requires fs.Keys == gs.Keys && (forall k :: k in fs ==> k in ks)
    requires forall i :: 0 <= i < |ks| ==> ks[i] in fs && SemEq(fs[ks[i]], gs[ks[i]])
    ensures forall k :: k in fs ==> SemEq(fs[k], gs[k])
  {
    hide SemEq;
    forall k | k in fs ensures SemEq(fs[k], gs[k]) {
      var i :| 0 <= i < |ks| && ks[i] == k;
    }
  }

  lemma {:induction false} EqualFieldsSameRows(a: Value, b: Value)
    requires a.Record? && b.Record? && Supported(a) && Supported(b) && SemEq(a, b)
    ensures FieldRows(a.fields) == FieldRows(b.fields)
    decreases a, 0
  {
    var fs, gs := a.fields, b.fields;
    var ks := SortBy(fs.Keys, Same);
    assert |FieldRows(fs)| == |ks| && |FieldRows(gs)| == |ks|;
    forall i | 0 <= i < |ks| ensures FieldRows(fs)[i] == FieldRows(gs)[i] {
      FieldRowAt(fs, i);
      FieldRowAt(gs, i);
      CanonIff(fs[ks[i]], gs[ks[i]]);
    }
  }

  lemma {:induction false} RecordForms(a: Value, b: Value)
    requires a.Record? && b.Record? && Supported(a) && Supported(b)
    ensures Canon(a) == Canon(b) <==> SemEq(a, b)
    decreases a, 2
  {
    TaggedPayload("record", TArray(FieldRows(a.fields)), TArray(FieldRows(b.fields)));
    assert Canon(a) == Canon(b) <==> FieldRows(a.fields) == FieldRows(b.fields);
    hide Canon, SemEq, FieldRows;
    if FieldRows(a.fields) == FieldRows(b.fields) { SameFields(a, b); }
    if SemEq(a, b) { EqualFieldsSameRows(a, b); }
  }

  lemma {:induction false} VariantForms(a: Value, b: Value)
    requires a.Variant? && b.Variant? && Supported(a) && Supported(b)
    ensures Canon(a) == Canon(b) <==> SemEq(a, b)
    decreases a, 0
  {
    CanonIff(a.value, b.value);
    var s, t := Canon(a).items, Canon(b).items;
    assert s[1] == TString(a.tag) && t[1] == TString(b.tag) && s[2] == Canon(a.value) && t[2] == Canon(b.value);
  }

  lemma {:induction false} LeafForms(a: Value, b: Value)
    requires TagOf(a) == TagOf(b) && (a.Null? || a.Int? || a.Bool? || a.Str? || a.Unserializable?)
    requires Supported(a) && Supported(b)
    ensures Canon(a) == Canon(b) <==> SemEq(a, b)
  {
    hide IntText;
    TagsApart(a, b);
    match a
    case Int(i) =>
      TaggedPayload("integer", TString(IntText(i)), TString(IntText(b.i)));
      if IntText(i) == IntText(b.i) { IntTextInjective(i, b.i); }
    case Bool(x) => TaggedPayload("boolean", TBool(x), TBool(b.b));
    case Str(s) => TaggedPayload("string", TString(s), TString(b.text));
    case Unserializable(s) => TaggedPayload("unserializable", TString(s), TString(b.text));
    case _ =>
  }

  lemma {:induction false} SemEqSameTag(a: Value, b: Value)
    requires SemEq(a, b)
    ensures TagOf(a) == TagOf(b)
  {
    hide MemberOf, HasMember, MapsAs, HasEntry;
  }

  /** Two supported values have the same canonical tree exactly when they are semantically equal. */
  lemma {:induction false} CanonIff(a: Value, b: Value)
    requires Supported(a) && Supported(b)
    ensures Canon(a) == Canon(b) <==> SemEq(a, b)
    decreases a, 3
  {
    hide Supported, Canon, SemEq, TagOf;
    if TagOf(a) != TagOf(b) {
      if Canon(a) == Canon(b) { SameKind(a, b); }
      if SemEq(a, b) { SemEqSameTag(a, b); }
    } else {
      TagsApart(a, b);
      match a
      case Set(_) => SetForms(a, b);
      case Map(_) => MapForms(a, b);
      case Seq(_) => ListForms(a, b);
      case Tuple(_) => ListForms(a, b);
      case Record(_) => RecordForms(a, b);
      case Variant(_, _) => VariantForms(a, b);
      case _ => LeafForms(a, b);
    }
  }
}
