/** Which canonical trees serialize: those of values whose texts are all UTF-8. */
module CanonicalTexts {
  import opened Decimals
  import opened JsonText
  import opened Sorting
  import opened Values
  import opened Counting
  import opened Utf8
  import opened Reports
  import opened Canonical

  predicate TreeDumps(t: Tree)
    decreases t, 0
  {
    match t
    case TString(text) => ValidText(text)
    case TBool(_) => true
    case TArray(items) => AllDump(items)
  }

  predicate AllDump(ts: seq<Tree>)
    decreases ts, 1
  {
    forall i :: 0 <= i < |ts| ==> TreeDumps(ts[i])
  }

  lemma {:induction false} TagsAreValid(v: Value)
    ensures ValidText(TagOf(v))
  {
    hide ValidText;
    AsciiIsValid(TagOf(v));
  }

  lemma {:induction false} TaggedDumps(v: Value, x: Tree)
    ensures TreeDumps(Tagged(TagOf(v), x)) <==> TreeDumps(x)
  {
    TagsAreValid(v);
    hide ValidText, TagOf;
    var items := [TString(TagOf(v)), x];
    assert items[0] == TString(TagOf(v)) && items[1] == x;
    assert TreeDumps(items[0]);
  }

  /** Serializing is about which trees there are, not about their order. */
  lemma {:induction false} SameTreesDump(ts: seq<Tree>, us: seq<Tree>)
    requires forall t :: t in ts <==> t in us
    ensures AllDump(ts) <==> AllDump(us)
  {
    hide TreeDumps;
    if AllDump(ts) { forall i | 0 <= i < |us| ensures TreeDumps(us[i]) { assert us[i] in ts; } }
    if AllDump(us) { forall i | 0 <= i < |ts| ensures TreeDumps(ts[i]) { assert ts[i] in us; } }
  }

  lemma {:induction false} SortedDumps(ts: seq<Tree>, key: Tree -> string)
    requires InjectiveOn(Elements(ts), key)
    ensures AllDump(SortBy(Elements(ts), key)) <==> AllDump(ts)
  {
    hide AllDump, SortBy;
    SameTreesDump(SortBy(Elements(ts), key), ts);
  }

  lemma {:induction false} PairDumps(a: Tree, b: Tree)
    ensures TreeDumps(TArray([a, b])) <==> TreeDumps(a) && TreeDumps(b)
  {
    var items := [a, b];
    assert items[0] == a && items[1] == b;
  }

  lemma {:induction false} ListDumps(xs: seq<Value>)
    requires forall i :: 0 <= i < |xs| ==> Supported(xs[i])
    requires forall i :: 0 <= i < |xs| ==> (TreeDumps(Canon(xs[i])) <==> TextsValid(xs[i]))
    ensures AllDump(TreeList(xs)) <==> forall i :: 0 <= i < |xs| ==> TextsValid(xs[i])
  {
    hide Canon, TextsValid, TreeDumps, Supported, TreeList;
    assert forall i :: 0 <= i < |xs| ==> TreeList(xs)[i] == Canon(xs[i]);
  }

  lemma {:induction false} EntryDumps(e: Entry)
    requires ((e.key.Str? && ValidText(e.key.text)) || e.key.Int?) && Supported(e.value)
    requires TreeDumps(Canon(e.value)) <==> TextsValid(e.value)
    ensures TreeDumps(Row(e)) <==> TextsValid(e.key) && TextsValid(e.value)
  {
    hide Canon, ValidText;
    if e.key.Int? { NumeralsAreValid(e.key.i); }
    TaggedDumps(e.key, if e.key.Str? then TString(e.key.text) else TString(IntText(e.key.i)));
    PairDumps(KeyTree(e.key), Canon(e.value));
  }

  lemma {:induction false} MapDumps(v: Value)
    requires v.Map? && Supported(v)
    requires forall i :: 0 <= i < |v.entries| ==>
               (TreeDumps(Row(v.entries[i])) <==> TextsValid(v.entries[i].key) && TextsValid(v.entries[i].value))
    ensures TreeDumps(Canon(v)) <==> TextsValid(v)
  {
    var es := v.entries;
    RowKeysInjective(es);
    TaggedDumps(v, TArray(SortBy(Elements(RowList(es)), RowKey)));
    SortedDumps(RowList(es), RowKey);
    assert TreeDumps(Canon(v)) <==> AllDump(RowList(es));
    assert TextsValid(v) <==> forall i :: 0 <= i < |es| ==> TextsValid(es[i].key) && TextsValid(es[i].value);
    hide Canon, TextsValid, TreeDumps, Supported, RowList, Row;
    assert forall i :: 0 <= i < |es| ==> RowList(es)[i] == Row(es[i]);
  }

  lemma {:induction false} FieldDumps(fs: map<string, Value>, i: nat)
    requires (forall k :: k in fs ==> Supported(fs[k])) && i < |SortBy(fs.Keys, Same)| && SortBy(fs.Keys, Same)[i] in fs
    requires var k := SortBy(fs.Keys, Same)[i]; TreeDumps(Canon(fs[k])) <==> TextsValid(fs[k])
    ensures |FieldRows(fs)| == |SortBy(fs.Keys, Same)|
    ensures var k := SortBy(fs.Keys, Same)[i];
            TreeDumps(FieldRows(fs)[i]) <==> ValidText(k) && TextsValid(fs[k])
  {
    hide Canon, TextsValid, Supported, SortBy;
    var k := SortBy(fs.Keys, Same)[i];
    FieldRowAt(fs, i);
    PairDumps(TString(k), Canon(fs[k]));
  }

  /** Rows of fields serialize exactly when all names and all values do. */
  lemma {:induction false} FieldsDump(fs: map<string, Value>)
    requires forall k :: k in fs ==> Supported(fs[k]) && (TreeDumps(Canon(fs[k])) <==> TextsValid(fs[k]))
    ensures AllDump(FieldRows(fs)) <==> forall k :: k in fs ==> ValidText(k) && TextsValid(fs[k])
  {
    var keys := SortBy(fs.Keys, Same);
    assert |FieldRows(fs)| == |keys| && forall k :: k in keys <==> k in fs;
    hide Canon, TextsValid, Supported, SortBy, FieldRows, TreeDumps, ValidText;
    forall i | 0 <= i < |keys| ensures keys[i] in fs && (TreeDumps(FieldRows(fs)[i]) <==> ValidText(keys[i]) && TextsValid(fs[keys[i]])) {
      assert keys[i] in keys;
      FieldDumps(fs, i);
    }
    if AllDump(FieldRows(fs)) {
      forall k | k in fs ensures ValidText(k) && TextsValid(fs[k]) { var i :| 0 <= i < |keys| && keys[i] == k; }
    }
  }

  lemma {:induction false} CollectionDumps(v: Value)
    requires (v.Set? || v.Seq? || v.Tuple?) && Supported(v)
    requires forall i :: 0 <= i < |v.elems| ==> Supported(v.elems[i]) && (TreeDumps(Canon(v.elems[i])) <==> TextsValid(v.elems[i]))
    ensures TreeDumps(Canon(v)) <==> TextsValid(v)
  {
    var xs := v.elems;
    ListDumps(xs);
    assert TextsValid(v) <==> forall i :: 0 <= i < |xs| ==> TextsValid(xs[i]);
    if v.Set? {
      DumpInjectiveOn(Elements(TreeList(xs)));
      SortedDumps(TreeList(xs), Dump);
      TaggedDumps(v, TArray(SortBy(Elements(TreeList(xs)), Dump)));
    } else {
      TaggedDumps(v, TArray(TreeList(xs)));
    }
  }

  lemma {:induction false} VariantDumps(v: Value)
    requires v.Variant? && Supported(v) && (TreeDumps(Canon(v.value)) <==> TextsValid(v.value))
    ensures TreeDumps(Canon(v)) <==> TextsValid(v)
  {
    TagsAreValid(v);
    hide ValidText, TagOf;
    var items := [TString("variant"), TString(v.tag), Canon(v.value)];
    assert TagOf(v) == "variant" by { VariantTag(v); }
    assert items[0] == TString("variant") && items[1] == TString(v.tag) && items[2] == Canon(v.value);
    assert Canon(v) == TArray(items);
    assert TreeDumps(items[0]) && (TreeDumps(items[1]) <==> ValidText(v.tag));
  }

  lemma {:induction false} VariantTag(v: Value)
    requires v.Variant?
    ensures TagOf(v) == "variant"
  {
  }

  lemma {:induction false} LeafDumps(v: Value)
    requires v.Null? || v.Int? || v.Bool? || v.Str? || v.Unserializable?
    ensures Supported(v) && (TreeDumps(Canon(v)) <==> TextsValid(v))
  {
    TagsAreValid(v);
    hide ValidText, TagOf;
    match v
    case Null =>
      NullTag();
      var items := [TString("null")];
      assert items[0] == TString("null") && TreeDumps(items[0]);
    case Int(i) =>
      NumeralsAreValid(i);
      LeafTags(v);
      TaggedDumps(v, TString(IntText(i)));
    case Bool(b) =>
      LeafTags(v);
      TaggedDumps(v, TBool(b));
    case Str(s) =>
      LeafTags(v);
      TaggedDumps(v, TString(s));
    case Unserializable(s) =>
      LeafTags(v);
      TaggedDumps(v, TString(s));
  }

  lemma {:induction false} NullTag()
    ensures ValidText("null")
  {
    TagsAreValid(Null);
  }

  lemma {:induction false} LeafTags(v: Value)
    ensures (v.Int? ==> TagOf(v) == "integer") && (v.Bool? ==> TagOf(v) == "boolean")
    ensures (v.Str? ==> TagOf(v) == "string") && (v.Unserializable? ==> TagOf(v) == "unserializable")
  {
  }

  /** The canonical tree of a value serializes exactly when every text inside the value is UTF-8. */
  lemma {:induction false} CanonDumps(v: Value)
    requires Supported(v)
    ensures TreeDumps(Canon(v)) <==> TextsValid(v)
    decreases v
  {
    hide Canon, TreeDumps, TextsValid, ValidText;
    match v
    case Set(xs) =>
      forall i | 0 <= i < |xs| ensures Supported(xs[i]) && (TreeDumps(Canon(xs[i])) <==> TextsValid(xs[i])) { CanonDumps(xs[i]); }
      CollectionDumps(v);
    case Seq(xs) =>
      forall i | 0 <= i < |xs| ensures Supported(xs[i]) && (TreeDumps(Canon(xs[i])) <==> TextsValid(xs[i])) { CanonDumps(xs[i]); }
      CollectionDumps(v);
    case Tuple(xs) =>
      forall i | 0 <= i < |xs| ensures Supported(xs[i]) && (TreeDumps(Canon(xs[i])) <==> TextsValid(xs[i])) { CanonDumps(xs[i]); }
      CollectionDumps(v);
    case Record(fs) =>
      forall k | k in fs ensures Supported(fs[k]) && (TreeDumps(Canon(fs[k])) <==> TextsValid(fs[k])) { CanonDumps(fs[k]); }
      RecordDumps(fs);
    case Map(es) =>
      forall i | 0 <= i < |es| ensures TreeDumps(Row(es[i])) <==> TextsValid(es[i].key) && TextsValid(es[i].value) {
        CanonDumps(es[i].value);
        EntryDumps(es[i]);
      }
      MapDumps(v);
    case Variant(_, x) =>
      CanonDumps(x);
      VariantDumps(v);
    case _ => LeafDumps(v);
  }

  lemma {:induction false} RecordDumps(fs: map<string, Value>)
    requires forall k :: k in fs ==> Supported(fs[k]) && (TreeDumps(Canon(fs[k])) <==> TextsValid(fs[k]))
    ensures Supported(Record(fs)) && (TreeDumps(Canon(Record(fs))) <==> TextsValid(Record(fs)))
  {
    FieldsDump(fs);
    TaggedDumps(Record(fs), TArray(FieldRows(fs)));
  }
}
