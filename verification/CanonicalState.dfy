/** The canonicaliser as it walks a state: a depth bound, one node counter threaded through all
    variables, a byte bound on the result, and rejection of unsupported map keys. */
module CanonicalStates {
  import opened Decimals
  import opened JsonText
  import opened Sorting
  import opened Values
  import opened Counting
  import opened Utf8
  import opened Reports
  import opened Canonical
  import opened CanonicalTexts

  const SCHEMA: string := "mirrors.canonical-state/v1"
  const MAX_DEPTH: nat := 32
  const MAX_NODES: nat := 65536
  const MAX_STATE_BYTES: nat := 1048576

  datatype Walk<+T> = Rejected | Walked(out: T, nodes: nat)

  /** Visits `v` at `depth` with `nodes` already counted. */
  function WalkValue(v: Value, depth: nat, nodes: nat): Walk<Tree>
    decreases v, 3
  {
    if depth > MAX_DEPTH || nodes + 1 > MAX_NODES then Rejected
    else
      var n := nodes + 1;
      match v
      case Null => Walked(TArray([TString("null")]), n)
      case Int(i) => Walked(Tagged("integer", TString(IntText(i))), n)
      case Bool(b) => Walked(Tagged("boolean", TBool(b)), n)
      case Str(s) => Walked(Tagged("string", TString(s)), n)
      case Unserializable(s) => Walked(Tagged("unserializable", TString(s)), n)
      case Variant(tag, x) =>
        (match WalkValue(x, depth + 1, n)
         case Rejected => Rejected
         case Walked(t, m) => Walked(TArray([TString("variant"), TString(tag), t]), m))
      case Record(fs) =>
        (match WalkFields(fs, SortBy(fs.Keys, Same), depth + 1, n)
         case Rejected => Rejected
         case Walked(rows, m) => Walked(Tagged("record", TArray(rows)), m))
      case Map(es) =>
        if !KeysSupported(es) then Rejected
        else
          (match WalkEntries(es, depth + 1, n)
           case Rejected => Rejected
           case Walked(rows, m) =>
             if InjectiveOn(Elements(rows), RowKey)
             then Walked(Tagged("map", TArray(SortBy(Elements(rows), RowKey))), m) else Rejected)
      case Set(xs) =>
        (match WalkList(xs, depth + 1, n)
         case Rejected => Rejected
         case Walked(ts, m) =>
           DumpInjectiveOn(Elements(ts));
           if AllDump(ts) then Walked(Tagged("set", TArray(SortBy(Elements(ts), Dump))), m) else Rejected)
      case Seq(xs) =>
        (match WalkList(xs, depth + 1, n)
         case Rejected => Rejected
         case Walked(ts, m) => Walked(Tagged("sequence", TArray(ts)), m))
      case Tuple(xs) =>
        (match WalkList(xs, depth + 1, n)
         case Rejected => Rejected
         case Walked(ts, m) => Walked(Tagged("tuple", TArray(ts)), m))
  }

  function WalkList(xs: seq<Value>, depth: nat, nodes: nat): Walk<seq<Tree>>
    decreases xs, 1
  {
    if xs == [] then Walked([], nodes)
    else
      match WalkValue(xs[0], depth, nodes)
      case Rejected => Rejected
      case Walked(t, n) =>
        match WalkList(xs[1..], depth, n)
        case Rejected => Rejected
        case Walked(ts, m) => Walked([t] + ts, m)
  }

  function WalkEntry(e: Entry, depth: nat, nodes: nat): Walk<Tree>
    decreases e, 1
  {
    match WalkValue(e.key, depth, nodes)
    case Rejected => Rejected
    case Walked(k, n) =>
      match WalkValue(e.value, depth, n)
      case Rejected => Rejected
      case Walked(x, m) => Walked(TArray([k, x]), m)
  }

  function WalkEntries(es: seq<Entry>, depth: nat, nodes: nat): Walk<seq<Tree>>
    decreases es, 2
  {
    if es == [] then Walked([], nodes)
    else
      match WalkEntry(es[0], depth, nodes)
      case Rejected => Rejected
      case Walked(row, n) =>
        match WalkEntries(es[1..], depth, n)
        case Rejected => Rejected
        case Walked(rows, m) => Walked([row] + rows, m)
  }

  function WalkFields(fs: map<string, Value>, keys: seq<string>, depth: nat, nodes: nat): Walk<seq<Tree>>
    requires forall i :: 0 <= i < |keys| ==> keys[i] in fs
    decreases Record(fs), 2, |keys|
  {
    if keys == [] then Walked([], nodes)
    else
      match WalkValue(fs[keys[0]], depth, nodes)
      case Rejected => Rejected
      case Walked(t, n) =>
        match WalkFields(fs, keys[1..], depth, n)
        case Rejected => Rejected
        case Walked(rows, m) => Walked([TArray([TString(keys[0]), t])] + rows, m)
  }

  // ----- what the bounds measure ------------------------------------------------------------

  function Max(a: nat, b: nat): nat { if a < b then b else a }

  /** How many nodes a value has, map keys included. */
  ghost function Size(v: Value): nat
    decreases v, 3
  {
    1 + match v
        case Set(xs) => SizeAll(xs)
        case Seq(xs) => SizeAll(xs)
        case Tuple(xs) => SizeAll(xs)
        case Record(fs) => SizeFields(fs, SortBy(fs.Keys, Same))
        case Map(es) => SizeEntries(es)
        case Variant(_, x) => Size(x)
        case _ => 0
  }

  ghost function SizeAll(xs: seq<Value>): nat
    decreases xs, 1
  {
    if xs == [] then 0 else Size(xs[0]) + SizeAll(xs[1..])
  }

  ghost function SizeEntry(e: Entry): nat
    decreases e, 1
  {
    Size(e.key) + Size(e.value)
  }

  ghost function SizeEntries(es: seq<Entry>): nat
    decreases es, 2
  {
    if es == [] then 0 else SizeEntry(es[0]) + SizeEntries(es[1..])
  }

  ghost function SizeFields(fs: map<string, Value>, keys: seq<string>): nat
    requires forall i :: 0 <= i < |keys| ==> keys[i] in fs
    decreases Record(fs), 2, |keys|
  {
    if keys == [] then 0 else Size(fs[keys[0]]) + SizeFields(fs, keys[1..])
  }

  /** How deep a value nests: the largest number of steps from it down to a part. */
  ghost function Height(v: Value): nat
    decreases v, 3
  {
    match v
    case Set(xs) => HeightAll(xs)
    case Seq(xs) => HeightAll(xs)
    case Tuple(xs) => HeightAll(xs)
    case Record(fs) => HeightFields(fs, SortBy(fs.Keys, Same))
    case Map(es) => HeightEntries(es)
    case Variant(_, x) => 1 + Height(x)
    case _ => 0
  }

  ghost function HeightAll(xs: seq<Value>): nat
    decreases xs, 1
  {
    if xs == [] then 0 else Max(1 + Height(xs[0]), HeightAll(xs[1..]))
  }

  ghost function HeightEntry(e: Entry): nat
    decreases e, 1
  {
    1 + Max(Height(e.key), Height(e.value))
  }

  ghost function HeightEntries(es: seq<Entry>): nat
    decreases es, 2
  {
    if es == [] then 0 else Max(HeightEntry(es[0]), HeightEntries(es[1..]))
  }

  ghost function HeightFields(fs: map<string, Value>, keys: seq<string>): nat
    requires forall i :: 0 <= i < |keys| ==> keys[i] in fs
    decreases Record(fs), 2, |keys|
  {
    if keys == [] then 0 else Max(1 + Height(fs[keys[0]]), HeightFields(fs, keys[1..]))
  }

  /** The value fits when visited at `depth` with `nodes` already counted. */
  ghost predicate Admitted(v: Value, depth: nat, nodes: nat) {
    Supported(v) && depth + Height(v) <= MAX_DEPTH && nodes + Size(v) <= MAX_NODES
  }

  // ----- the walk computes the canonical tree, exactly when everything fits ----------------------

  lemma {:induction false} WalkIs(v: Value, depth: nat, nodes: nat)
    ensures WalkValue(v, depth, nodes) == if Admitted(v, depth, nodes) then Walked(Canon(v), nodes + Size(v)) else Rejected
    decreases v, 4
  {
    hide WalkList, WalkFields, WalkEntries, HeightAll, HeightFields, HeightEntries, SizeAll, SizeFields, SizeEntries, SortBy;
    if depth <= MAX_DEPTH && nodes + 1 <= MAX_NODES {
      match v
      case Variant(_, x) => WalkIs(x, depth + 1, nodes + 1);
      case Record(_) => WalkRecordIs(v, depth, nodes);
      case Map(_) => WalkMapIs(v, depth, nodes);
      case Set(_) => WalkSetIs(v, depth, nodes);
      case Seq(_) => WalkCollectionIs(v, depth, nodes);
      case Tuple(_) => WalkCollectionIs(v, depth, nodes);
      case _ =>
    }
  }

  ghost predicate ListAdmitted(xs: seq<Value>, depth: nat, nodes: nat)
    requires depth > 0
  {
    && (forall i :: 0 <= i < |xs| ==> Supported(xs[i]))
    && depth - 1 + HeightAll(xs) <= MAX_DEPTH && nodes + SizeAll(xs) <= MAX_NODES
  }

  lemma {:induction false} WalkListIs(xs: seq<Value>, depth: nat, nodes: nat)
    requires 0 < depth <= MAX_DEPTH + 1 && nodes <= MAX_NODES
    ensures WalkList(xs, depth, nodes)
         == if ListAdmitted(xs, depth, nodes) then Walked(TreeList(xs), nodes + SizeAll(xs)) else Rejected
    decreases xs, 1
  {
    hide Supported, Canon, WalkValue, Size, Height;
    if xs == [] {
    } else {
      WalkIs(xs[0], depth, nodes);
      if Admitted(xs[0], depth, nodes) {
        WalkListIs(xs[1..], depth, nodes + Size(xs[0]));
        if ListAdmitted(xs[1..], depth, nodes + Size(xs[0])) {
          assert forall i :: 0 < i < |xs| ==> xs[i] == xs[1..][i - 1];
          assert TreeList(xs) == [Canon(xs[0])] + TreeList(xs[1..]);
        }
      }
    }
  }

  ghost predicate EntriesAdmitted(es: seq<Entry>, depth: nat, nodes: nat)
    requires depth > 0
  {
    && (forall i :: 0 <= i < |es| ==> Supported(es[i].value))
    && depth - 1 + HeightEntries(es) <= MAX_DEPTH && nodes + SizeEntries(es) <= MAX_NODES
  }

  lemma {:induction false} KeyIsLeaf(key: Value)
    requires key.Str? || key.Int?
    ensures Supported(key) && Canon(key) == KeyTree(key) && Size(key) == 1 && Height(key) == 0
  {
  }

  lemma {:induction false} WalkEntryIs(e: Entry, depth: nat, nodes: nat)
    requires 0 < depth <= MAX_DEPTH + 1 && nodes <= MAX_NODES && (e.key.Str? || e.key.Int?)
    ensures WalkEntry(e, depth, nodes)
         == if Supported(e.value) && depth - 1 + HeightEntry(e) <= MAX_DEPTH && nodes + SizeEntry(e) <= MAX_NODES
            then Walked(Row(e), nodes + SizeEntry(e)) else Rejected
    decreases e, 1
  {
    hide Canon, WalkValue, Size, Height;
    KeyIsLeaf(e.key);
    WalkIs(e.key, depth, nodes);
    if depth <= MAX_DEPTH && nodes + 1 <= MAX_NODES { WalkIs(e.value, depth, nodes + 1); }
  }

  lemma {:induction false} WalkEntriesIs(es: seq<Entry>, depth: nat, nodes: nat)
    requires 0 < depth <= MAX_DEPTH + 1 && nodes <= MAX_NODES && KeysSupported(es)
    ensures WalkEntries(es, depth, nodes)
         == if EntriesAdmitted(es, depth, nodes) then Walked(RowList(es), nodes + SizeEntries(es)) else Rejected
    decreases es, 2
  {
    hide Supported, Row, WalkEntry, SizeEntry, HeightEntry;
    if es == [] {
    } else {
      WalkEntryIs(es[0], depth, nodes);
      if Supported(es[0].value) && depth - 1 + HeightEntry(es[0]) <= MAX_DEPTH && nodes + SizeEntry(es[0]) <= MAX_NODES {
        WalkEntriesIs(es[1..], depth, nodes + SizeEntry(es[0]));
        if EntriesAdmitted(es[1..], depth, nodes + SizeEntry(es[0])) {
          assert forall i :: 0 < i < |es| ==> es[i] == es[1..][i - 1];
          assert RowList(es) == [Row(es[0])] + RowList(es[1..]);
        }
      }
    }
  }

  lemma {:induction false} WalkMapIs(v: Value, depth: nat, nodes: nat)
    requires v.Map? && depth <= MAX_DEPTH && nodes + 1 <= MAX_NODES
    ensures WalkValue(v, depth, nodes) == if Admitted(v, depth, nodes) then Walked(Canon(v), nodes + Size(v)) else Rejected
    decreases v, 0
  {
    hide WalkEntries, HeightEntries, SizeEntries, SortBy, RowList;
    var es := v.entries;
    if KeysSupported(es) {
      WalkEntriesIs(es, depth + 1, nodes + 1);
      if EntriesAdmitted(es, depth + 1, nodes + 1) { RowKeysInjective(es); }
    }
  }

  ghost predicate FieldsAdmitted(fs: map<string, Value>, keys: seq<string>, depth: nat, nodes: nat)
    requires forall i :: 0 <= i < |keys| ==> keys[i] in fs
  {
    && (forall i :: 0 <= i < |keys| ==> Supported(fs[keys[i]]))
    && depth - 1 + HeightFields(fs, keys) <= MAX_DEPTH && nodes + SizeFields(fs, keys) <= MAX_NODES
  }

  ghost function RowsFor(fs: map<string, Value>, keys: seq<string>): (rows: seq<Tree>)
    requires forall i :: 0 <= i < |keys| ==> keys[i] in fs && Supported(fs[keys[i]])
    ensures |rows| == |keys| && forall i :: 0 <= i < |keys| ==> rows[i] == TArray([TString(keys[i]), Canon(fs[keys[i]])])
  {
    seq(|keys|, i requires 0 <= i < |keys| => TArray([TString(keys[i]), Canon(fs[keys[i]])]))
  }

  lemma {:induction false} WalkFieldsIs(fs: map<string, Value>, keys: seq<string>, depth: nat, nodes: nat)
    requires forall i :: 0 <= i < |keys| ==> keys[i] in fs
    requires depth <= MAX_DEPTH + 1 && nodes <= MAX_NODES
    ensures WalkFields(fs, keys, depth, nodes)
         == if FieldsAdmitted(fs, keys, depth, nodes)
            then Walked(RowsFor(fs, keys), nodes + SizeFields(fs, keys)) else Rejected
    decreases Record(fs), 1, |keys|
  {
    hide Supported, Canon, WalkValue, Size, Height;
    if keys == [] {
    } else {
      var x := fs[keys[0]];
      assert x < Record(fs);
      WalkIs(x, depth, nodes);
      if Admitted(x, depth, nodes) {
        WalkFieldsIs(fs, keys[1..], depth, nodes + Size(x));
        if FieldsAdmitted(fs, keys[1..], depth, nodes + Size(x)) {
          assert forall i :: 0 < i < |keys| ==> keys[i] == keys[1..][i - 1];
          assert RowsFor(fs, keys) == [TArray([TString(keys[0]), Canon(x)])] + RowsFor(fs, keys[1..]);
        }
      }
    }
  }

  /** Walking all fields in key order, from any depth and count. */
  lemma {:induction false} WalkAllFieldsIs(fs: map<string, Value>, depth: nat, nodes: nat)
    requires depth <= MAX_DEPTH + 1 && nodes <= MAX_NODES
    ensures var keys := SortBy(fs.Keys, Same);
            (forall i :: 0 <= i < |keys| ==> keys[i] in fs)
            && WalkFields(fs, keys, depth, nodes)
               == if (forall k :: k in fs ==> Supported(fs[k])) && depth - 1 + HeightFields(fs, keys) <= MAX_DEPTH
                     && nodes + SizeFields(fs, keys) <= MAX_NODES
                  then Walked(FieldRows(fs), nodes + SizeFields(fs, keys)) else Rejected
    decreases Record(fs), 2
  {
    hide Canon, WalkFields, HeightFields, SizeFields, FieldRows, Supported;
    var keys := SortBy(fs.Keys, Same);
    forall i | 0 <= i < |keys| ensures keys[i] in fs { assert keys[i] in keys; }
    WalkFieldsIs(fs, keys, depth, nodes);
    AllFields(fs, keys);
    if forall k :: k in fs ==> Supported(fs[k]) { SameRows(fs); }
  }

  lemma {:induction false} WalkRecordIs(v: Value, depth: nat, nodes: nat)
    requires v.Record? && depth <= MAX_DEPTH && nodes + 1 <= MAX_NODES
    ensures WalkValue(v, depth, nodes) == if Admitted(v, depth, nodes) then Walked(Canon(v), nodes + Size(v)) else Rejected
    decreases v, 3
  {
    hide WalkFields, HeightFields, SizeFields, FieldRows, SortBy;
    WalkAllFieldsIs(v.fields, depth + 1, nodes + 1);
  }

  lemma {:induction false} WalkCollectionIs(v: Value, depth: nat, nodes: nat)
    requires (v.Seq? || v.Tuple?) && depth <= MAX_DEPTH && nodes + 1 <= MAX_NODES
    ensures WalkValue(v, depth, nodes) == if Admitted(v, depth, nodes) then Walked(Canon(v), nodes + Size(v)) else Rejected
    decreases v, 0
  {
    hide WalkList, HeightAll, SizeAll, SortBy, TreeList;
    WalkListIs(v.elems, depth + 1, nodes + 1);
  }

  /** The elements of a set serialize exactly when their texts are UTF-8. */
  lemma {:induction false} ElementsDump(xs: seq<Value>)
    requires forall i :: 0 <= i < |xs| ==> Supported(xs[i])
    ensures AllDump(TreeList(xs)) <==> forall i :: 0 <= i < |xs| ==> TextsValid(xs[i])
  {
    hide Canon, TextsValid, TreeDumps, Supported, TreeList, AllDump;
    forall i | 0 <= i < |xs| ensures TreeDumps(Canon(xs[i])) <==> TextsValid(xs[i]) { CanonDumps(xs[i]); }
    CanonicalTexts.ListDumps(xs);
  }

  lemma {:induction false} WalkSetIs(v: Value, depth: nat, nodes: nat)
    requires v.Set? && depth <= MAX_DEPTH && nodes + 1 <= MAX_NODES
    ensures WalkValue(v, depth, nodes) == if Admitted(v, depth, nodes) then Walked(Canon(v), nodes + Size(v)) else Rejected
    decreases v, 0
  {
    hide WalkList, HeightAll, SizeAll, SortBy, TreeList, AllDump, TextsValid;
    var xs := v.elems;
    WalkListIs(xs, depth + 1, nodes + 1);
    if forall i :: 0 <= i < |xs| ==> Supported(xs[i]) {
      DumpInjectiveOn(Elements(TreeList(xs)));
      ElementsDump(xs);
    }
  }

  lemma {:induction false} AllFields(fs: map<string, Value>, keys: seq<string>)
    requires forall k :: k in fs <==> k in keys
    ensures (forall i :: 0 <= i < |keys| ==> keys[i] in fs && Supported(fs[keys[i]])) <==> forall k :: k in fs ==> Supported(fs[k])
  {
    hide Supported;
    if forall i :: 0 <= i < |keys| ==> keys[i] in fs && Supported(fs[keys[i]]) {
      forall k | k in fs ensures Supported(fs[k]) { var i :| 0 <= i < |keys| && keys[i] == k; }
    }
    forall i | 0 <= i < |keys| ensures keys[i] in fs { assert keys[i] in keys; }
  }

  lemma {:induction false} SameRows(fs: map<string, Value>)
    requires forall k :: k in fs ==> Supported(fs[k])
    ensures var keys := SortBy(fs.Keys, Same);
            (forall i :: 0 <= i < |keys| ==> keys[i] in fs) && RowsFor(fs, keys) == FieldRows(fs)
  {
    hide Canon, SortBy;
    var keys := SortBy(fs.Keys, Same);
    forall i | 0 <= i < |keys| ensures keys[i] in fs { assert keys[i] in keys; }
    forall i | 0 <= i < |keys| ensures RowsFor(fs, keys)[i] == FieldRows(fs)[i] { FieldRowAt(fs, i); }
  }

  // ----- whole states ---------------------------------------------------------------------------------

  function StateTree(rows: seq<Tree>): Tree {
    TArray([TString(SCHEMA), TArray(rows)])
  }

  datatype CanonicalResult = Refused | Text(text: string)

  /** The canonical text of a state: all variables walked at depth zero with one counter. */
  function CanonicalState(s: VarState): CanonicalResult {
    match WalkFields(s, SortBy(s.Keys, Same), 0, 0)
    case Rejected => Refused
    case Walked(rows, _) =>
      var text := Dump(StateTree(rows));
      if TreeDumps(StateTree(rows)) && |text| <= MAX_STATE_BYTES then Text(text) else Refused
  }

  /** What the walk over the variables yields, and when: every value supported, nested at most 32
      deep, and at most 65536 nodes in all. */
  lemma {:induction false} StateRows(s: VarState)
    ensures var keys := SortBy(s.Keys, Same);
            (forall i :: 0 <= i < |keys| ==> keys[i] in s)
            && (WalkFields(s, keys, 0, 0).Walked?
                <==> StateSupported(s) && HeightFields(s, keys) <= MAX_DEPTH + 1 && SizeFields(s, keys) <= MAX_NODES)
            && (WalkFields(s, keys, 0, 0).Walked? ==> WalkFields(s, keys, 0, 0).out == FieldRows(s))
  {
    hide WalkFields, HeightFields, SizeFields, FieldRows, Supported;
    WalkAllFieldsIs(s, 0, 0);
  }

  ghost predicate StateSupported(s: VarState) { forall k :: k in s ==> Supported(s[k]) }

  ghost predicate StateTextsValid(s: VarState) { forall k :: k in s ==> ValidText(k) && TextsValid(s[k]) }

  lemma {:induction false} SchemaIsValid()
    ensures ValidText(SCHEMA)
  {
    hide ValidText;
    AsciiIsValid(SCHEMA);
  }

  lemma {:induction false} StateDumps(s: VarState)
    requires StateSupported(s)
    ensures TreeDumps(StateTree(FieldRows(s))) <==> StateTextsValid(s)
  {
    SchemaIsValid();
    hide Canon, TextsValid, Supported, FieldRows, ValidText, SCHEMA;
    forall k | k in s ensures TreeDumps(Canon(s[k])) <==> TextsValid(s[k]) { CanonDumps(s[k]); }
    CanonicalTexts.FieldsDump(s);
    CanonicalTexts.PairDumps(TString(SCHEMA), TArray(FieldRows(s)));
  }

  /** Which states have a canonical text: all values supported and within the shared bounds, all names
      and texts UTF-8, and the text not over a mebibyte. */
  lemma {:induction false} HasText(s: VarState)
    ensures var keys := SortBy(s.Keys, Same);
            (forall i :: 0 <= i < |keys| ==> keys[i] in s)
            && (CanonicalState(s).Text?
                <==> StateSupported(s) && HeightFields(s, keys) <= MAX_DEPTH + 1 && SizeFields(s, keys) <= MAX_NODES
                     && StateTextsValid(s) && |Dump(StateTree(FieldRows(s)))| <= MAX_STATE_BYTES)
  {
    hide WalkFields, HeightFields, SizeFields, StateTree, TreeDumps, StateTextsValid, Dump, SortBy;
    StateRows(s);
    if StateSupported(s) { StateDumps(s); }
  }

  /** Two states with a canonical text have the same text exactly when they have the same
      variables with semantically equal values. */
  lemma {:induction false} SameTextSameMeaning(s: VarState, t: VarState)
    requires CanonicalState(s).Text? && CanonicalState(t).Text?
    ensures CanonicalState(s) == CanonicalState(t)
       <==> s.Keys == t.Keys && forall k :: k in s ==> SemEq(s[k], t[k])
  {
    hide Canon, SemEq, Dump, WalkFields, FieldRows;
    StateRows(s);
    StateRows(t);
    var p, q := FieldRows(s), FieldRows(t);
    if Dump(StateTree(p)) == Dump(StateTree(q)) {
      DumpInjective(StateTree(p), StateTree(q));
      assert StateTree(p).items[1] == TArray(p) && StateTree(q).items[1] == TArray(q);
    }
    assert CanonicalState(s) == CanonicalState(t) <==> p == q;
    StateForms(s, t);
  }

  lemma {:induction false} StateForms(s: VarState, t: VarState)
    requires (forall k :: k in s ==> Supported(s[k])) && (forall k :: k in t ==> Supported(t[k]))
    ensures FieldRows(s) == FieldRows(t) <==> s.Keys == t.Keys && forall k :: k in s ==> SemEq(s[k], t[k])
  {
    assert Supported(Record(s)) && Supported(Record(t));
    hide Canon, FieldRows, SemEq, Supported;
    if FieldRows(s) == FieldRows(t) { SameFields(Record(s), Record(t)); }
    RecordMeaning(Record(s), Record(t));
    if SemEq(Record(s), Record(t)) { EqualFieldsSameRows(Record(s), Record(t)); }
  }
}
