/** When a state can be sent: the serializer refuses texts that are not UTF-8. */
module Reports {
  import opened Decimals
  import opened Values
  import opened ItfCodec
  import opened Utf8

  /** Serializing a tree succeeds exactly when every string and every key in it is UTF-8. */
  predicate Dumps(j: Json)
    decreases j
  {
    match j
    case JString(text) => ValidText(text)
    case JArray(items) => forall i :: 0 <= i < |items| ==> Dumps(items[i])
    case JObject(members) => forall k :: k in members ==> ValidText(k) && Dumps(members[k])
    case _ => true
  }

  predicate StateDumps(s: VarState) { Dumps(EncodeState(s)) }

  /** Every text inside a value is UTF-8. */
  predicate TextsValid(v: Value)
    decreases v
  {
    match v
    case Str(s) => ValidText(s)
    case Unserializable(s) => ValidText(s)
    case Set(xs) => forall i :: 0 <= i < |xs| ==> TextsValid(xs[i])
    case Seq(xs) => forall i :: 0 <= i < |xs| ==> TextsValid(xs[i])
    case Tuple(xs) => forall i :: 0 <= i < |xs| ==> TextsValid(xs[i])
    case Record(fs) => forall k :: k in fs ==> ValidText(k) && TextsValid(fs[k])
    case Map(es) => forall i :: 0 <= i < |es| ==> TextsValid(es[i].key) && TextsValid(es[i].value)
    case Variant(tag, x) => ValidText(tag) && TextsValid(x)
    case _ => true
  }

  lemma {:induction false} MarkersAreValid()
    ensures ValidText("#bigint") && ValidText("#set") && ValidText("#tup") && ValidText("#map")
    ensures ValidText("#unserializable") && ValidText("tag") && ValidText("value")
  {
    hide ValidText;
    AsciiIsValid("#bigint");
    AsciiIsValid("#set");
    AsciiIsValid("#tup");
    AsciiIsValid("#map");
    AsciiIsValid("#unserializable");
    AsciiIsValid("tag");
    AsciiIsValid("value");
  }

  lemma {:induction false} NumeralsAreValid(i: int)
    ensures ValidText(IntText(i))
  {
    hide ValidText, NatText;
    AsciiIsValid(IntText(i));
  }

  lemma {:induction false} ListDumps(xs: seq<Value>, marker: string)
    requires ValidText(marker) && forall i :: 0 <= i < |xs| ==> (Dumps(Encode(xs[i])) <==> TextsValid(xs[i]))
    ensures Dumps(JArray(EncodeAll(xs))) <==> forall i :: 0 <= i < |xs| ==> TextsValid(xs[i])
    ensures Dumps(JObject(map[marker := JArray(EncodeAll(xs))])) <==> Dumps(JArray(EncodeAll(xs)))
  {
    hide Encode, TextsValid, ValidText;
    var items, m := EncodeAll(xs), map[marker := JArray(EncodeAll(xs))];
    assert m[marker] == JArray(items);
    if forall i :: 0 <= i < |xs| ==> TextsValid(xs[i]) {
      forall i | 0 <= i < |items| ensures Dumps(items[i]) { assert items[i] == Encode(xs[i]); }
    }
    if Dumps(JArray(items)) {
      forall i | 0 <= i < |xs| ensures TextsValid(xs[i]) { assert items[i] == Encode(xs[i]); }
    }
  }

  lemma {:induction false} PairDumps(e: Entry)
    requires (Dumps(Encode(e.key)) <==> TextsValid(e.key)) && (Dumps(Encode(e.value)) <==> TextsValid(e.value))
    ensures Dumps(EncodePair(e)) <==> TextsValid(e.key) && TextsValid(e.value)
  {
    hide Encode, TextsValid;
    var items := [Encode(e.key), Encode(e.value)];
    assert items[0] == Encode(e.key) && items[1] == Encode(e.value);
  }

  lemma {:induction false} MapDumps(es: seq<Entry>)
    requires forall i :: 0 <= i < |es| ==> (Dumps(EncodePair(es[i])) <==> TextsValid(es[i].key) && TextsValid(es[i].value))
    ensures Dumps(Encode(Map(es))) <==> TextsValid(Map(es))
  {
    MarkersAreValid();
    hide EncodePair, ValidText;
    var items := EncodePairs(es);
    var m := map["#map" := JArray(items)];
    assert Encode(Map(es)) == JObject(m) && m["#map"] == JArray(items);
    hide Encode;
    if TextsValid(Map(es)) {
      forall i | 0 <= i < |items| ensures Dumps(items[i]) { assert items[i] == EncodePair(es[i]); }
    }
    if Dumps(JArray(items)) {
      forall i | 0 <= i < |es| ensures TextsValid(es[i].key) && TextsValid(es[i].value) { assert items[i] == EncodePair(es[i]); }
    }
  }

  lemma {:induction false} ObjectDumps(m: map<string, Json>)
    ensures Dumps(JObject(m)) <==> forall k :: k in m ==> ValidText(k) && Dumps(m[k])
  {
    hide ValidText;
  }

  lemma {:induction false} FieldsDump(fs: map<string, Value>)
    requires forall k :: k in fs ==> (Dumps(Encode(fs[k])) <==> TextsValid(fs[k]))
    ensures Dumps(JObject(EncodeFields(fs))) <==> forall k :: k in fs ==> ValidText(k) && TextsValid(fs[k])
  {
    var m := EncodeFields(fs);
    assert forall k :: k in fs <==> k in m;
    ObjectDumps(m);
    hide Encode, TextsValid, ValidText, EncodeFields, Dumps;
    assert forall k :: k in m ==> (Dumps(m[k]) <==> TextsValid(fs[k]));
  }

  lemma {:induction false} LeafDumps(v: Value)
    requires v.Null? || v.Int? || v.Bool? || v.Str? || v.Unserializable?
    ensures Dumps(Encode(v)) <==> TextsValid(v)
  {
    MarkersAreValid();
    hide ValidText;
    if v.Int? { NumeralsAreValid(v.i); }
  }

  lemma {:induction false} TwoMembers(m: map<string, Json>)
    requires m.Keys == {"tag", "value"} && ValidText("tag") && ValidText("value")
    ensures Dumps(JObject(m)) <==> Dumps(m["tag"]) && Dumps(m["value"])
  {
    hide ValidText;
  }

  lemma {:induction false} VariantDumps(tag: string, x: Value)
    requires Dumps(Encode(x)) <==> TextsValid(x)
    ensures Dumps(Encode(Variant(tag, x))) <==> TextsValid(Variant(tag, x))
  {
    MarkersAreValid();
    hide ValidText;
    var m := map["tag" := JString(tag), "value" := Encode(x)];
    assert Encode(Variant(tag, x)) == JObject(m) && m["tag"] == JString(tag) && m["value"] == Encode(x);
    assert TextsValid(Variant(tag, x)) <==> ValidText(tag) && TextsValid(x);
    hide Encode, TextsValid;
    assert Dumps(m["tag"]) <==> ValidText(tag);
    TwoMembers(m);
  }

  /** A value serializes exactly when every text inside it is UTF-8. */
  lemma {:induction false} DumpsExactly(v: Value)
    ensures Dumps(Encode(v)) <==> TextsValid(v)
    decreases v
  {
    MarkersAreValid();
    hide ValidText, EncodePair;
    match v
    case Set(xs) =>
      forall i | 0 <= i < |xs| ensures Dumps(Encode(xs[i])) <==> TextsValid(xs[i]) { DumpsExactly(xs[i]); }
      ListDumps(xs, "#set");
    case Seq(xs) =>
      forall i | 0 <= i < |xs| ensures Dumps(Encode(xs[i])) <==> TextsValid(xs[i]) { DumpsExactly(xs[i]); }
      ListDumps(xs, "#set");
    case Tuple(xs) =>
      forall i | 0 <= i < |xs| ensures Dumps(Encode(xs[i])) <==> TextsValid(xs[i]) { DumpsExactly(xs[i]); }
      ListDumps(xs, "#tup");
    case Record(fs) =>
      forall k | k in fs ensures Dumps(Encode(fs[k])) <==> TextsValid(fs[k]) { DumpsExactly(fs[k]); }
      FieldsDump(fs);
      ObjectOfRecord(fs);
    case Map(es) =>
      forall i | 0 <= i < |es| ensures Dumps(EncodePair(es[i])) <==> TextsValid(es[i].key) && TextsValid(es[i].value) {
        DumpsExactly(es[i].key);
        DumpsExactly(es[i].value);
        PairDumps(es[i]);
      }
      MapDumps(es);
    case Variant(tag, x) =>
      DumpsExactly(x);
      VariantDumps(tag, x);
    case _ => LeafDumps(v);
  }

  /** A state serializes exactly when its variables and all texts inside its values are UTF-8. */
  lemma {:induction false} StateDumpsExactly(s: VarState)
    ensures StateDumps(s) <==> forall k :: k in s ==> ValidText(k) && TextsValid(s[k])
  {
    hide Encode, TextsValid, ValidText;
    forall k | k in s ensures Dumps(Encode(s[k])) <==> TextsValid(s[k]) { DumpsExactly(s[k]); }
    FieldsDump(s);
    assert EncodeState(s) == JObject(EncodeFields(s));
  }

  /** One state that does not serialize: a variable holding the byte 0xFF. */
  lemma {:induction false} NotText()
    ensures !StateDumps(map["x" := Str([0xFF as char])])
  {
    var s := map["x" := Str([0xFF as char])];
    assert Width([0xFF as char]) == 0;
    assert "x" in s && !TextsValid(s["x"]);
    hide Encode, ValidText, TextsValid;
    StateDumpsExactly(s);
  }
}
