/** The ITF grammar, value by value: which JSON trees stand for which values. The decoder, which
    goes by the shape of the tree, accepts a tree as a value exactly when the grammar allows it. */
module ItfGrammar {
  import opened Decimals
  import opened Values
  import opened ItfCodec

  /** The text of a big integer: its own decimal text, or another numeral the library reads as it. */
  ghost predicate Names(s: string, i: int, lenient: string -> Result<int>) {
    s == IntText(i) || (Numeral(s) && (forall k :: s != IntText(k)) && lenient(s) == Ok(i))
  }

  /** An object with one member. */
  ghost predicate Single(j: Json, key: string, payload: Json) {
    j.JObject? && j.members.Keys == {key} && j.members[key] == payload
  }

  /** An object whose one member is a list under the marker `key`. */
  ghost predicate Listing(j: Json, key: string) {
    j.JObject? && j.members.Keys == {key} && j.members[key].JArray?
  }

  ghost predicate Wording(j: Json, key: string) {
    j.JObject? && j.members.Keys == {key} && j.members[key].JString?
  }

  /** Objects the grammar keeps for something else than records. */
  ghost predicate Reserved(j: Json) {
    || Wording(j, "#bigint") || Wording(j, "#unserializable")
    || Listing(j, "#tup") || Listing(j, "#set") || Listing(j, "#map")
    || (j.JObject? && j.members.Keys == {"tag", "value"})
  }

  ghost predicate StandsFor(j: Json, v: Value, lenient: string -> Result<int>)
    decreases j, 1
  {
    match v
    case Null => j == JNull || Single(j, "#bigint", JString(""))
    case Bool(b) => j == JBool(b)
    case Str(s) => j == JString(s)
    case Int(i) => j == JInteger(i) || j == JFloat(i as real)
                   || (Wording(j, "#bigint") && Names(j.members["#bigint"].text, i, lenient))
    case Seq(xs) => j.JArray? && AllStand(j.items, xs, lenient)
    case Tuple(xs) => Listing(j, "#tup") && AllStand(j.members["#tup"].items, xs, lenient)
    case Set(xs) => Listing(j, "#set") && AllStand(j.members["#set"].items, xs, lenient)
    case Map(es) => Listing(j, "#map") && PairsStand(j.members["#map"].items, es, lenient)
    case Unserializable(text) => Single(j, "#unserializable", JString(text))
    case Variant(tag, x) =>
      j.JObject? && j.members.Keys == {"tag", "value"}
      && j.members["tag"] == JString(tag) && StandsFor(j.members["value"], x, lenient)
    case Record(fs) => j.JObject? && !Reserved(j) && FieldsStand(j.members, fs, lenient)
  }

  ghost predicate AllStand(items: seq<Json>, xs: seq<Value>, lenient: string -> Result<int>)
    decreases items, 2
  {
    |items| == |xs| && forall i :: 0 <= i < |xs| ==> StandsFor(items[i], xs[i], lenient)
  }

  ghost predicate PairStands(item: Json, e: Entry, lenient: string -> Result<int>)
    decreases item, 2
  {
    item.JArray? && |item.items| == 2
    && StandsFor(item.items[0], e.key, lenient) && StandsFor(item.items[1], e.value, lenient)
  }

  ghost predicate PairsStand(items: seq<Json>, es: seq<Entry>, lenient: string -> Result<int>)
    decreases items, 3
  {
    |items| == |es| && forall i :: 0 <= i < |es| ==> PairStands(items[i], es[i], lenient)
  }

  ghost predicate FieldsStand(m: map<string, Json>, fs: map<string, Value>, lenient: string -> Result<int>)
    decreases JObject(m), 0
  {
    m.Keys == fs.Keys && forall k :: k in m ==> StandsFor(m[k], fs[k], lenient)
  }

  // ----- numerals -----------------------------------------------------------------------

  /** Digits without a leading zero are the decimal text of what they denote. */
  lemma {:induction false} TextOfDigits(s: string)
    requires AllDigits(s) && |s| > 0 && (s[0] == '0' ==> |s| == 1)
    ensures NatText(NatValue(s)) == s
    ensures s[0] != '0' ==> NatValue(s) > 0
    decreases |s|
  {
    var high, d := s[..|s| - 1], s[|s| - 1] as int - '0' as int;
    if |s| > 1 {
      TextOfDigits(high);
      assert NatValue(s) / 10 == NatValue(high) && NatValue(s) % 10 == d;
      assert s == high + [Digit(d)];
    } else {
      assert high == [];
      assert s == [Digit(d)];
    }
  }

  /** The canonical numerals are the texts of the integers. */
  lemma {:induction false} CanonicalIsText(s: string)
    ensures Canonical(s) ==> IntText(IntValue(s)) == s
    ensures Canonical(s) <==> exists k :: s == IntText(k)
  {
    if Canonical(s) {
      TextOfDigits(if s[0] == '-' then s[1..] else s);
      assert s[0] == '-' ==> s == "-" + s[1..];
    }
    forall k | s == IntText(k) ensures Canonical(s) { IntRoundTrip(k); }
  }

  lemma {:induction false} BigintStands(s: string, v: Value, lenient: string -> Result<int>)
    ensures DecodeBigint(s, lenient) == Ok(v) <==> (v == Null && s == "") || (v.Int? && Names(s, v.i, lenient))
  {
    assert s == "" ==> !Numeral(s);
    hide IntText, IntValue, Numeral;
    CanonicalIsText(s);
    if v.Int? {
      IntRoundTrip(v.i);
      NumeralText(v.i);
    }
  }

  // ----- shapes ---------------------------------------------------------------------------

  lemma {:induction false} OneKey<T>(m: map<string, T>, key: string)
    ensures m.Keys == {key} <==> |m| == 1 && key in m
  {
    assert |m| == |m.Keys|;
    if |m| == 1 && key in m {
      var rest := m.Keys - {key};
      assert |rest| == 0;
      assert m.Keys == {key} + rest;
    }
  }

  lemma {:induction false} TwoKeys<T>(m: map<string, T>)
    ensures m.Keys == {"tag", "value"} <==> |m| == 2 && "tag" in m && "value" in m
  {
    assert |m| == |m.Keys|;
    if |m| == 2 && "tag" in m && "value" in m {
      var rest := m.Keys - {"tag", "value"};
      assert |rest| == 0;
      assert m.Keys == {"tag", "value"} + rest;
    }
  }

  lemma {:induction false} ShapesOfTheGrammar(m: map<string, Json>)
    ensures ShapeOf(m) == BigintShape <==> Wording(JObject(m), "#bigint")
    ensures ShapeOf(m) == UnserializableShape <==> Wording(JObject(m), "#unserializable")
    ensures ShapeOf(m) == TupleShape <==> Listing(JObject(m), "#tup")
    ensures ShapeOf(m) == SetShape <==> Listing(JObject(m), "#set")
    ensures ShapeOf(m) == MapShape <==> Listing(JObject(m), "#map")
    ensures ShapeOf(m) == VariantShape <==> m.Keys == {"tag", "value"}
    ensures ShapeOf(m) == RecordShape <==> !Reserved(JObject(m))
  {
    OneKey(m, "#bigint");
    OneKey(m, "#unserializable");
    OneKey(m, "#tup");
    OneKey(m, "#set");
    OneKey(m, "#map");
    TwoKeys(m);
  }

  // ----- the decoder follows the grammar --------------------------------------------------

  lemma {:induction false} ListDecodes(whole: Json, items: seq<Json>, xs: seq<Value>, lenient: string -> Result<int>)
    requires forall i :: 0 <= i < |items| ==> items[i] < whole
    ensures AllDecode(items, lenient) && DecodeAll(items, lenient) == xs <==> AllStand(items, xs, lenient)
    decreases whole, 0
  {
    hide Decode, StandsFor;
    forall i, x | 0 <= i < |items| ensures Decode(items[i], lenient) == Ok(x) <==> StandsFor(items[i], x, lenient) {
      DecodeIffStandsFor(items[i], x, lenient);
    }
    if AllStand(items, xs, lenient) {
      assert forall i :: 0 <= i < |items| ==> Decode(items[i], lenient) == Ok(xs[i]);
    }
    if AllDecode(items, lenient) && DecodeAll(items, lenient) == xs {
      forall i | 0 <= i < |items| ensures Decode(items[i], lenient) == Ok(xs[i]) {
        assert DecodeAll(items, lenient)[i] == Decode(items[i], lenient).value;
      }
    }
  }

  lemma {:induction false} PairDecodes(whole: Json, item: Json, e: Entry, lenient: string -> Result<int>)
    requires item < whole
    ensures PairStands(item, e, lenient)
       <==> item.JArray? && |item.items| == 2
            && Decode(item.items[0], lenient) == Ok(e.key) && Decode(item.items[1], lenient) == Ok(e.value)
    decreases whole, 0
  {
    hide Decode, StandsFor;
    if item.JArray? && |item.items| == 2 {
      DecodeIffStandsFor(item.items[0], e.key, lenient);
      DecodeIffStandsFor(item.items[1], e.value, lenient);
    }
  }

  lemma {:induction false} PairsDecodeAsGiven(whole: Json, items: seq<Json>, es: seq<Entry>, lenient: string -> Result<int>)
    requires forall i :: 0 <= i < |items| ==> items[i] < whole
    ensures PairsDecode(items, lenient) && DecodePairs(items, lenient) == es <==> PairsStand(items, es, lenient)
    decreases whole, 1
  {
    hide Decode, StandsFor, PairStands;
    if |items| == |es| {
      forall i | 0 <= i < |items|
        ensures PairStands(items[i], es[i], lenient)
           <==> items[i].JArray? && |items[i].items| == 2
                && Decode(items[i].items[0], lenient) == Ok(es[i].key) && Decode(items[i].items[1], lenient) == Ok(es[i].value)
      {
        PairDecodes(whole, items[i], es[i], lenient);
      }
      if PairsDecode(items, lenient) && DecodePairs(items, lenient) == es {
        forall i | 0 <= i < |items| ensures PairStands(items[i], es[i], lenient) {
          assert DecodePairs(items, lenient)[i] == es[i];
        }
      }
    }
  }

  lemma {:induction false} FieldsDecodeAsGiven(whole: Json, m: map<string, Json>, fs: map<string, Value>, lenient: string -> Result<int>)
    requires forall k :: k in m ==> m[k] < whole
    ensures FieldsDecode(m, lenient) && DecodeFields(m, lenient) == fs <==> FieldsStand(m, fs, lenient)
    decreases whole, 0
  {
    hide Decode, StandsFor;
    forall k, x | k in m ensures Decode(m[k], lenient) == Ok(x) <==> StandsFor(m[k], x, lenient) {
      DecodeIffStandsFor(m[k], x, lenient);
    }
    if FieldsStand(m, fs, lenient) {
      assert forall k :: k in m ==> Decode(m[k], lenient) == Ok(fs[k]);
    }
    if FieldsDecode(m, lenient) && DecodeFields(m, lenient) == fs {
      forall k | k in m ensures Decode(m[k], lenient) == Ok(fs[k]) {
        assert DecodeFields(m, lenient)[k] == Decode(m[k], lenient).value;
      }
    }
  }

  /** Decoding yields a value exactly when the tree stands for it. */
  lemma {:induction false} DecodeIffStandsFor(j: Json, v: Value, lenient: string -> Result<int>)
    ensures Decode(j, lenient) == Ok(v) <==> StandsFor(j, v, lenient)
    decreases j, 4
  {
    hide ShapeOf, Names, Reserved, DecodeBigint, AllStand, AllDecode, PairsDecode, FieldsDecode, PairsStand, FieldsStand;
    match j
    case JArray(items) => if v.Seq? { ListDecodes(j, items, v.elems, lenient); }
    case JObject(m) => ObjectDecodes(j, v, lenient);
    case JFloat(r) => if v.Int? { assert (v.i as real).Floor == v.i; }
    case _ =>
  }

  lemma {:induction false} ObjectDecodes(j: Json, v: Value, lenient: string -> Result<int>)
    requires j.JObject?
    ensures Decode(j, lenient) == Ok(v) <==> StandsFor(j, v, lenient)
    decreases j, 3
  {
    hide ShapeOf, Names, Reserved, DecodeBigint, AllStand, AllDecode, PairsDecode, FieldsDecode, PairsStand, FieldsStand;
    var m := j.members;
    ShapesOfTheGrammar(m);
    match ShapeOf(m)
    case BigintShape => WordDecodes(j, v, lenient);
    case UnserializableShape => WordDecodes(j, v, lenient);
    case TupleShape => if v.Tuple? { ListDecodes(j, m["#tup"].items, v.elems, lenient); }
    case SetShape => if v.Set? { ListDecodes(j, m["#set"].items, v.elems, lenient); }
    case MapShape => if v.Map? { PairsDecodeAsGiven(j, m["#map"].items, v.entries, lenient); }
    case VariantShape => if v.Variant? { DecodeIffStandsFor(m["value"], v.value, lenient); }
    case RecordShape => if v.Record? { FieldsDecodeAsGiven(j, m, v.fields, lenient); }
  }

  lemma {:induction false} WordDecodes(j: Json, v: Value, lenient: string -> Result<int>)
    requires j.JObject? && (ShapeOf(j.members).BigintShape? || ShapeOf(j.members).UnserializableShape?)
    ensures Decode(j, lenient) == Ok(v) <==> StandsFor(j, v, lenient)
  {
    hide ShapeOf, Names, Reserved, DecodeBigint, AllStand, PairsStand, FieldsStand;
    var m := j.members;
    ShapesOfTheGrammar(m);
    if ShapeOf(m) == BigintShape { BigintStands(m["#bigint"].text, v, lenient); }
  }

  /** What is encoded stands for its value exactly when no record inside it mimics a marker. */
  lemma {:induction false} EncodedStandsFor(v: Value, lenient: string -> Result<int>)
    ensures StandsFor(Encode(v), v, lenient) <==> Unambiguous(v)
  {
    hide Encode, Decode, StandsFor, Unambiguous;
    DecodeIffStandsFor(Encode(v), v, lenient);
    RoundTrip(v, lenient);
  }

  /** A tree stands for at most one value. */
  lemma {:induction false} GrammarIsUnambiguous(j: Json, v: Value, w: Value, lenient: string -> Result<int>)
    requires StandsFor(j, v, lenient) && StandsFor(j, w, lenient)
    ensures v == w
  {
    hide Decode, StandsFor;
    DecodeIffStandsFor(j, v, lenient);
    DecodeIffStandsFor(j, w, lenient);
  }

  /** A state is decoded exactly from an object with its variables, each standing for its value. */
  lemma {:induction false} StateIffStandsFor(j: Json, s: VarState, lenient: string -> Result<int>)
    ensures DecodeState(j, lenient) == Ok(s) <==> j.JObject? && FieldsStand(j.members, s, lenient)
  {
    hide Decode, StandsFor, FieldsDecode, FieldsStand;
    if j.JObject? {
      FieldsDecodeAsGiven(j, j.members, s, lenient);
    }
  }
}
