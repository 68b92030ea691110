/** The ITF JSON codec: values to JSON trees and back. Records are plain objects, so a record
    that looks like a marker object is read back as something else; everything else round-trips. */
module ItfCodec {
  import opened Decimals
  import opened Values

  /** A JSON tree; finite floating-point numbers are exact reals. */
  datatype Json =
    | JNull
    | JBool(b: bool)
    | JString(text: string)
    | JInteger(i: int)
    | JFloat(r: real)
    | JNonFinite
    | JArray(items: seq<Json>)
    | JObject(members: map<string, Json>)

  /** A value, or an exception. */
  datatype Result<+T> = Ok(value: T) | Malformed

  function Encode(v: Value): Json
    decreases v, 0
  {
    match v
    case Null => JNull
    case Int(i) => JObject(map["#bigint" := JString(IntText(i))])
    case Bool(b) => JBool(b)
    case Str(s) => JString(s)
    case Set(xs) => JObject(map["#set" := JArray(EncodeAll(xs))])
    case Seq(xs) => JArray(EncodeAll(xs))
    case Tuple(xs) => JObject(map["#tup" := JArray(EncodeAll(xs))])
    case Record(fs) => JObject(map k | k in fs :: Encode(fs[k]))
    case Map(es) =>
      JObject(map["#map" := JArray(EncodePairs(es))])
    case Variant(tag, x) => JObject(map["tag" := JString(tag), "value" := Encode(x)])
    case Unserializable(text) => JObject(map["#unserializable" := JString(text)])
  }

  function EncodeAll(xs: seq<Value>): (items: seq<Json>)
    ensures |items| == |xs| && forall i :: 0 <= i < |xs| ==> items[i] == Encode(xs[i])
    decreases xs, 1
  {
    seq(|xs|, i requires 0 <= i < |xs| => Encode(xs[i]))
  }

  function EncodePair(e: Entry): Json
    decreases e, 1
  {
    JArray([Encode(e.key), Encode(e.value)])
  }

  function EncodePairs(es: seq<Entry>): (items: seq<Json>)
    ensures |items| == |es| && forall i :: 0 <= i < |es| ==> items[i] == EncodePair(es[i])
    decreases es, 2
  {
    seq(|es|, i requires 0 <= i < |es| => EncodePair(es[i]))
  }

  /** Reading the text of a `#bigint`. How a non-canonical numeral such as `007` is read, or that
      it is not, is the big-integer library's business, given here as `lenient`. */
  function DecodeBigint(s: string, lenient: string -> Result<int>): Result<Value> {
    if s == "" then Ok(Null)
    else if !Numeral(s) then Malformed
    else if Canonical(s) then Ok(Int(IntValue(s)))
    else if lenient(s).Ok? then Ok(Int(lenient(s).value))
    else Malformed
  }

  /** What an object stands for: a marker has exactly its one key and the payload it expects,
      a variant exactly its two keys; every other object is a record. */
  datatype Shape = BigintShape | TupleShape | SetShape | MapShape | UnserializableShape | VariantShape | RecordShape

  function ShapeOf(m: map<string, Json>): (shape: Shape)
    ensures shape == BigintShape ==> "#bigint" in m && m["#bigint"].JString?
    ensures shape == TupleShape ==> "#tup" in m && m["#tup"].JArray?
    ensures shape == SetShape ==> "#set" in m && m["#set"].JArray?
    ensures shape == MapShape ==> "#map" in m && m["#map"].JArray?
    ensures shape == UnserializableShape ==> "#unserializable" in m && m["#unserializable"].JString?
    ensures shape == VariantShape ==> "tag" in m && "value" in m
  {
    if |m| == 1 && "#bigint" in m && m["#bigint"].JString? then BigintShape
    else if |m| == 1 && "#tup" in m && m["#tup"].JArray? then TupleShape
    else if |m| == 1 && "#set" in m && m["#set"].JArray? then SetShape
    else if |m| == 1 && "#map" in m && m["#map"].JArray? then MapShape
    else if |m| == 1 && "#unserializable" in m && m["#unserializable"].JString? then UnserializableShape
    else if |m| == 2 && "tag" in m && "value" in m then VariantShape
    else RecordShape
  }

  predicate AllDecode(items: seq<Json>, lenient: string -> Result<int>)
    decreases items, 1
  {
    forall i :: 0 <= i < |items| ==> Decode(items[i], lenient).Ok?
  }

  function DecodeAll(items: seq<Json>, lenient: string -> Result<int>): (vs: seq<Value>)
    requires AllDecode(items, lenient)
    ensures |vs| == |items| && forall i :: 0 <= i < |items| ==> vs[i] == Decode(items[i], lenient).value
    decreases items, 2
  {
    seq(|items|, i requires 0 <= i < |items| => Decode(items[i], lenient).value)
  }

  predicate PairsDecode(items: seq<Json>, lenient: string -> Result<int>)
    decreases items, 1
  {
    forall i :: 0 <= i < |items| ==>
      && items[i].JArray? && |items[i].items| == 2
      && Decode(items[i].items[0], lenient).Ok? && Decode(items[i].items[1], lenient).Ok?
  }

  function DecodePairs(items: seq<Json>, lenient: string -> Result<int>): (es: seq<Entry>)
    requires PairsDecode(items, lenient)
    ensures |es| == |items|
    ensures forall i :: 0 <= i < |items| ==>
              es[i] == Entry(Decode(items[i].items[0], lenient).value, Decode(items[i].items[1], lenient).value)
    decreases items, 2
  {
    seq(|items|, i requires 0 <= i < |items| =>
      Entry(Decode(items[i].items[0], lenient).value, Decode(items[i].items[1], lenient).value))
  }

  predicate FieldsDecode(m: map<string, Json>, lenient: string -> Result<int>)
    decreases JObject(m), 1
  {
    forall k :: k in m ==> Decode(m[k], lenient).Ok?
  }

  function DecodeFields(m: map<string, Json>, lenient: string -> Result<int>): (fs: map<string, Value>)
    requires FieldsDecode(m, lenient)
    ensures fs.Keys == m.Keys && forall k :: k in m ==> fs[k] == Decode(m[k], lenient).value
    decreases JObject(m), 2
  {
    map k | k in m :: Decode(m[k], lenient).value
  }

  function Decode(j: Json, lenient: string -> Result<int>): Result<Value>
    decreases j, 3
  {
    match j
    case JNull => Ok(Null)
    case JBool(b) => Ok(Bool(b))
    case JString(s) => Ok(Str(s))
    case JInteger(i) => Ok(Int(i))
    case JFloat(r) => if r.Floor as real == r then Ok(Int(r.Floor)) else Malformed
    case JNonFinite => Malformed
    case JArray(items) => if AllDecode(items, lenient) then Ok(Seq(DecodeAll(items, lenient))) else Malformed
    case JObject(m) =>
      match ShapeOf(m)
      case BigintShape => DecodeBigint(m["#bigint"].text, lenient)
      case TupleShape =>
        if AllDecode(m["#tup"].items, lenient) then Ok(Tuple(DecodeAll(m["#tup"].items, lenient))) else Malformed
      case SetShape =>
        if AllDecode(m["#set"].items, lenient) then Ok(Set(DecodeAll(m["#set"].items, lenient))) else Malformed
      case MapShape =>
        if PairsDecode(m["#map"].items, lenient) then Ok(Map(DecodePairs(m["#map"].items, lenient))) else Malformed
      case UnserializableShape => Ok(Unserializable(m["#unserializable"].text))
      case VariantShape =>
        if m["tag"].JString? && Decode(m["value"], lenient).Ok?
        then Ok(Variant(m["tag"].text, Decode(m["value"], lenient).value)) else Malformed
      case RecordShape => if FieldsDecode(m, lenient) then Ok(Record(DecodeFields(m, lenient))) else Malformed
  }

  function EncodeState(s: VarState): Json {
    JObject(map k | k in s :: Encode(s[k]))
  }

  function DecodeState(j: Json, lenient: string -> Result<int>): Result<VarState> {
    if !j.JObject? then Malformed
    else if FieldsDecode(j.members, lenient) then Ok(DecodeFields(j.members, lenient)) else Malformed
  }

  // ----- which values survive --------------------------------------------------------

  /** A record whose encoding is read as a marker or a variant. */
  predicate MarkerShaped(fs: map<string, Value>) {
    || (|fs| == 1 && "#bigint" in fs && fs["#bigint"].Str?)
    || (|fs| == 1 && "#unserializable" in fs && fs["#unserializable"].Str?)
    || (|fs| == 1 && "#tup" in fs && fs["#tup"].Seq?)
    || (|fs| == 1 && "#set" in fs && fs["#set"].Seq?)
    || (|fs| == 1 && "#map" in fs && fs["#map"].Seq?)
    || (|fs| == 2 && "tag" in fs && "value" in fs)
  }

  /** No record inside `v` is marker-shaped. */
  predicate Unambiguous(v: Value)
    decreases v
  {
    match v
    case Set(xs) => forall i :: 0 <= i < |xs| ==> Unambiguous(xs[i])
    case Seq(xs) => forall i :: 0 <= i < |xs| ==> Unambiguous(xs[i])
    case Tuple(xs) => forall i :: 0 <= i < |xs| ==> Unambiguous(xs[i])
    case Record(fs) => !MarkerShaped(fs) && forall k :: k in fs ==> Unambiguous(fs[k])
    case Map(es) => forall i :: 0 <= i < |es| ==> Unambiguous(es[i].key) && Unambiguous(es[i].value)
    case Variant(_, x) => Unambiguous(x)
    case _ => true
  }

  predicate Survives(v: Value, lenient: string -> Result<int>) {
    Decode(Encode(v), lenient) == Ok(v)
  }

  lemma {:induction false} ListSurvives(xs: seq<Value>, lenient: string -> Result<int>)
    ensures (AllDecode(EncodeAll(xs), lenient) && DecodeAll(EncodeAll(xs), lenient) == xs)
       <==> forall i :: 0 <= i < |xs| ==> Survives(xs[i], lenient)
  {
    hide Encode, Decode;
    var items := EncodeAll(xs);
    if AllDecode(items, lenient) && DecodeAll(items, lenient) == xs {
      forall i | 0 <= i < |xs| ensures Survives(xs[i], lenient) {
        assert DecodeAll(items, lenient)[i] == Decode(items[i], lenient).value;
      }
    }
    if forall i :: 0 <= i < |xs| ==> Survives(xs[i], lenient) {
      forall i | 0 <= i < |items| ensures Decode(items[i], lenient) == Ok(xs[i]) {
        assert Survives(xs[i], lenient);
      }
    }
  }

  lemma {:induction false} PairsSurvive(es: seq<Entry>, lenient: string -> Result<int>)
    ensures (PairsDecode(EncodePairs(es), lenient) && DecodePairs(EncodePairs(es), lenient) == es)
       <==> forall i :: 0 <= i < |es| ==> Survives(es[i].key, lenient) && Survives(es[i].value, lenient)
  {
    hide Encode, Decode;
    var items := EncodePairs(es);
    if PairsDecode(items, lenient) && DecodePairs(items, lenient) == es {
      forall i | 0 <= i < |es| ensures Survives(es[i].key, lenient) && Survives(es[i].value, lenient) {
        assert DecodePairs(items, lenient)[i] == es[i];
      }
    }
    if forall i :: 0 <= i < |es| ==> Survives(es[i].key, lenient) && Survives(es[i].value, lenient) {
      forall i | 0 <= i < |items|
        ensures Decode(items[i].items[0], lenient) == Ok(es[i].key) && Decode(items[i].items[1], lenient) == Ok(es[i].value)
      {
        assert Survives(es[i].key, lenient) && Survives(es[i].value, lenient);
      }
    }
  }

  /** The members of an encoded record. */
  function EncodeFields(fs: map<string, Value>): (m: map<string, Json>)
    ensures m.Keys == fs.Keys && |m| == |fs| && forall k :: k in fs ==> m[k] == Encode(fs[k])
  {
    var m := map k | k in fs :: Encode(fs[k]);
    assert m.Keys == fs.Keys;
    assert |m.Keys| == |m| && |fs.Keys| == |fs|;
    m
  }

  /** Only string values are encoded as JSON strings, only sequences as JSON arrays. */
  lemma {:induction false} StringsAndLists(v: Value)
    ensures (Encode(v).JString? <==> v.Str?) && (Encode(v).JArray? <==> v.Seq?)
  {
  }

  /** The shape test on the JSON side sees exactly the marker-shaped records. */
  lemma {:induction false} ShapeOfRecord(fs: map<string, Value>)
    ensures ShapeOf(EncodeFields(fs)) == RecordShape <==> !MarkerShaped(fs)
  {
    hide Encode;
    forall k | k in fs
      ensures (EncodeFields(fs)[k].JString? <==> fs[k].Str?) && (EncodeFields(fs)[k].JArray? <==> fs[k].Seq?)
    {
      StringsAndLists(fs[k]);
    }
  }

  lemma {:induction false} ObjectOfRecord(fs: map<string, Value>)
    ensures Encode(Record(fs)) == JObject(EncodeFields(fs))
  {
    assert Encode(Record(fs)).members == EncodeFields(fs);
  }

  lemma {:induction false} DecodeShaped(m: map<string, Json>, lenient: string -> Result<int>)
    ensures ShapeOf(m) != RecordShape ==> Decode(JObject(m), lenient).Malformed? || !Decode(JObject(m), lenient).value.Record?
    ensures ShapeOf(m) == RecordShape ==>
              Decode(JObject(m), lenient)
              == if FieldsDecode(m, lenient) then Ok(Record(DecodeFields(m, lenient))) else Malformed
  {
    hide ShapeOf;
  }

  lemma {:induction false} FieldsSurvive(fs: map<string, Value>, lenient: string -> Result<int>)
    ensures (FieldsDecode(EncodeFields(fs), lenient) && DecodeFields(EncodeFields(fs), lenient) == fs)
       <==> forall k :: k in fs ==> Survives(fs[k], lenient)
  {
    hide Encode, Decode;
    var m := EncodeFields(fs);
    if FieldsDecode(m, lenient) && DecodeFields(m, lenient) == fs {
      forall k | k in fs ensures Survives(fs[k], lenient) { assert DecodeFields(m, lenient)[k] == fs[k]; }
    }
    if forall k :: k in fs ==> Survives(fs[k], lenient) {
      forall k | k in fs ensures Decode(m[k], lenient) == Ok(fs[k]) { assert Survives(fs[k], lenient); }
    }
  }

  /** A record comes back exactly when it is not marker-shaped and all its fields come back. */
  lemma {:induction false} RecordSurvives(fs: map<string, Value>, lenient: string -> Result<int>)
    ensures Survives(Record(fs), lenient) <==> !MarkerShaped(fs) && forall k :: k in fs ==> Survives(fs[k], lenient)
  {
    hide Encode, Decode, ShapeOf, MarkerShaped;
    var m := EncodeFields(fs);
    ShapeOfRecord(fs);
    ObjectOfRecord(fs);
    DecodeShaped(m, lenient);
    FieldsSurvive(fs, lenient);
  }

  /** The objects that encode markers are read back as those markers. */
  lemma {:induction false} MarkerShapes(j: Json, tag: string, x: Json)
    ensures j.JString? ==> ShapeOf(map["#bigint" := j]) == BigintShape
    ensures j.JString? ==> ShapeOf(map["#unserializable" := j]) == UnserializableShape
    ensures j.JArray? ==> ShapeOf(map["#tup" := j]) == TupleShape
    ensures j.JArray? ==> ShapeOf(map["#set" := j]) == SetShape
    ensures j.JArray? ==> ShapeOf(map["#map" := j]) == MapShape
    ensures ShapeOf(map["tag" := JString(tag), "value" := x]) == VariantShape
  {
    assert "#bigint" != "#unserializable" && "#tup" != "#set" && "#tup" != "#map" && "#set" != "#map" && "tag" != "value";
    var variant := map["tag" := JString(tag), "value" := x];
    assert variant.Keys == {"tag", "value"} && |variant| == |variant.Keys|;
  }

  /** The round trip, one kind of value at a time. */
  lemma {:induction false} LeafSurvives(v: Value, lenient: string -> Result<int>)
    requires v.Null? || v.Int? || v.Bool? || v.Str? || v.Unserializable?
    ensures Survives(v, lenient)
  {
    hide ShapeOf, IntText, IntValue, Numeral;
    match v
    case Int(i) =>
      IntRoundTrip(i);
      NumeralText(i);
      MarkerShapes(JString(IntText(i)), "", JNull);
    case Unserializable(text) => MarkerShapes(JString(text), "", JNull);
    case _ =>
  }

  lemma {:induction false} NumeralText(i: int)
    ensures Numeral(IntText(i)) && IntText(i) != ""
  {
    IntRoundTrip(i);
  }

  lemma {:induction false} CollectionSurvives(v: Value, lenient: string -> Result<int>)
    requires v.Set? || v.Seq? || v.Tuple?
    ensures Survives(v, lenient) <==> forall i :: 0 <= i < |v.elems| ==> Survives(v.elems[i], lenient)
  {
    hide ShapeOf;
    MarkerShapes(JArray(EncodeAll(v.elems)), "", JNull);
    ListSurvives(v.elems, lenient);
  }

  lemma {:induction false} MapSurvives(es: seq<Entry>, lenient: string -> Result<int>)
    ensures Survives(Map(es), lenient)
       <==> forall i :: 0 <= i < |es| ==> Survives(es[i].key, lenient) && Survives(es[i].value, lenient)
  {
    hide ShapeOf;
    MarkerShapes(JArray(EncodePairs(es)), "", JNull);
    PairsSurvive(es, lenient);
  }

  lemma {:induction false} VariantSurvives(tag: string, x: Value, lenient: string -> Result<int>)
    ensures Survives(Variant(tag, x), lenient) <==> Survives(x, lenient)
  {
    hide ShapeOf;
    MarkerShapes(JNull, tag, Encode(x));
  }

  /** The round trip is the identity exactly on the values without a marker-shaped record. */
  lemma {:induction false} RoundTrip(v: Value, lenient: string -> Result<int>)
    ensures Decode(Encode(v), lenient) == Ok(v) <==> Unambiguous(v)
    decreases v
  {
    assert Survives(v, lenient) <==> Decode(Encode(v), lenient) == Ok(v);
    hide Encode, Decode, Survives, MarkerShaped;
    match v
    case Set(xs) =>
      forall i | 0 <= i < |xs| ensures Survives(xs[i], lenient) <==> Unambiguous(xs[i]) { RoundTripAgain(xs[i], v, lenient); }
      CollectionSurvives(v, lenient);
    case Seq(xs) =>
      forall i | 0 <= i < |xs| ensures Survives(xs[i], lenient) <==> Unambiguous(xs[i]) { RoundTripAgain(xs[i], v, lenient); }
      CollectionSurvives(v, lenient);
    case Tuple(xs) =>
      forall i | 0 <= i < |xs| ensures Survives(xs[i], lenient) <==> Unambiguous(xs[i]) { RoundTripAgain(xs[i], v, lenient); }
      CollectionSurvives(v, lenient);
    case Record(fs) =>
      forall k | k in fs ensures Survives(fs[k], lenient) <==> Unambiguous(fs[k]) { RoundTripAgain(fs[k], v, lenient); }
      RecordSurvives(fs, lenient);
    case Map(es) =>
      forall i | 0 <= i < |es|
        ensures (Survives(es[i].key, lenient) <==> Unambiguous(es[i].key))
                && (Survives(es[i].value, lenient) <==> Unambiguous(es[i].value))
      {
        RoundTripAgain(es[i].key, v, lenient);
        RoundTripAgain(es[i].value, v, lenient);
      }
      MapSurvives(es, lenient);
    case Variant(tag, x) =>
      RoundTripAgain(x, v, lenient);
      VariantSurvives(tag, x, lenient);
    case _ => LeafSurvives(v, lenient);
  }

  lemma {:induction false} RoundTripAgain(part: Value, whole: Value, lenient: string -> Result<int>)
    requires part < whole
    ensures Survives(part, lenient) <==> Unambiguous(part)
    decreases whole, 0
  {
    hide Encode, Decode, Unambiguous;
    RoundTrip(part, lenient);
  }

  // ----- decoded values ---------------------------------------------------------------------

  /** Whatever was decoded holds no marker-shaped record. */
  lemma {:induction false} DecodedIsUnambiguous(j: Json, lenient: string -> Result<int>)
    requires Decode(j, lenient).Ok?
    ensures Unambiguous(Decode(j, lenient).value)
    decreases j, 1
  {
    hide ShapeOf, MarkerShaped, IntValue, Canonical, Numeral;
    match j
    case JArray(items) => DecodedList(j, items, lenient);
    case JObject(m) => DecodedObject(j, lenient);
    case _ =>
  }

  lemma {:induction false} DecodedObject(j: Json, lenient: string -> Result<int>)
    requires j.JObject? && Decode(j, lenient).Ok?
    ensures Unambiguous(Decode(j, lenient).value)
    decreases j, 0, 1
  {
    hide ShapeOf, MarkerShaped, IntValue, Canonical, Numeral;
    var m := j.members;
    match ShapeOf(m)
    case TupleShape => DecodedList(j, m["#tup"].items, lenient);
    case SetShape => DecodedList(j, m["#set"].items, lenient);
    case MapShape => DecodedPairs(j, m["#map"].items, lenient);
    case VariantShape => DecodedIsUnambiguous(m["value"], lenient);
    case RecordShape =>
      DecodedFields(j, lenient);
      DecodedRecord(m, lenient);
    case _ =>
  }

  lemma {:induction false} DecodedFields(j: Json, lenient: string -> Result<int>)
    requires j.JObject? && FieldsDecode(j.members, lenient)
    ensures forall k :: k in j.members ==> Unambiguous(DecodeFields(j.members, lenient)[k])
    decreases j, 0, 0
  {
    hide Decode, Unambiguous;
    forall k | k in j.members ensures Unambiguous(DecodeFields(j.members, lenient)[k]) {
      DecodedIsUnambiguous(j.members[k], lenient);
    }
  }

  lemma {:induction false} DecodedPairs(j: Json, items: seq<Json>, lenient: string -> Result<int>)
    requires PairsDecode(items, lenient) && forall i :: 0 <= i < |items| ==> items[i] < j
    ensures forall i :: 0 <= i < |items| ==>
              Unambiguous(DecodePairs(items, lenient)[i].key) && Unambiguous(DecodePairs(items, lenient)[i].value)
    decreases j, 0, 0
  {
    hide Decode, Unambiguous;
    forall i | 0 <= i < |items|
      ensures Unambiguous(DecodePairs(items, lenient)[i].key) && Unambiguous(DecodePairs(items, lenient)[i].value)
    {
      var pair := items[i];
      DecodedIsUnambiguous(pair.items[0], lenient);
      DecodedIsUnambiguous(pair.items[1], lenient);
    }
  }

  lemma {:induction false} DecodedList(j: Json, items: seq<Json>, lenient: string -> Result<int>)
    requires AllDecode(items, lenient) && forall i :: 0 <= i < |items| ==> items[i] < j
    ensures forall i :: 0 <= i < |items| ==> Unambiguous(DecodeAll(items, lenient)[i])
    decreases j, 0, 0
  {
    hide Decode, Unambiguous;
    forall i | 0 <= i < |items| ensures Unambiguous(DecodeAll(items, lenient)[i]) { DecodedIsUnambiguous(items[i], lenient); }
  }

  /** Decoding yields strings only from JSON strings and sequences only from JSON arrays, so a
      record that was not a marker on the JSON side is not marker-shaped either. */
  lemma {:induction false} DecodedRecord(m: map<string, Json>, lenient: string -> Result<int>)
    requires ShapeOf(m) == RecordShape && FieldsDecode(m, lenient)
    ensures !MarkerShaped(DecodeFields(m, lenient))
  {
    hide Decode;
    var fs := DecodeFields(m, lenient);
    assert |fs.Keys| == |fs| && |m.Keys| == |m|;
    forall k | k in m ensures (fs[k].Str? ==> m[k].JString?) && (fs[k].Seq? ==> m[k].JArray?) {
      DecodedKinds(m[k], lenient);
    }
  }

  lemma {:induction false} DecodedKinds(j: Json, lenient: string -> Result<int>)
    ensures Decode(j, lenient).Ok? && Decode(j, lenient).value.Str? ==> j.JString?
    ensures Decode(j, lenient).Ok? && Decode(j, lenient).value.Seq? ==> j.JArray?
  {
    hide ShapeOf, IntValue, Canonical, Numeral;
  }

  /** Re-encoding a decoded value and decoding it again gives the same value. */
  lemma {:induction false} DecodeIsStable(j: Json, lenient: string -> Result<int>)
    requires Decode(j, lenient).Ok?
    ensures Decode(Encode(Decode(j, lenient).value), lenient) == Decode(j, lenient)
  {
    hide Encode, Decode, Unambiguous;
    DecodedIsUnambiguous(j, lenient);
    RoundTrip(Decode(j, lenient).value, lenient);
  }

  /** A state round-trips exactly when all its values do, whatever its variables are called. */
  lemma {:induction false} StateRoundTrip(s: VarState, lenient: string -> Result<int>)
    ensures DecodeState(EncodeState(s), lenient) == Ok(s) <==> forall k :: k in s ==> Unambiguous(s[k])
  {
    hide Encode, Decode, Unambiguous;
    assert EncodeState(s) == JObject(EncodeFields(s)) by {
      assert EncodeState(s).members == EncodeFields(s);
    }
    FieldsSurvive(s, lenient);
    forall k | k in s ensures Survives(s[k], lenient) <==> Unambiguous(s[k]) { RoundTrip(s[k], lenient); }
  }

  /** Why no decoder could do better: a marker-shaped record and the value it mimics have one
      and the same encoding, so the record is read back as the integer. */
  lemma {:induction false} MarkerRecordIsLost(i: int, lenient: string -> Result<int>)
    ensures Encode(Record(map["#bigint" := Str(IntText(i))])) == Encode(Int(i))
    ensures Decode(Encode(Record(map["#bigint" := Str(IntText(i))])), lenient) == Ok(Int(i))
  {
    var fs := map["#bigint" := Str(IntText(i))];
    assert Encode(fs["#bigint"]) == JString(IntText(i));
    ObjectOfRecord(fs);
    assert EncodeFields(fs) == map["#bigint" := JString(IntText(i))];
    hide Encode, Decode;
    RoundTrip(Int(i), lenient);
  }
}
