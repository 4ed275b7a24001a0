/*******************************************************************************
 *  The envelope every sink sends: a type label plus the payload, serialized
 *  as the JSON object `{"type": <label>, "data": <payload>}`.
 *
 *  JSON is modelled as a value tree; the serializer of a payload type is a
 *  parameter that may fail with a message, as `serde_json` may.
 *******************************************************************************/

module Envelope {
  import opened Primitives

  /** A JSON value; object members keep their insertion order. */
  datatype Json =
    | Null
    | Bool(b: bool)
    | Number(n: int)
    | String(s: string)
    | Array(items: seq<Json>)
    | Object(members: seq<(string, Json)>)

  /** The serializer of a payload type: the payload's JSON, or an error message. */
  type Serializer<-T> = T -> Result<Json, string>

  /** The keys of an object's members, in order. */
  function Keys(members: seq<(string, Json)>): (r: seq<string>)
    ensures |r| == |members|
    ensures forall i :: 0 <= i < |members| ==> r[i] == members[i].0
  {
    seq(|members|, i requires 0 <= i < |members| => members[i].0)
  }

  /** The value of the first member named `key`, if any. */
  function Field(members: seq<(string, Json)>, key: string): (r: Option<Json>)
    ensures r.Some? <==> key in Keys(members)
    decreases |members|
  {
    if |members| == 0 then None
    else if members[0].0 == key then Some(members[0].1)
    else
      assert Keys(members) == [members[0].0] + Keys(members[1..]);
      Field(members[1..], key)
  }

  /** `StreamEnvelope<T>`: the label (`data_type`, serialized as `type`) and the payload. */
  datatype StreamEnvelope<T> = StreamEnvelope(dataType: string, data: T)

  /** `StreamEnvelope::new`. */
  function New<T>(dataType: string, data: T): (e: StreamEnvelope<T>)
    ensures e.dataType == dataType && e.data == data
  {
    StreamEnvelope(dataType, data)
  }

  // ---------------------------------------------------------------------------
  // from_type_name: the segment after the last "::"
  // ---------------------------------------------------------------------------

  /** `s` has the separator "::" starting at index `i`. */
  predicate SepAt(s: string, i: int)
  {
    0 <= i && i + 1 < |s| && s[i] == ':' && s[i + 1] == ':'
  }

  /** The index just past the last "::" that ends within the first `n`
      characters of `s`, or 0 when there is none (`rsplit("::").next()`
      searches from the right). */
  function SplitPoint(s: string, n: nat): (p: nat)
    requires n <= |s|
    ensures p <= n
    ensures p == 0 || (p >= 2 && SepAt(s, p - 2))
    ensures forall i :: p - 1 <= i && i + 2 <= n ==> !SepAt(s, i)
    decreases n
  {
    if n < 2 then 0
    else if SepAt(s, n - 2) then n
    else SplitPoint(s, n - 1)
  }

  /** The label `from_type_name` derives from a full type path: the part after
      the last "::", or the whole path when it has none. */
  function LastSegment(name: string): (r: string)
    ensures |r| <= |name| && r == name[|name| - |r|..]
    ensures |r| == |name| || SepAt(name, |name| - |r| - 2)
    ensures forall i :: |name| - |r| - 1 <= i ==> !SepAt(name, i)
    ensures forall i :: !SepAt(r, i)
  {
    var p := SplitPoint(name, |name|);
    assert forall i :: !SepAt(name[p..], i) by {
      forall i | SepAt(name[p..], i) ensures false {
        assert SepAt(name, p + i);
      }
    }
    name[p..]
  }

  /** The conditions of `LastSegment`'s contract pin the label down: any split
      point that follows the last separator gives the same label. */
  lemma LastSegmentUnique(name: string, p: nat)
    requires p <= |name|
    requires p == 0 || (p >= 2 && SepAt(name, p - 2))
    requires forall i :: p - 1 <= i ==> !SepAt(name, i)
    ensures LastSegment(name) == name[p..]
  {
    var q := |name| - |LastSegment(name)|;
    assert q == p;
  }

  /** A name without "::" is its own label. */
  lemma LastSegmentOfPlainName(name: string)
    requires forall i :: !SepAt(name, i)
    ensures LastSegment(name) == name
  {
    LastSegmentUnique(name, 0);
  }

  /** Taking the label twice is taking it once. */
  lemma LastSegmentIdempotent(name: string)
    ensures LastSegment(LastSegment(name)) == LastSegment(name)
  {
    LastSegmentOfPlainName(LastSegment(name));
  }

  /** The label of `prefix::segment` is `segment` when the segment has no colon. */
  lemma LastSegmentOfPath(prefix: string, segment: string)
    requires forall j :: 0 <= j < |segment| ==> segment[j] != ':'
    ensures LastSegment(prefix + "::" + segment) == segment
  {
    var name := prefix + "::" + segment;
    var p := |prefix| + 2;
    assert SepAt(name, p - 2);
    forall i | p - 1 <= i
      ensures !SepAt(name, i)
    {
      if p <= i < |name| {
        assert name[i] == segment[i - p];
      } else if i + 1 < |name| {
        assert name[i + 1] == segment[0];
      }
    }
    LastSegmentUnique(name, p);
    assert name[p..] == segment;
  }

  /** `StreamEnvelope::from_type_name`, given the full path the compiler
      reports for the payload type. */
  function FromTypeName<T>(typePath: string, data: T): (e: StreamEnvelope<T>)
    ensures e.data == data
    ensures e.dataType == LastSegment(typePath)
  {
    StreamEnvelope(LastSegment(typePath), data)
  }

  /** The unit test's payload type, wherever it is declared, is labelled "TestData". */
  lemma TestDataLabel<T>(modulePath: string, data: T)
    ensures FromTypeName(modulePath + "::TestData", data).dataType == "TestData"
  {
    var seg := "TestData";
    assert forall j :: 0 <= j < |seg| ==> seg[j] != ':';
    assert modulePath + "::TestData" == modulePath + "::" + seg;
    LastSegmentOfPath(modulePath, seg);
  }

  // ---------------------------------------------------------------------------
  // Serialization
  // ---------------------------------------------------------------------------

  /** The JSON of an envelope: the members "type" (the label) and "data" (the
      payload's JSON), in that order; fails exactly when the payload's
      serializer fails, with its message. */
  function ToJson<T>(ser: Serializer<T>, e: StreamEnvelope<T>): (r: Result<Json, string>)
    ensures r.Err? <==> ser(e.data).Err?
    ensures r.Err? ==> r.error == ser(e.data).error
    ensures r.Ok? ==> r.value.Object? && Keys(r.value.members) == ["type", "data"]
    ensures r.Ok? ==> Field(r.value.members, "type") == Some(String(e.dataType))
                      && Field(r.value.members, "data") == Some(ser(e.data).value)
  {
    match ser(e.data)
    case Err(msg) => Err(msg)
    case Ok(j) => Ok(Object([("type", String(e.dataType)), ("data", j)]))
  }

  /** Reading an envelope back from its JSON. */
  function FromJson(j: Json): (r: Option<StreamEnvelope<Json>>)
    ensures r.Some? ==> j.Object? && "type" in Keys(j.members) && "data" in Keys(j.members)
  {
    if !j.Object? then None
    else match (Field(j.members, "type"), Field(j.members, "data"))
      case (Some(String(t)), Some(d)) => Some(StreamEnvelope(t, d))
      case _ => None
  }

  /** Serialization loses nothing: the label and the payload's JSON come back. */
  lemma ToJsonRoundTrip<T>(ser: Serializer<T>, e: StreamEnvelope<T>)
    requires ser(e.data).Ok?
    ensures FromJson(ToJson(ser, e).value) == Some(StreamEnvelope(e.dataType, ser(e.data).value))
  {
  }

  /** The unit test's envelope: `{"type": "TestData", "data": {"value": 42}}`. */
  lemma TestEnvelopeJson<T>(ser: Serializer<T>, data: T)
    requires ser(data) == Ok(Object([("value", Number(42))]))
    ensures ToJson(ser, New("TestData", data))
            == Ok(Object([("type", String("TestData")), ("data", Object([("value", Number(42))]))]))
  {
  }
}
