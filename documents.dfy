/**
 * Firestore document data as the app's decoders see it: a map from field names to
 * loosely typed values, read with Swift's conditional casts (`as? String`, `as? Int`, ...).
 */
module Documents {

  import opened Wrappers

  datatype Value =
    | NullValue
    | BoolValue(b: bool)
    | IntValue(i: int)
    | DoubleValue(d: real)
    | StringValue(s: string)
    | TimestampValue(seconds: int)
    | ArrayValue(elements: seq<Value>)
    | MapValue(fields: map<string, Value>)

  type Fields = map<string, Value>

  /** A query-snapshot document: its id and its `data()`. */
  datatype Document = Document(documentID: string, data: Fields)

  /** `data[key]`, which is `nil` for an absent key. */
  function Field(data: Fields, key: string): Option<Value> {
    if key in data then Some(data[key]) else None
  }

  /** `v as? String` */
  function AsString(v: Option<Value>): Option<string> {
    match v
    case Some(StringValue(s)) => Some(s)
    case _ => None
  }

  /** `v as? Int` */
  function AsInt(v: Option<Value>): Option<int> {
    match v
    case Some(IntValue(i)) => Some(i)
    case _ => None
  }

  /** `v as? Double` */
  function AsDouble(v: Option<Value>): Option<real> {
    match v
    case Some(DoubleValue(d)) => Some(d)
    case _ => None
  }

  /** `v as? Timestamp`, as its seconds since the epoch. */
  function AsTimestamp(v: Option<Value>): Option<int> {
    match v
    case Some(TimestampValue(t)) => Some(t)
    case _ => None
  }

  /** `v as? [String: Any]` */
  function AsMap(v: Option<Value>): Option<Fields> {
    match v
    case Some(MapValue(m)) => Some(m)
    case _ => None
  }

  /** The strings of an array, or `nil` as soon as one element is not a string. */
  function StringsOf(elements: seq<Value>): (r: Option<seq<string>>)
    ensures r.Some? <==> forall i :: 0 <= i < |elements| ==> elements[i].StringValue?
    ensures r.Some? ==> |r.value| == |elements| && forall i :: 0 <= i < |elements| ==> r.value[i] == elements[i].s
    decreases |elements|
  {
    if elements == [] then Some([])
    else
      match elements[0]
      case StringValue(s) =>
        var rest := StringsOf(elements[1..]);
        if rest.Some? then
          assert forall i :: 1 <= i < |elements| ==> elements[i] == elements[1..][i - 1];
          Some([s] + rest.value)
        else
          assert exists i :: 0 <= i < |elements[1..]| && !elements[1..][i].StringValue?;
          None
      case _ => None
  }

  /** `v as? [String]`: succeeds only for an array whose every element is a string. */
  function AsStringArray(v: Option<Value>): Option<seq<string>> {
    match v
    case Some(ArrayValue(elements)) => StringsOf(elements)
    case _ => None
  }

  /** The array value a list of strings is stored as. */
  function StringArray(strings: seq<string>): (v: Value)
    ensures v.ArrayValue? && |v.elements| == |strings|
  {
    ArrayValue(seq(|strings|, i requires 0 <= i < |strings| => StringValue(strings[i])))
  }

  /** A stored list of strings reads back as that list. */
  lemma StringArrayRoundTrip(strings: seq<string>)
    ensures AsStringArray(Some(StringArray(strings))) == Some(strings)
  {
    var elements := StringArray(strings).elements;
    assert forall i :: 0 <= i < |elements| ==> elements[i] == StringValue(strings[i]);
    var r := StringsOf(elements);
    assert r.Some?;
    assert r.value == strings;
  }
}
