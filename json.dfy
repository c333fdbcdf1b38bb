/**
  Decoded JSON as `JSONSerialization` hands it to the library: a tree of
  dynamic values whose objects are `[String: Any]` dictionaries. The casts the
  library performs on those values (`as?` and `as!`) are the lookups below.
 */
module Json {
  import opened Wrappers

  const INT64_MIN: int := -0x8000_0000_0000_0000
  const INT64_MAX: int := 0x7FFF_FFFF_FFFF_FFFF

  /** Swift's `Int64` (and `Int` on the 64-bit platforms the library targets). */
  newtype int64 = x: int | INT64_MIN <= x <= INT64_MAX

  datatype Json =
    | Null
    | Bool(b: bool)
    | Int(i: int)
    | Str(s: string)
    | Arr(items: seq<Json>)
    | Obj(fields: map<string, Json>)

  /** What `JSONSerialization.jsonObject(with:)` made of a response body. */
  datatype Payload = Unparseable | Parsed(json: Json)

  /** `dict[key]`: absent keys give nil. */
  function Field(m: map<string, Json>, key: string): (r: Option<Json>)
    ensures r.Some? <==> key in m
    ensures r.Some? ==> r.value == m[key]
  {
    if key in m then Some(m[key]) else None
  }

  /** `value as? [String: Any]` */
  function AsObject(j: Json): (r: Option<map<string, Json>>)
    ensures r.Some? <==> j.Obj?
    ensures r.Some? ==> r.value == j.fields
  {
    match j
    case Obj(m) => Some(m)
    case _ => None
  }

  /** Every element of the sequence is a JSON object. */
  predicate AllObjects(items: seq<Json>) {
    forall k :: 0 <= k < |items| ==> items[k].Obj?
  }

  /** `value as? [[String: Any]]`: an array all of whose elements are objects. */
  function AsObjectArray(j: Json): (r: Option<seq<map<string, Json>>>)
    ensures r.Some? <==> j.Arr? && AllObjects(j.items)
    ensures r.Some? ==> |r.value| == |j.items|
    ensures r.Some? ==> forall k :: 0 <= k < |r.value| ==> Obj(r.value[k]) == j.items[k]
  {
    if j.Arr? && AllObjects(j.items)
    then Some(seq(|j.items|, k requires 0 <= k < |j.items| => j.items[k].fields))
    else None
  }

  /** `value as? Int64`: an integer that fits in 64 bits. */
  function AsInt64(j: Json): (r: Option<int64>)
    ensures r.Some? <==> j.Int? && INT64_MIN <= j.i <= INT64_MAX
    ensures r.Some? ==> r.value as int == j.i
  {
    if j.Int? && INT64_MIN <= j.i <= INT64_MAX then Some(j.i as int64) else None
  }

  /** `value as? String` */
  function AsString(j: Json): (r: Option<string>)
    ensures r.Some? <==> j.Str?
    ensures r.Some? ==> Str(r.value) == j
  {
    if j.Str? then Some(j.s) else None
  }

  /** `value as? Bool` */
  function AsBool(j: Json): (r: Option<bool>)
    ensures r.Some? <==> j.Bool?
    ensures r.Some? ==> Bool(r.value) == j
  {
    if j.Bool? then Some(j.b) else None
  }

  /** Every element of the sequence is a JSON string. */
  predicate AllStrings(items: seq<Json>) {
    forall k :: 0 <= k < |items| ==> items[k].Str?
  }

  /** `value as? [String]` */
  function AsStringArray(j: Json): (r: Option<seq<string>>)
    ensures r.Some? <==> j.Arr? && AllStrings(j.items)
    ensures r.Some? ==> |r.value| == |j.items|
    ensures r.Some? ==> forall k :: 0 <= k < |r.value| ==> Str(r.value[k]) == j.items[k]
  {
    if j.Arr? && AllStrings(j.items)
    then Some(seq(|j.items|, k requires 0 <= k < |j.items| => j.items[k].s))
    else None
  }

  /** `dict[key] as? X` for the casts above: a missing key and an ill-typed value both give nil. */
  function FieldInt64(m: map<string, Json>, key: string): (r: Option<int64>)
    ensures r.Some? <==> key in m && AsInt64(m[key]).Some?
    ensures r.Some? ==> Int(r.value as int) == m[key]
  {
    if key in m then AsInt64(m[key]) else None
  }

  function FieldString(m: map<string, Json>, key: string): (r: Option<string>)
    ensures r.Some? <==> key in m && m[key].Str?
    ensures r.Some? ==> Str(r.value) == m[key]
  {
    if key in m then AsString(m[key]) else None
  }

  function FieldBool(m: map<string, Json>, key: string): (r: Option<bool>)
    ensures r.Some? <==> key in m && m[key].Bool?
    ensures r.Some? ==> Bool(r.value) == m[key]
  {
    if key in m then AsBool(m[key]) else None
  }

  function FieldObjects(m: map<string, Json>, key: string): (r: Option<seq<map<string, Json>>>)
    ensures r.Some? <==> key in m && m[key].Arr? && AllObjects(m[key].items)
    ensures r.Some? ==> |r.value| == |m[key].items|
    ensures r.Some? ==> forall k :: 0 <= k < |r.value| ==> Obj(r.value[k]) == m[key].items[k]
  {
    if key in m then AsObjectArray(m[key]) else None
  }

  /** One `T(with:)` per element, in order: what the library's decoding loops produce. */
  function DecodeAll<T>(items: seq<map<string, Json>>, make: map<string, Json> -> T): (r: seq<T>)
    ensures |r| == |items|
    ensures forall k :: 0 <= k < |items| ==> r[k] == make(items[k])
  {
    seq(|items|, k requires 0 <= k < |items| => make(items[k]))
  }

  /** The `forEach` + `append` loops of the library. */
  method DecodeEach<T>(items: seq<map<string, Json>>, make: map<string, Json> -> T) returns (out: seq<T>)
    ensures out == DecodeAll(items, make)
  {
    out := [];
    for n := 0 to |items|
      invariant |out| == n
      invariant forall k :: 0 <= k < n ==> out[k] == make(items[k])
    {
      out := out + [make(items[n])];
    }
  }
}
