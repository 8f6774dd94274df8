/** JSON values as RFC 8259 defines them, after the text has been parsed, and
    the field-level rules that serde's derived deserializers apply to them.

    Numbers keep the distinction serde_json makes between a literal written
    without fraction or exponent (`JInt`) and any other (`JFloat`): an unsigned
    integer field accepts only the former, an `f64` field accepts both. */
module Json {
  import opened Wrappers

  datatype Json =
    | JNull
    | JBool(b: bool)
    | JInt(i: int)
    | JFloat(x: real)
    | JString(s: string)
    | JArray(items: seq<Json>)
    | JObject(members: seq<(string, Json)>)

  /** Why a value does not decode into the expected Rust type. */
  datatype DecodeError =
    | InvalidType(expected: string)
    | MissingField(field: string)
    | DuplicateField(field: string)
    | UnknownVariant(tag: string)
    | OutOfRange(field: string)

  /** What a struct deserializer sees when it looks for one key of an object. */
  datatype Lookup = Absent | Present(value: Json) | Duplicate

  /** The occurrences of `key` among the members of an object, in order. */
  function Occurrences(members: seq<(string, Json)>, key: string): (r: seq<Json>)
    ensures |r| <= |members|
  {
    if members == [] then []
    else if members[0].0 == key then [members[0].1] + Occurrences(members[1..], key)
    else Occurrences(members[1..], key)
  }

  /** Serde's derived struct deserializers ignore unknown keys and refuse a
      known key that occurs twice. */
  function Find(members: seq<(string, Json)>, key: string): Lookup {
    var occ := Occurrences(members, key);
    if |occ| == 0 then Absent
    else if |occ| == 1 then Present(occ[0])
    else Duplicate
  }

  function AsString(v: Json): (r: Result<string, DecodeError>)
    ensures r.Ok? <==> v.JString?
    ensures r.Ok? ==> r.value == v.s
  {
    match v
    case JString(s) => Ok(s)
    case _ => Err(InvalidType("a string"))
  }

  function AsBool(v: Json): (r: Result<bool, DecodeError>)
    ensures r.Ok? <==> v.JBool?
    ensures r.Ok? ==> r.value == v.b
  {
    match v
    case JBool(b) => Ok(b)
    case _ => Err(InvalidType("a boolean"))
  }

  /** `f64`: any JSON number (wire decimals are kept exact in this model). */
  function AsF64(v: Json): (r: Result<real, DecodeError>)
    ensures r.Ok? <==> (v.JInt? || v.JFloat?)
    ensures v.JInt? ==> r == Ok(v.i as real)
    ensures v.JFloat? ==> r == Ok(v.x)
  {
    match v
    case JInt(i) => Ok(i as real)
    case JFloat(x) => Ok(x)
    case _ => Err(InvalidType("a number"))
  }

  function AsU32(v: Json, field: string): (r: Result<U32, DecodeError>)
    ensures r.Ok? <==> v.JInt? && 0 <= v.i < U32_LIMIT
    ensures r.Ok? ==> r.value as int == v.i
  {
    match v
    case JInt(i) => if 0 <= i < U32_LIMIT then Ok(i as U32) else Err(OutOfRange(field))
    case _ => Err(InvalidType("an unsigned integer"))
  }

  function AsU64(v: Json, field: string): (r: Result<U64, DecodeError>)
    ensures r.Ok? <==> v.JInt? && 0 <= v.i < U64_LIMIT
    ensures r.Ok? ==> r.value as int == v.i
  {
    match v
    case JInt(i) => if 0 <= i < U64_LIMIT then Ok(i as U64) else Err(OutOfRange(field))
    case _ => Err(InvalidType("an unsigned integer"))
  }

  /** `Vec<String>`: a JSON array all of whose items are strings. */
  function AsStrings(v: Json): (r: Result<seq<string>, DecodeError>)
    ensures r.Ok? <==> v.JArray? && forall k :: 0 <= k < |v.items| ==> v.items[k].JString?
    ensures r.Ok? ==> |r.value| == |v.items| && forall k :: 0 <= k < |v.items| ==> r.value[k] == v.items[k].s
  {
    match v
    case JArray(items) => StringItems(items)
    case _ => Err(InvalidType("a sequence"))
  }

  function StringItems(items: seq<Json>): (r: Result<seq<string>, DecodeError>)
    ensures r.Ok? <==> forall k :: 0 <= k < |items| ==> items[k].JString?
    ensures r.Ok? ==> |r.value| == |items| && forall k :: 0 <= k < |items| ==> r.value[k] == items[k].s
  {
    if items == [] then Ok([])
    else
      match items[0]
      case JString(s) =>
        (match StringItems(items[1..])
         case Ok(rest) => Ok([s] + rest)
         case Err(e) => Err(e))
      case _ => Err(InvalidType("a string"))
  }

  /** A required field: absent is `MissingField`, twice is `DuplicateField`. */
  function Required(members: seq<(string, Json)>, key: string): (r: Result<Json, DecodeError>)
    ensures r.Ok? <==> Find(members, key).Present?
    ensures r.Ok? ==> r.value == Find(members, key).value
    ensures Find(members, key) == Absent ==> r == Err(MissingField(key))
  {
    match Find(members, key)
    case Present(v) => Ok(v)
    case Absent => Err(MissingField(key))
    case Duplicate => Err(DuplicateField(key))
  }

  /** No key occurs twice among the members. */
  ghost predicate DistinctKeys(members: seq<(string, Json)>) {
    forall i, j :: 0 <= i < j < |members| ==> members[i].0 != members[j].0
  }

  lemma {:induction false} OccurrencesAppend(a: seq<(string, Json)>, b: seq<(string, Json)>, key: string)
    ensures Occurrences(a + b, key) == Occurrences(a, key) + Occurrences(b, key)
  {
    if a == [] {
      assert a + b == b;
    } else {
      assert (a + b)[0] == a[0] && (a + b)[1..] == a[1..] + b;
      OccurrencesAppend(a[1..], b, key);
    }
  }

  /** A key that no member carries is absent. */
  lemma {:induction false} FindAbsent(members: seq<(string, Json)>, key: string)
    requires forall i :: 0 <= i < |members| ==> members[i].0 != key
    ensures Occurrences(members, key) == []
    ensures Find(members, key) == Absent
  {
    if members != [] {
      FindAbsent(members[1..], key);
    }
  }

  /** In an object whose keys are distinct, every member is found as such. */
  lemma {:induction false} FindInDistinct(members: seq<(string, Json)>, i: nat)
    requires DistinctKeys(members)
    requires i < |members|
    ensures Occurrences(members, members[i].0) == [members[i].1]
    ensures Find(members, members[i].0) == Present(members[i].1)
  {
    var key, rest := members[i].0, members[1..];
    forall a, b | 0 <= a < b < |rest| ensures rest[a].0 != rest[b].0 {
      assert members[a + 1].0 != members[b + 1].0;
    }
    if i == 0 {
      forall j | 0 <= j < |rest| ensures rest[j].0 != key {
        assert members[0].0 != members[j + 1].0;
      }
      FindAbsent(rest, key);
    } else {
      assert rest[i - 1] == members[i] && members[0].0 != key;
      FindInDistinct(rest, i - 1);
    }
  }

  lemma OccurrencesOfOne(k: string, v: Json, key: string)
    ensures Occurrences([(k, v)], key) == if k == key then [v] else []
  {
    assert [(k, v)][1..] == [];
  }

  /** Appending a member leaves the lookup of every other key alone and makes
      an absent key present. */
  lemma FindAfterAppend(ms: seq<(string, Json)>, k: string, v: Json, key: string)
    ensures key != k ==> Find(ms + [(k, v)], key) == Find(ms, key)
    ensures Find(ms, k) == Absent ==> Find(ms + [(k, v)], k) == Present(v)
  {
    OccurrencesAppend(ms, [(k, v)], key);
    OccurrencesAppend(ms, [(k, v)], k);
    OccurrencesOfOne(k, v, key);
    OccurrencesOfOne(k, v, k);
  }
}
