/**
  The JSON values that the request and response envelopes are made of, and the
  keyed-container operations that synthesized `Codable` conformances perform on
  them: `encode`/`encodeIfPresent` when a struct is written and
  `decode`/`decodeIfPresent` when one is read back.

  The caller's generic payloads (filters, projections, sorts, documents,
  updates, replacements, pipeline stages) are opaque to the mapping layer, so
  they are simply `Json` values here.
 */
module Json {

  /** A decoded JSON value. `null` is absent: no envelope ever writes it. */
  datatype Json =
    | JBool(b: bool)
    | JInt(i: int)
    | JStr(s: string)
    | JArr(items: seq<Json>)
    | JObj(fields: map<string, Json>)

  /** The encoding of the source's field-less `Empty` struct: `{}`. */
  const EmptyObject: Json := JObj(map[])

  /**
    Swift's `Int`, assumed 64 bits wide (a 32-bit target would narrow the
    range of `limit` and `skip`, nothing else).
   */
  newtype Int64 = x: int | -0x8000_0000_0000_0000 <= x < 0x8000_0000_0000_0000

  datatype Option<+T> = None | Some(value: T)

  /** Why a JSON value could not be read as the expected struct. */
  datatype DecodeError =
    | NotAnObject
    | KeyNotFound(key: string)
    | TypeMismatch(key: string)
    | NumberOutOfRange(key: string)

  datatype Result<+T> = Ok(value: T) | Err(error: DecodeError) {
    predicate IsFailure() { Err? }

    function PropagateFailure<U>(): Result<U>
      requires Err?
    {
      Err(error)
    }

    function Extract(): T
      requires Ok?
    {
      value
    }
  }

  /** `encodeIfPresent`: the key is written only when there is a value. */
  function PutIfPresent(m: map<string, Json>, key: string, v: Option<Json>): (r: map<string, Json>)
    ensures r.Keys == if v.Some? then m.Keys + {key} else m.Keys
    ensures v.Some? ==> r[key] == v.value
    ensures forall k :: k in m && k != key ==> k in r && r[k] == m[k]
  {
    if v.Some? then m[key := v.value] else m
  }

  /** Wraps a Swift `Int?` as the JSON number it encodes to, if any. */
  function IntField(n: Option<Int64>): (r: Option<Json>)
    ensures r.Some? <==> n.Some?
    ensures n.Some? ==> r.value.JInt? && r.value.i == n.value as int
  {
    if n.Some? then Some(JInt(n.value as int)) else None
  }

  /** Wraps a Swift `Bool?` as the JSON boolean it encodes to, if any. */
  function BoolField(b: Option<bool>): (r: Option<Json>)
    ensures r.Some? <==> b.Some?
    ensures b.Some? ==> r.value.JBool? && r.value.b == b.value
  {
    if b.Some? then Some(JBool(b.value)) else None
  }

  /** `decode(String.self, forKey:)`. */
  function GetString(m: map<string, Json>, key: string): (r: Result<string>)
    ensures r.Ok? <==> key in m && m[key].JStr?
    ensures r.Ok? ==> r.value == m[key].s
    ensures key !in m ==> r == Err(KeyNotFound(key))
  {
    if key !in m then Err(KeyNotFound(key))
    else if m[key].JStr? then Ok(m[key].s)
    else Err(TypeMismatch(key))
  }

  /** `decode(C.self, forKey:)` for a generic payload. */
  function GetValue(m: map<string, Json>, key: string): (r: Result<Json>)
    ensures r.Ok? <==> key in m
    ensures r.Ok? ==> r.value == m[key]
    ensures r.Err? ==> r.error == KeyNotFound(key)
  {
    if key in m then Ok(m[key]) else Err(KeyNotFound(key))
  }

  /** `decode([C].self, forKey:)` for a generic array payload. */
  function GetArray(m: map<string, Json>, key: string): (r: Result<seq<Json>>)
    ensures r.Ok? <==> key in m && m[key].JArr?
    ensures r.Ok? ==> r.value == m[key].items
  {
    if key !in m then Err(KeyNotFound(key))
    else if m[key].JArr? then Ok(m[key].items)
    else Err(TypeMismatch(key))
  }

  /** `decodeIfPresent(C.self, forKey:)` for a generic payload, which cannot fail. */
  function GetOptValue(m: map<string, Json>, key: string): (r: Option<Json>)
    ensures r.Some? <==> key in m
    ensures key in m ==> r.value == m[key]
  {
    if key in m then Some(m[key]) else None
  }

  /** `decodeIfPresent(Int.self, forKey:)`: a number outside 64 bits is refused. */
  function GetOptInt(m: map<string, Json>, key: string): (r: Result<Option<Int64>>)
    ensures key !in m ==> r == Ok(None)
    ensures r.Ok? && r.value.Some? ==> key in m && m[key] == JInt(r.value.value as int)
    ensures key in m && m[key].JInt? ==>
      (r.Ok? <==> -0x8000_0000_0000_0000 <= m[key].i < 0x8000_0000_0000_0000)
    ensures key in m && m[key].JInt? && r.Ok? ==> r.value.Some? && r.value.value as int == m[key].i
    ensures key in m && m[key].JInt? && r.Err? ==> r.error == NumberOutOfRange(key)
    ensures key in m && !m[key].JInt? ==> r == Err(TypeMismatch(key))
  {
    if key !in m then Ok(None)
    else match m[key]
      case JInt(i) =>
        if -0x8000_0000_0000_0000 <= i < 0x8000_0000_0000_0000 then Ok(Some(i as Int64))
        else Err(NumberOutOfRange(key))
      case _ => Err(TypeMismatch(key))
  }

  /** `decodeIfPresent(Bool.self, forKey:)`. */
  function GetOptBool(m: map<string, Json>, key: string): (r: Result<Option<bool>>)
    ensures key !in m ==> r == Ok(None)
    ensures r.Ok? && r.value.Some? ==> key in m && m[key] == JBool(r.value.value)
    ensures key in m && m[key].JBool? ==> r == Ok(Some(m[key].b))
    ensures key in m && !m[key].JBool? ==> r == Err(TypeMismatch(key))
  {
    if key !in m then Ok(None)
    else if m[key].JBool? then Ok(Some(m[key].b))
    else Err(TypeMismatch(key))
  }
}
