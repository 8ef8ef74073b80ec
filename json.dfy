/** JSON values, as JSONSerialization reads them and writes them. */
module Json {
  import opened Wrappers

  /** One JSON value. Numbers are a single kind. An integer field is a
      number that happens to be whole. */
  datatype Value =
    | JNull
    | JBool(b: bool)
    | JNumber(n: real)
    | JString(s: string)
    | JArray(items: seq<Value>)
    | JObject(fields: map<string, Value>)

  /** A JSON object: the `[String: Any]` dictionaries that the forms fill in
      and send as request bodies. */
  type Payload = map<string, Value>

  /** A Swift `Double?` placed in a payload: `nil` is written as JSON null. */
  function OptNumber(o: Option<real>): (v: Value)
    ensures o.None? <==> v.JNull?
    ensures o.Some? ==> v == JNumber(o.value)
  {
    match o
    case Some(x) => JNumber(x)
    case None => JNull
  }

  /** A Swift `Int?` placed in a payload. */
  function OptInt(o: Option<int>): (v: Value)
    ensures o.None? <==> v.JNull?
    ensures o.Some? ==> v == JNumber(o.value as real)
  {
    match o
    case Some(x) => JNumber(x as real)
    case None => JNull
  }

  /** The idiom `s.isEmpty ? nil : s`. */
  function NilIfEmpty(s: string): (v: Value)
    ensures s == "" <==> v.JNull?
    ensures s != "" ==> v == JString(s)
  {
    if s == "" then JNull else JString(s)
  }

  /** A dictionary keyed by an enumeration of fields (a Swift `CodingKey`
      enum), written as a JSON object under each field's name. */
  function Named<K(==)>(fields: map<K, Value>, name: K -> string): (p: Payload)
    requires forall a, b :: a in fields && b in fields && name(a) == name(b) ==> a == b
    ensures forall k :: k in fields ==> name(k) in p && p[name(k)] == fields[k]
    ensures forall s :: s in p ==> exists k :: k in fields && name(k) == s
  {
    map k | k in fields :: name(k) := fields[k]
  }
}
