/** JSON values as the client sees them after `JSON.parse`, and JavaScript truthiness
    on them. The JSON grammar itself is not modelled: `JSON.parse` is a partial function
    and `JSON.stringify` a total function supplied from outside (a `Codec`). */
module Json {
  import opened Wrappers

  /** A parsed JSON value. Finite numbers are reals (`Infinity`, which `JSON.parse`
      yields for literals out of double range, is not represented). An object keeps
      its fields in the order the text gave them; how `JSON.stringify` orders them
      (integer-like keys first, a repeated key at its first position) is left to the
      uninterpreted codec. */
  datatype Json =
    | JNull
    | JBool(b: bool)
    | JNum(n: real)
    | JStr(s: string)
    | JArr(items: seq<Json>)
    | JObj(fields: seq<(string, Json)>)

  /** The value `{}`. */
  const EmptyObject: Json := JObj([])

  /** `JSON.parse` (None when it throws) and `JSON.stringify`, left uninterpreted. */
  datatype Codec = Codec(parse: string -> Option<Json>, stringify: Json -> string)

  /** JavaScript truthiness of a JSON value: `null`, `false`, `0` and `""` are falsy;
      every array and every object (even empty) is truthy. */
  predicate Truthy(j: Json) {
    match j
    case JNull => false
    case JBool(b) => b
    case JNum(n) => n != 0.0
    case JStr(s) => s != ""
    case JArr(_) => true
    case JObj(_) => true
  }

  /** The field `key` of an object's field list; when a key repeats, the last one
      is the one a property read sees. */
  function Lookup(fields: seq<(string, Json)>, key: string): (r: Option<Json>)
    ensures r.None? <==> forall i :: 0 <= i < |fields| ==> fields[i].0 != key
    ensures r.Some? ==>
      exists i :: (0 <= i < |fields| && fields[i] == (key, r.value)
                   && forall j :: i < j < |fields| ==> fields[j].0 != key)
    decreases |fields|
  {
    if |fields| == 0 then None
    else if fields[|fields| - 1].0 == key then Some(fields[|fields| - 1].1)
    else Lookup(fields[..|fields| - 1], key)
  }

  /** The value of `j?.error` for the key "error" and the other field names used
      here: a field of an object, and `undefined` (None) for a missing field and for
      every non-object, as JSON primitives and arrays have no such property. */
  function Property(j: Json, key: string): (r: Option<Json>)
    ensures r.Some? <==> j.JObj? && exists i :: 0 <= i < |j.fields| && j.fields[i].0 == key
    ensures r.Some? ==> r == Lookup(j.fields, key)
  {
    match j
    case JObj(fields) => Lookup(fields, key)
    case _ => None
  }

  /** Truthiness of `j?.[key]`, where `undefined` is falsy. */
  predicate PropertyTruthy(j: Json, key: string) {
    match Property(j, key)
    case Some(v) => Truthy(v)
    case None => false
  }

  /** A one-field object `{ key: value }`. */
  function Object1(key: string, value: Json): (r: Json)
    ensures r.JObj? && |r.fields| == 1 && r.fields[0].0 == key
    ensures Property(r, key) == Some(value)
  {
    JObj([(key, value)])
  }
}
