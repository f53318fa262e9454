/** The JSON values that cross the server boundary: request bodies and the
    stored per-user documents. Stringifying and parsing back is the identity
    on these values, so a stored document is kept as the value itself. */
module JsonData {
  import opened Maybe

  datatype Json =
    | JNull
    | JBool(b: bool)
    | JNumber(n: real)
    | JString(s: string)
    | JArray(items: seq<Json>)
    | JObject(fields: seq<(string, Json)>)

  /** The last field named `key`: `JSON.parse` keeps the last of duplicate
      names (section 25.5.1 of ECMA-262, 2023 edition). */
  function LastField(fields: seq<(string, Json)>, key: string): (r: Option<Json>)
    ensures r.Some? ==> exists i :: 0 <= i < |fields| && fields[i] == (key, r.value)
    ensures r.None? ==> forall i :: 0 <= i < |fields| ==> fields[i].0 != key
  {
    if fields == [] then None
    else if fields[|fields| - 1].0 == key then Some(fields[|fields| - 1].1)
    else LastField(fields[..|fields| - 1], key)
  }

  /** `v?.key`: a missing member, or a member of a non-object, is `undefined`
      (None). */
  function Member(v: Json, key: string): (r: Option<Json>)
    ensures r.Some? ==> v.JObject?
    ensures v.JObject? && (forall i :: 0 <= i < |v.fields| ==> v.fields[i].0 != key) ==> r.None?
  {
    if v.JObject? then LastField(v.fields, key) else None
  }

  /** JavaScript truthiness of a JSON value. */
  predicate Truthy(v: Json)
  {
    match v
    case JNull => false
    case JBool(b) => b
    case JNumber(n) => n != 0.0
    case JString(s) => s != []
    case _ => true
  }

  /** `x ?? fallback`: the fallback replaces `undefined` and `null` only. */
  function Coalesce(x: Option<Json>, fallback: Json): (r: Json)
    ensures x.Some? && !x.value.JNull? ==> r == x.value
    ensures x.None? || x.value.JNull? ==> r == fallback
  {
    if x.Some? && !x.value.JNull? then x.value else fallback
  }

  /** A list of strings as a JSON array's items. */
  function Strings(xs: seq<string>): (r: seq<Json>)
    ensures |r| == |xs|
    ensures forall i :: 0 <= i < |xs| ==> r[i] == JString(xs[i])
  {
    if xs == [] then [] else [JString(xs[0])] + Strings(xs[1..])
  }
}
