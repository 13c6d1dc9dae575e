/** The Python values the movie-database client handles: decoded JSON bodies,
    and the `int` and `None` markers it returns in their place. Floats are
    not part of this model. */
module Values {
  import opened Wrappers

  datatype Json =
    | JNull
    | JBool(b: bool)
    | JInt(i: int)
    | JStr(s: string)
    | JList(items: seq<Json>)
    | JObject(fields: map<string, Json>)

  /** A decoded JSON object (a Python `dict`). */
  type Record = map<string, Json>

  /** Python truthiness, as used by `if not movie['adult']`. */
  predicate Truthy(j: Json) {
    match j
    case JNull => false
    case JBool(b) => b
    case JInt(i) => i != 0
    case JStr(s) => s != ""
    case JList(items) => items != []
    case JObject(fields) => fields != map[]
  }

  /** The integer a value stands for in `min(value, 500)`: Python treats a
      `bool` as 0 or 1; any other type makes `min` raise. */
  function AsInt(j: Json): (r: Option<int>)
    ensures j.JInt? ==> r == Some(j.i)
    ensures r.Some? ==> j.JInt? || j.JBool?
  {
    match j
    case JInt(i) => Some(i)
    case JBool(b) => Some(if b then 1 else 0)
    case _ => None
  }
}
