/**
 * Decoded JSON documents, as the Python code sees them after `json.load`:
 * dictionaries, lists, strings, numbers, booleans and null.
 * A number keeps the text it is printed as, so `str()` of it is that text.
 */
module JsonValue {
  import opened Wrappers

  datatype Json =
    | JNull
    | JBool(b: bool)
    | JNum(text: string)
    | JStr(s: string)
    | JArr(items: seq<Json>)
    | JObj(fields: map<string, Json>)

  /** `j[key]` on a decoded document: only a dictionary holding `key` answers. */
  function Get(j: Json, key: string): (r: Option<Json>)
    ensures r.Some? <==> j.JObj? && key in j.fields
    ensures r.Some? ==> r.value == j.fields[key]
  {
    if j.JObj? && key in j.fields then Some(j.fields[key]) else None
  }

  /**
   * What `for x in j` yields when the loop body subscripts `x` with a string
   * key: a list yields its entries; a dictionary or a string yields strings,
   * which cannot be subscripted that way, so only an empty one gets through;
   * any other value is not iterable.
   */
  function Elements(j: Json): (r: Option<seq<Json>>)
    ensures r.Some? <==> j.JArr? || j == JObj(map[]) || j == JStr("")
    ensures j.JArr? ==> r == Some(j.items)
    ensures r.Some? && !j.JArr? ==> r.value == []
  {
    match j
    case JArr(items) => Some(items)
    case JObj(fields) => if |fields| == 0 then Some([]) else None
    case JStr(s) => if s == "" then Some([]) else None
    case _ => None
  }

  /** Python's `str()` of a scalar; lists and dictionaries get a placeholder. */
  function Render(j: Json): string
  {
    match j
    case JNull => "None"
    case JBool(b) => if b then "True" else "False"
    case JNum(t) => t
    case JStr(s) => s
    case JArr(_) => "[...]"
    case JObj(_) => "{...}"
  }
}
