/** JSON values with structural equality; objects are dictionaries. */
module Json {
  import opened Collections
  import opened Text

  datatype Json =
    JNull | JBool(b: bool) | JInt(i: int) | JStr(s: string) | JArr(items: seq<Json>)
    | JObj(fields: map<string, Json>)

  type Object = map<string, Json>

  /** `value.get(key)` */
  function Field(o: Object, key: string): Json {
    if key in o then o[key] else JNull
  }

  /** `value[key]` is a non-empty string. */
  predicate HasText(o: Object, key: string) {
    key in o && o[key].JStr? && !Blank(o[key].s)
  }

  function TextOf(o: Object, key: string): string {
    if key in o && o[key].JStr? then o[key].s else ""
  }

  /** What an object holds at the end of a path of keys. */
  function Lookup(o: Object, path: seq<string>): Option<Json>
    decreases |path|
  {
    if path == [] then Some(JObj(o))
    else if path[0] !in o then None
    else if |path| == 1 then Some(o[path[0]])
    else if o[path[0]].JObj? then Lookup(o[path[0]].fields, path[1..])
    else None
  }
}
