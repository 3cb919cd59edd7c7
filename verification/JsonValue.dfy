/** Parsed JSON documents, as `interface{}` trees hold them. */
module JsonValue {
  import opened Wrappers

  datatype Json =
    | Null
    | Bool(flag: bool)
    | Num(number: real)
    | Str(text: string)
    | Arr(items: seq<Json>)
    | Obj(fields: map<string, Json>)

  const EMPTY := Obj(map[])

  function Member(j: Json, key: string): Option<Json> {
    if j.Obj? && key in j.fields then Some(j.fields[key]) else None
  }

  /** The value at the end of a chain of object members. */
  function Get(j: Json, path: seq<string>): Option<Json> {
    if path == [] then Some(j) else
      match Member(j, path[0])
      case None => None
      case Some(v) => Get(v, path[1..])
  }

  /** No object member, at any depth outside arrays, is null. */
  predicate NullFree(j: Json) {
    !j.Null? && (j.Obj? ==> forall k | k in j.fields :: NullFree(j.fields[k]))
  }
}
