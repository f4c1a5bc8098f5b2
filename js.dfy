/** JavaScript values as the playground code sees them. */
module Js {

  /** A value that may be `undefined` (or `null`, which the code treats the same way). */
  datatype Option<+T> = None | Some(value: T)

  /** JavaScript truthiness of a `string | undefined`: `undefined` and `""` are both falsy. */
  predicate Truthy(s: Option<string>)
  {
    s.Some? && s.value != ""
  }

  /** A JSON-like value held in the window manager's shared attribute table. */
  datatype Json =
    | Null
    | Bool(b: bool)
    | Num(n: int)
    | Str(s: string)
    | Arr(items: seq<Json>)
    | Obj(fields: map<string, Json>)

  /** The empty object literal `{}`. */
  const EmptyObject: Json := Obj(map[])
}
