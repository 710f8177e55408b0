/**
 * The abstract JSON value a packet is turned into before it is rendered as text
 * (serde_json's `Value`). Objects are maps, so key order is not part of the model.
 */
module Json {

  datatype Json =
    | Null
    | Bool(b: bool)
    | Int(i: int)
    | Str(s: string)
    | Arr(items: seq<Json>)
    | Obj(members: map<string, Json>)

  /** `obj` with member `key` set to `value`, or `obj` unchanged when `value` is empty. */
  function WithText(obj: map<string, Json>, key: string, value: string): map<string, Json> {
    if value == "" then obj else obj[key := Str(value)]
  }
}
