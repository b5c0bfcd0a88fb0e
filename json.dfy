/** JSON values as exchanged between The Things Network, the backend and the
    dashboard. Numbers are carried as reals: the telemetry they hold is never
    computed on, only stored, forwarded and displayed. */
module Json {

  /** The conventional optional value. */
  datatype Option<+T> = None | Some(value: T)

  datatype Json =
    | JNull
    | JBool(b: bool)
    | JNum(n: real)
    | JStr(s: string)
    | JArr(items: seq<Json>)
    | JObj(fields: map<string, Json>)

  /** The empty object, `{}`. */
  const EmptyObject: Json := JObj(map[])

  /** The value stored under `key` in an object, JNull when the key is absent
      or `v` is not an object. Python's `d.get(key)` on a dict and JavaScript's
      `v.key` on an object both read a missing key this way (None, undefined). */
  function Member(v: Json, key: string): Json
  {
    if v.JObj? && key in v.fields then v.fields[key] else JNull
  }
}
