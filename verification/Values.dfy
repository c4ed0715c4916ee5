/** Values shared by every module: optional values, results and JSON trees. */
module Values {

  datatype Option<+T> = None | Some(value: T)

  datatype Result<+T, +E> = Ok(value: T) | Err(error: E)

  /** A parsed JSON value; equality is structural. A number is its decimal digits over a
      power of ten, as JSON writes it: 25 is Num(25, 0) and 2.5 is Num(25, 1). */
  datatype Json =
    | Null
    | Bool(b: bool)
    | Num(digits: int, scale: nat)
    | Str(s: string)
    | Arr(items: seq<Json>)
    | Obj(members: map<string, Json>)

  type Object = map<string, Json>

  function Int(i: int): Json {
    Num(i, 0)
  }

  /** Python's `d.get(key)`: an absent key and a JSON null look the same. */
  function Get(o: Object, key: string): Json {
    if key in o then o[key] else Null
  }
}
