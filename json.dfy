/**
 * The JSON values that the source passes around as `Any` or `dict[str, Any]`,
 * and the serialisation functions it calls, which this model treats as given.
 */
module Json {
  import opened Wrappers

  datatype Value =
    | Null
    | Bool(b: bool)
    | Num(n: real)
    | Str(s: string)
    | Arr(items: seq<Value>)
    | Obj(fields: map<string, Value>)

  /**
   * The library functions the model does not open up: `json.loads` (a partial
   * parser: `None` stands for the JSONDecodeError it raises), `json.dumps` and
   * `datetime.isoformat`.
   */
  datatype Codec = Codec(
    loads: string -> Option<Value>,
    dumps: Value -> string,
    isoformat: int -> string)
}
