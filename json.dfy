/** JSON values as they appear in request and response bodies, with JavaScript truthiness. */
module Json {
  import opened Wrappers

  datatype Value =
    | Null
    | Bool(b: bool)
    | Num(n: int)
    | Str(s: string)
    | Arr(items: seq<Value>)
    | Obj(fields: map<string, Value>)

  /** Truthiness of a JavaScript value; `None` is `undefined`. */
  predicate Truthy(v: Option<Value>) {
    match v
    case None => false
    case Some(Null) => false
    case Some(Bool(b)) => b
    case Some(Num(n)) => n != 0
    case Some(Str(s)) => s != ""
    case Some(Arr(_)) => true
    case Some(Obj(_)) => true
  }

  /** The member `key` of an object, `undefined` when absent or when the value is not an object. */
  function Field(v: Value, key: string): Option<Value> {
    if v.Obj? && key in v.fields then Some(v.fields[key]) else None
  }

  /** An object property whose value is `undefined` is dropped by `JSON.stringify`. */
  function WithOptional(fields: map<string, Value>, key: string, v: Option<Value>): map<string, Value> {
    if v.Some? then fields[key := v.value] else fields
  }
}
