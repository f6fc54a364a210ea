// The untyped runtime values that cross the core's boundary (`unknown` and
// `Record<string, unknown>` in the TypeScript source), with the two JavaScript
// tests the validator relies on: truthiness and `typeof`.

module JsValue {

  /** A JavaScript runtime value. Numbers are integers here. */
  datatype Value =
    | Undefined
    | Null
    | Bool(b: bool)
    | Num(n: int)
    | Str(s: string)
    | Arr(items: seq<Value>)
    | Obj(fields: map<string, Value>)
    | Func

  /** `!!v`: false exactly for undefined, null, false, 0 and the empty string. */
  predicate Truthy(v: Value)
  {
    match v
    case Undefined => false
    case Null => false
    case Bool(b) => b
    case Num(n) => n != 0
    case Str(s) => s != ""
    case _ => true
  }

  /** The string `typeof v` yields; note that null and arrays are "object". */
  function TypeOf(v: Value): string
  {
    match v
    case Undefined => "undefined"
    case Null => "object"
    case Bool(_) => "boolean"
    case Num(_) => "number"
    case Str(_) => "string"
    case Arr(_) => "object"
    case Obj(_) => "object"
    case Func => "function"
  }

  /** The guard `v && typeof v === 'object'`: any non-null object, arrays included. */
  predicate IsObject(v: Value)
    ensures IsObject(v) <==> v.Arr? || v.Obj?
  {
    Truthy(v) && TypeOf(v) == "object"
  }

  /** Property access `v[key]`: undefined unless `v` is an object that has the key. */
  function Field(v: Value, key: string): (r: Value)
    ensures r != Undefined ==> v.Obj? && key in v.fields && r == v.fields[key]
    ensures v.Obj? && key in v.fields ==> r == v.fields[key]
  {
    if v.Obj? && key in v.fields then v.fields[key] else Undefined
  }
}
