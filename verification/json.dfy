/** JavaScript values as the bridge handles them: decoded device payloads, state records,
    discovery documents. `Undefined` is a missing property; numbers are integers. */
module Json {
  import opened Strings

  datatype JsValue =
    | Undefined
    | Bool(b: bool)
    | Num(n: int)
    | Str(s: string)
    | Arr(items: seq<JsValue>)
    | Obj(fields: map<string, JsValue>)

  /** A plain object: property name to value. */
  type Record = map<string, JsValue>

  /** `r.key` on a plain object. */
  function Field(r: Record, key: string): JsValue
  {
    if key in r then r[key] else Undefined
  }

  /** `v.key` on any value: only objects have properties here. */
  function Get(v: JsValue, key: string): JsValue
  {
    if v.Obj? then Field(v.fields, key) else Undefined
  }

  /** `v.key !== undefined`. */
  predicate Defined(v: JsValue, key: string)
  {
    Get(v, key) != Undefined
  }

  /** The string a value becomes in `'...' + v` or in a template literal. */
  function ToJsString(v: JsValue): string
    decreases v
  {
    match v
    case Undefined => "undefined"
    case Bool(b) => if b then "true" else "false"
    case Num(n) => IntToString(n)
    case Str(s) => s
    case Arr(items) => ItemsString(items)
    case Obj(_) => "[object Object]"
  }

  /** `Array.prototype.join` with `,`: an undefined element becomes the empty string. */
  function ItemsString(items: seq<JsValue>): string
    decreases items
  {
    if |items| == 0 then ""
    else
      var first := if items[0].Undefined? then "" else ToJsString(items[0]);
      if |items| == 1 then first else first + "," + ItemsString(items[1..])
  }
}
