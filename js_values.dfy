/** JavaScript values as the application handles them: what `JSON.parse` yields,
    what the API returns and what React state holds. Numbers are integers here. */
module JsValues {
  import opened Options
  import opened JsStrings

  datatype Value =
    | Undefined
    | Null
    | Bool(b: bool)
    | Num(n: int)
    | Str(s: string)
    | Arr(items: seq<Value>)
    | Obj(fields: map<string, Value>)

  /** What `if (v)`, `v && ...` and `v || ...` test. */
  predicate Truthy(v: Value)
  {
    match v
    case Undefined => false
    case Null => false
    case Bool(b) => b
    case Num(n) => n != 0
    case Str(s) => s != ""
    case Arr(_) => true
    case Obj(_) => true
  }

  predicate IsNullish(v: Value)
  {
    v.Undefined? || v.Null?
  }

  /** `v?.key`: a missing field, and any field of a nullish value, reads as
      `undefined`. The keys the application reads (`message`, `success`, `roles`,
      `id`, ...) are own fields of plain objects only, so a non-object has none. */
  function Get(v: Value, key: string): Value
  {
    match v
    case Obj(fields) => if key in fields then fields[key] else Undefined
    case _ => Undefined
  }

  /** `a || b` */
  function Or(a: Value, b: Value): (r: Value)
    ensures Truthy(a) ==> r == a
    ensures !Truthy(a) ==> r == b
  {
    if Truthy(a) then a else b
  }

  /** `v?.toLowerCase()` and the like: the text of a string. Any other value is
      treated as having no text. */
  function AsText(v: Value): (r: Option<string>)
    ensures r.Some? <==> v.Str?
    ensures r.Some? ==> r.value == v.s
  {
    if v.Str? then Some(v.s) else None
  }

  /** `field?.toLowerCase().includes(term.toLowerCase())` */
  predicate ContainsFolded(field: Value, term: string)
  {
    AsText(field).Some? && Includes(Lower(AsText(field).value), Lower(term))
  }

  /** `field?.toString().includes(term)`, case-sensitive. */
  predicate TextContains(field: Value, term: string)
  {
    !IsNullish(field) && Includes(ToJsString(field), term)
  }

  /** `a === b`. Arrays and objects are compared by reference in JavaScript; two
      values of the model stand for distinct objects, so they are never equal. */
  predicate StrictEquals(a: Value, b: Value)
  {
    !a.Arr? && !a.Obj? && a == b
  }

  /** `String(v)` (and template-literal interpolation `${v}`). An array joins its
      elements with commas, writing nullish elements as empty text. */
  function ToJsString(v: Value): string
    decreases v
  {
    match v
    case Undefined => "undefined"
    case Null => "null"
    case Bool(b) => if b then "true" else "false"
    case Num(n) => IntToString(n)
    case Str(s) => s
    case Arr(items) => JoinElements(items)
    case Obj(_) => "[object Object]"
  }

  function JoinElements(items: seq<Value>): string
    decreases items
  {
    if items == [] then ""
    else
      var first := if IsNullish(items[0]) then "" else ToJsString(items[0]);
      if |items| == 1 then first else first + "," + JoinElements(items[1..])
  }

  /** The outcome of `JSON.parse(text)`: a value, or the `SyntaxError` it throws. */
  datatype Parsed = Parsed(value: Value) | SyntaxError(message: string)

  /** `JSON.parse`, which the model does not implement: every member that parses
      takes it as a parameter. */
  type Parser = string -> Parsed

  /** `JSON.stringify`, likewise a parameter. */
  type Stringifier = Value -> string

  /** `{ success: false, message: m }` */
  function FailureResult(message: string): Value
  {
    Obj(map["success" := Bool(false), "message" := Str(message)])
  }

  /** `{ success: s, message: m }` as the pages build them for a toast. */
  function Notice(success: bool, message: Value): Value
  {
    Obj(map["success" := Bool(success), "message" := message])
  }

  /** `response && response.success !== false`, the pages' test for a usable API result. */
  predicate Usable(response: Value)
  {
    Truthy(response) && Get(response, "success") != Bool(false)
  }
}
