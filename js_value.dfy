/** The JavaScript values the pipeline passes around: JSON values as
    `JSON.parse` produces them, plus `undefined` for a missing property. */
module JsValue {
  import opened JsText

  datatype Option<+T> = None | Some(value: T)

  /** The outcome of an expression that may throw a `TypeError`. */
  datatype Try<+T> = Ok(value: T) | Thrown

  /** Numbers are modelled as integers. Objects map property names to values. */
  datatype Value =
    | Undefined
    | Null
    | Bool(b: bool)
    | Num(n: int)
    | Str(s: string)
    | Arr(items: seq<Value>)
    | Obj(props: map<string, Value>)

  /** JavaScript truthiness: `undefined`, `null`, `false`, `0` and `""` are falsy. */
  predicate Truthy(v: Value)
  {
    match v
    case Undefined => false
    case Null => false
    case Bool(b) => b
    case Num(n) => n != 0
    case Str(s) => s != ""
    case Arr(_) => true
    case Obj(_) => true
  }

  /** Property access is possible on everything except `null` and `undefined`. */
  predicate HasProps(v: Value)
  {
    !v.Undefined? && !v.Null?
  }

  /** `v[key]` for the keys the pipeline reads (none of them is a built-in
      property of strings, arrays or objects). Reading from `null` or
      `undefined` throws. */
  function Prop(v: Value, key: string): Try<Value>
  {
    match v
    case Undefined => Thrown
    case Null => Thrown
    case Obj(m) => Ok(if key in m then m[key] else Undefined)
    case _ => Ok(Undefined)
  }

  /** `v[key]` where the context guarantees the access does not throw. */
  function Field(v: Value, key: string): Value
    requires HasProps(v)
  {
    Prop(v, key).value
  }

  /** `a || b`: the first operand when truthy, otherwise the second. */
  function Or(a: Value, b: Value): (r: Value)
    ensures r == a || r == b
    ensures Truthy(r) <==> Truthy(a) || Truthy(b)
  {
    if Truthy(a) then a else b
  }

  /** `String(v)`, as used by template literals and by `+=` on a string.
      Inside an array, `null` and `undefined` render as the empty string. */
  function ToJsString(v: Value): string
    decreases v
  {
    match v
    case Undefined => "undefined"
    case Null => "null"
    case Bool(b) => if b then "true" else "false"
    case Num(n) => Dec(n)
    case Str(s) => s
    case Arr(items) => JoinItems(v, items)
    case Obj(_) => "[object Object]"
  }

  /** `items.join(",")` for the elements of the array `whole`. */
  function JoinItems(whole: Value, items: seq<Value>): string
    requires forall x :: x in items ==> x < whole
    decreases whole, |items|
  {
    if |items| == 0 then ""
    else
      assert items[0] in items;
      assert forall x :: x in items[1..] ==> x in items;
      var first := if items[0].Undefined? || items[0].Null? then "" else ToJsString(items[0]);
      if |items| == 1 then first else first + "," + JoinItems(whole, items[1..])
  }
}
