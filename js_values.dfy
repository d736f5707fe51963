/** The JavaScript values that occur in a user record, with the truthiness,
    `||` and string-conversion rules the store's accessors rely on. */
module JsValues {
  import opened JsStrings

  datatype Option<+T> = None | Some(value: T)

  /** The outcome of an expression that may throw a `TypeError`. */
  datatype Completion<+T> = Normal(value: T) | TypeError

  /** A field value of a user record. `Undefined` is what a property read
      gives for a missing key, and what `logout` copies for a field that was
      never set; JSON text never holds it. */
  datatype Value = Undefined | Null | Bool(b: bool) | Str(s: string) | List(items: seq<string>)

  /** JavaScript truthiness: `undefined`, `null`, `false` and `""` are falsy;
      every other string, `true` and every array (even an empty one) are truthy. */
  predicate Truthy(v: Value)
    ensures Truthy(v) <==> v != Undefined && v != Null && v != Bool(false) && v != Str("")
  {
    match v
    case Undefined => false
    case Null => false
    case Bool(b) => b
    case Str(s) => s != ""
    case List(_) => true
  }

  /** `a || b`: the first operand when it is truthy, otherwise the second. */
  function Or(a: Value, b: Value): (r: Value)
    ensures Truthy(a) ==> r == a
    ensures !Truthy(a) ==> r == b
    ensures Truthy(r) <==> Truthy(a) || Truthy(b)
  {
    if Truthy(a) then a else b
  }

  /** `String(v)`, as a template literal `${v}` converts a value: an array
      becomes its items joined by commas. */
  function ToText(v: Value): (text: string)
    ensures v == Undefined ==> text == "undefined"
    ensures v == Null ==> text == "null"
    ensures v.Str? ==> text == v.s
    ensures v.Bool? ==> text == (if v.b then "true" else "false")
    ensures v == List([]) ==> text == ""
    ensures v.List? && |v.items| >= 1 ==> text == Join(v.items, ',')
    ensures v.List? && |v.items| == 1 ==> text == v.items[0]
  {
    match v
    case Undefined => "undefined"
    case Null => "null"
    case Bool(b) => if b then "true" else "false"
    case Str(s) => s
    case List(items) => if items == [] then "" else Join(items, ',')
  }
}
