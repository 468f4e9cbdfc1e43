/**
 * The JavaScript values a JSON request body can carry, as far as the
 * controllers look at them: whether a value is truthy, whether it is an
 * integer, and how a template literal renders it into an error message.
 * Numbers are split by what `Number.isInteger` says of them, so no
 * floating point is needed.
 */
module JsValues {

  datatype Option<+T> = None | Some(value: T)

  datatype Value =
    | Null
    | Bool(b: bool)
      /** a number for which `Number.isInteger` holds (`-0` is `Int(0)`) */
    | Int(i: int)
      /** a number with a fractional part, kept with its JavaScript rendering;
          a literal too large for a double, such as `1e400`, parses to
          `Infinity`, which behaves the same way (truthy, not an integer)
          and is `Fraction("Infinity")` here */
    | Fraction(text: string)
    | Str(s: string)
    | Arr(items: seq<Value>)
      /** an object, with its own properties */
    | Obj(fields: map<string, Value>)

  /** JavaScript truthiness: `null`, `false`, `0` and `""` are falsy. A
      number with a fractional part, or an infinity, is never zero, and
      every array and object is truthy, empty or not. */
  predicate Truthy(v: Value)
  {
    match v
    case Null => false
    case Bool(b) => b
    case Int(i) => i != 0
    case Fraction(_) => true
    case Str(s) => s != ""
    case Arr(_) => true
    case Obj(_) => true
  }

  /** Truthiness of a property read, where `None` is `undefined` (falsy). */
  predicate Present(v: Option<Value>)
  {
    v.Some? && Truthy(v.value)
  }

  /** `String(v)`, what `${v}` inserts into a template literal. */
  function Show(v: Value): string
  {
    match v
    case Null => "null"
    case Bool(b) => if b then "true" else "false"
    case Int(i) => IntToDecimal(i)
    case Fraction(t) => t
    case Str(s) => s
    case Arr(items) => Join(items)
    case Obj(_) => "[object Object]"
  }

  /** `items.join(",")`, where a `null` element contributes the empty string. */
  function Join(items: seq<Value>): string
  {
    if items == [] then ""
    else
      var first := if items[0] == Null then "" else Show(items[0]);
      if |items| == 1 then first else first + "," + Join(items[1..])
  }

  function IntToDecimal(i: int): string
  {
    if i < 0 then "-" + NatToDecimal(-i) else NatToDecimal(i)
  }

  function NatToDecimal(n: nat): string
  {
    var digit := ["0123456789"[n % 10]];
    if n < 10 then digit else NatToDecimal(n / 10) + digit
  }
}
