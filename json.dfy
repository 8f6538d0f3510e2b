/** JavaScript values as they travel through request bodies, query strings and SQL parameters,
    with the three tests the source applies to them: truthiness, `!== undefined`, and
    "not undefined, null or empty string". */
module Json {
  import Strings

  datatype Value =
    | Undefined
    | Null
    | Bool(b: bool)
    | Num(n: int)
    | NaN
    | Str(s: string)
    | Arr(items: seq<Value>)
    | Obj(fields: map<string, Value>)

  /** `v?.[key]`: a property of an object, `undefined` for anything else or a missing key. */
  function Get(v: Value, key: string): Value {
    if v.Obj? && key in v.fields then v.fields[key] else Undefined
  }

  /** JavaScript truthiness (`if (v)`, `!v`, `v || d`). Numbers are integers or NaN. */
  predicate Truthy(v: Value) {
    match v
    case Undefined => false
    case Null => false
    case Bool(b) => b
    case Num(n) => n != 0
    case NaN => false
    case Str(s) => s != ""
    case Arr(_) => true
    case Obj(_) => true
  }

  /** `v !== undefined && v !== null && v !== ''`. */
  predicate Present(v: Value) {
    v != Undefined && v != Null && v != Str("")
  }

  /** `v !== undefined`. */
  predicate Defined(v: Value) {
    v != Undefined
  }

  /** `v || fallback`. */
  function Or(v: Value, fallback: Value): Value {
    if Truthy(v) then v else fallback
  }

  /** `String(v)` for the values the source converts (`null`/`undefined` elements of an array print empty). */
  function ToText(v: Value): string {
    match v
    case Undefined => "undefined"
    case Null => "null"
    case Bool(b) => if b then "true" else "false"
    case Num(n) => Strings.IntToString(n)
    case NaN => "NaN"
    case Str(s) => s
    case Arr(items) =>
      Strings.Join(seq(|items|, i requires 0 <= i < |items| =>
        if items[i] == Undefined || items[i] == Null then "" else ToText(items[i])), ",")
    case Obj(_) => "[object Object]"
  }

  /** `Number(s)`: the empty text is 0, a run of decimal digits its value, anything else NaN. */
  function TextNumber(s: string): (r: Value)
    ensures s == "" ==> r == Num(0)
    ensures s != "" && Strings.ParseNat(s).Some? ==> r == Num(Strings.ParseNat(s).value)
    ensures s != "" && Strings.ParseNat(s).None? ==> r == NaN
  {
    if s == "" then Num(0)
    else match Strings.ParseNat(s)
      case Some(n) => Num(n)
      case None => NaN
  }

  /** `Number(v)`: an array converts through its text, an object and `undefined` give NaN. */
  function NumberOf(v: Value): (r: Value)
    ensures r.Num? || r.NaN?
    ensures v.Num? ==> r == v
    ensures v.Str? ==> r == TextNumber(v.s)
  {
    match v
    case Undefined => NaN
    case Null => Num(0)
    case Bool(b) => Num(if b then 1 else 0)
    case Num(_) => v
    case NaN => NaN
    case Str(s) => TextNumber(s)
    case Arr(_) => TextNumber(ToText(v))
    case Obj(_) => NaN
  }

  /** A string column or body value, as stored by the SQL driver (`undefined` becomes NULL). */
  function SqlValue(v: Value): Value {
    if v == Undefined then Null else v
  }
}
