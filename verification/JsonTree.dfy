/** JSON as a value tree, with the two reading styles the programs use: jsoncpp in the
    services and QJsonValue in the GUI. A payload that does not parse is `None`. */
module JsonTree {
  import opened Wrappers
  import opened Decimal

  /** The text jsoncpp prints for a parsed real: it starts with a digit or a minus sign. */
  type NumberText = t: string | |t| > 0 && (t[0] == '-' || '0' <= t[0] <= '9') witness "0"

  datatype Json =
    | Null
    | Bool(b: bool)
    | Int(i: int)
    | Real(r: real, text: NumberText)
    | Str(s: string)
    | Arr(items: seq<Json>)
    | Obj(fields: map<string, Json>)

  const MAX_INT: int := 0x7FFF_FFFF
  const MIN_INT: int := -0x8000_0000

  /** jsoncpp `value[key]` on an object or null: absent members read as null. */
  function At(j: Json, key: string): Json {
    if j.Obj? && key in j.fields then j.fields[key] else Null
  }

  /** The text of a string value, the default for any other. */
  function TextOr(j: Json, default: string): string { if j.Str? then j.s else default }

  /** jsoncpp `isInt`: a real with an integral value in range also qualifies. */
  predicate IsInt(j: Json) {
    match j
    case Int(i) => MIN_INT <= i <= MAX_INT
    case Real(r, _) => MIN_INT as real <= r <= MAX_INT as real && r == r.Floor as real
    case _ => false
  }

  predicate IsNumeric(j: Json) { j.Int? || j.Real? }

  /** C++ conversion of a double to an integer drops the fraction. */
  function Truncate(r: real): (i: int)
    ensures r >= 0.0 ==> i as real <= r < i as real + 1.0
    ensures r <= 0.0 ==> i as real - 1.0 < r <= i as real
  {
    if r < 0.0 then -((-r).Floor) else r.Floor
  }

  /** jsoncpp `asInt` on a number; `None` is the library's range exception. */
  function AsInt(j: Json): (v: Option<int>)
    requires IsNumeric(j)
  {
    match j
    case Int(i) => if MIN_INT <= i <= MAX_INT then Some(i) else None
    case Real(r, _) =>
      if MIN_INT as real <= r <= MAX_INT as real then Some(Truncate(r)) else None
  }

  /** jsoncpp `asString`: scalars convert to text; `None` is the exception raised for
      arrays and objects. */
  function AsString(j: Json): Option<string> {
    match j
    case Null => Some("")
    case Bool(b) => Some(if b then "true" else "false")
    case Int(i) => Some(IntText(i))
    case Real(_, text) => Some(text)
    case Str(s) => Some(s)
    case Arr(_) => None
    case Obj(_) => None
  }

  /** QJsonObject: `contains`, and `value(key).toString(default)` / `toBool(default)`. */
  predicate Has(j: Json, key: string) { j.Obj? && key in j.fields }

  function QtString(j: Json, key: string, default: string): string {
    if Has(j, key) && j.fields[key].Str? then j.fields[key].s else default
  }

  function QtBool(j: Json, key: string, default: bool): bool {
    if Has(j, key) && j.fields[key].Bool? then j.fields[key].b else default
  }
}
