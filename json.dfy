/**
 * Parsed JSON values as the modelled TypeScript sees them after `JSON.parse`,
 * with the JavaScript rules the code leans on: truthiness (`if (x)`, `a || b`),
 * property access on possibly missing values, and string coercion in
 * template literals. Numbers are integers in this model.
 */
module JsonValues {
  import opened Wrappers
  import Text

  datatype Json =
    | JNull
    | JBool(b: bool)
    | JNum(n: int)
    | JStr(s: string)
    | JArr(items: seq<Json>)
    | JObj(fields: map<string, Json>)

  /**
   * JavaScript truthiness of a possibly `undefined` value (`None`):
   * `undefined`, `null`, `false`, `0` and `""` are falsy, everything else truthy.
   */
  predicate Truthy(v: Option<Json>)
  {
    match v
    case None => false
    case Some(j) =>
      match j
      case JNull => false
      case JBool(b) => b
      case JNum(n) => n != 0
      case JStr(s) => s != ""
      case JArr(_) => true
      case JObj(_) => true
  }

  /** `a || b`: the left operand when it is truthy, otherwise the right one. */
  function Or(a: Option<Json>, b: Option<Json>): (r: Option<Json>)
    ensures Truthy(a) ==> r == a
    ensures !Truthy(a) ==> r == b
  {
    if Truthy(a) then a else b
  }

  /**
   * `v?.[key]`: the member of an object, `undefined` when `v` is not an
   * object or has no such key. Arrays and primitives carry none of the keys
   * the modelled code asks for.
   */
  function Get(v: Option<Json>, key: string): (r: Option<Json>)
    ensures r.Some? <==> (v.Some? && v.value.JObj? && key in v.value.fields)
    ensures r.Some? ==> r.value == v.value.fields[key]
  {
    match v
    case Some(JObj(m)) => if key in m then Some(m[key]) else None
    case _ => None
  }

  /** Reading a member with a plain `.` throws a TypeError on `undefined` and `null`. */
  predicate AccessThrows(v: Option<Json>)
  {
    v.None? || v.value.JNull?
  }

  /** `v?.[0]`: the first element of an array (or the member "0" of an object). */
  function First(v: Option<Json>): Option<Json>
  {
    match v
    case Some(JArr(items)) => if |items| > 0 then Some(items[0]) else None
    case Some(JObj(m)) => if "0" in m then Some(m["0"]) else None
    case _ => None
  }

  /** `v` is a JSON string equal to `s` (the `===` comparison with a literal). */
  predicate IsString(v: Option<Json>, s: string)
  {
    v == Some(JStr(s))
  }

  /** `String(v)`, equivalently `${v}` in a template literal. */
  function ToText(v: Option<Json>): string
  {
    match v
    case None => "undefined"
    case Some(j) => JsonText(j)
  }

  function JsonText(j: Json): string
  {
    match j
    case JNull => "null"
    case JBool(b) => if b then "true" else "false"
    case JNum(n) => Text.IntToString(n)
    case JStr(s) => s
    case JArr(items) => JoinItems(items)
    case JObj(_) => "[object Object]"
  }

  /** `Array.prototype.join(",")`, where `null` elements print as "". */
  function JoinItems(items: seq<Json>): string
    decreases items
  {
    if items == [] then ""
    else
      var head := if items[0].JNull? then "" else JsonText(items[0]);
      if |items| == 1 then head else head + "," + JoinItems(items[1..])
  }
}
