/**
 * Loosely typed JavaScript values, as the form data of a case holds them:
 * truthiness and the `||` operator, property access, `String(v)` (what a
 * template literal does to a value) and `JSON.stringify`.
 * An object is an ordered list of members, because JSON text lists them in
 * insertion order (true for the non-numeric keys the application uses; keys
 * that look like array indices, which `JSON.stringify` lists first, are not
 * modelled); numbers are integers.
 */
module JsValue {
  import opened Wrappers
  import opened JsText

  datatype Value =
    | Undefined
    | Null
    | Bool(b: bool)
    | Num(n: int)
    | Str(s: string)
    | Arr(elems: seq<Value>)
    | Obj(members: seq<Member>)

  datatype Member = Member(key: string, val: Value)

  /** A `Record<string, any>`: the members of a plain object, in insertion order. */
  type Record = seq<Member>

  /** JavaScript truthiness: `undefined`, `null`, `false`, `0` and `''` are falsy. */
  predicate Truthy(v: Value) {
    match v
    case Undefined => false
    case Null => false
    case Bool(b) => b
    case Num(n) => n != 0
    case Str(s) => s != ""
    case Arr(_) => true
    case Obj(_) => true
  }

  /** `a || b` */
  function Or(a: Value, b: Value): Value {
    if Truthy(a) then a else b
  }

  /** `record[key]`: the value of the member named `key`, `undefined` when there is none. */
  function Get(r: Record, key: string): Value {
    if r == [] then Undefined
    else if r[0].key == key then r[0].val
    else Get(r[1..], key)
  }

  /** `v.key` on a value that is not `null` or `undefined`: only objects have the named members. */
  function Prop(v: Value, key: string): Value {
    if v.Obj? then Get(v.members, key) else Undefined
  }

  /** `String(v)`, as a template literal `${v}` converts a value. */
  function ToStr(v: Value): string {
    match v
    case Undefined => "undefined"
    case Null => "null"
    case Bool(b) => if b then "true" else "false"
    case Num(n) => IntToString(n)
    case Str(s) => s
    case Arr(es) =>
      // Array.prototype.join: null and undefined elements become empty strings
      Join(seq(|es|, i requires 0 <= i < |es| => if es[i].Null? || es[i].Undefined? then "" else ToStr(es[i])), ',')
    case Obj(_) => "[object Object]"
  }

  function HexDigit(d: nat): char
    requires d < 16
  {
    if d < 10 then DigitChar(d) else ('a' as int + d - 10) as char
  }

  /** How `JSON.stringify` writes one character of a string. */
  function EscapeChar(c: char): string {
    if c == '"' then "\\\""
    else if c == '\\' then "\\\\"
    else if c == '\U{0008}' then "\\b"
    else if c == '\U{000C}' then "\\f"
    else if c == '\n' then "\\n"
    else if c == '\r' then "\\r"
    else if c == '\t' then "\\t"
    else if c < ' ' then "\\u00" + [HexDigit(c as int / 16), HexDigit(c as int % 16)]
    else [c]
  }

  function Escape(s: string): string {
    if s == [] then "" else EscapeChar(s[0]) + Escape(s[1..])
  }

  /** A JSON string literal. */
  function Quote(s: string): string {
    "\"" + Escape(s) + "\""
  }

  /** Keeps the present texts, in order. */
  function Present(parts: seq<Option<string>>): seq<string> {
    if parts == [] then []
    else (if parts[0].Some? then [parts[0].value] else []) + Present(parts[1..])
  }

  /**
   * `JSON.stringify(v)` for a value inside an array or object. `undefined`
   * becomes `null` in an array and is left out of an object.
   */
  function Json(v: Value): (r: string)
    ensures |r| > 0
  {
    match v
    case Undefined => "null"
    case Null => "null"
    case Bool(b) => if b then "true" else "false"
    case Num(n) => IntToString(n)
    case Str(s) => Quote(s)
    case Arr(es) =>
      "[" + Join(seq(|es|, i requires 0 <= i < |es| => Json(es[i])), ',') + "]"
    case Obj(ms) =>
      var parts := seq(|ms|, i requires 0 <= i < |ms| =>
        if ms[i].val.Undefined? then None else Some(Quote(ms[i].key) + ":" + Json(ms[i].val)));
      "{" + Join(Present(parts), ',') + "}"
  }

  /** `JSON.stringify(record)`. */
  function JsonRecord(r: Record): (text: string)
    ensures |text| >= 2 && text[0] == '{'
  {
    Json(Obj(r))
  }
}
