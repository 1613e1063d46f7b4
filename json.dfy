/**
 * JSON values as the backend handles them (request bodies, session data,
 * StackStorm responses), with the pieces of Python semantics the routes
 * depend on: truthiness, dict.get, str() and the AttributeError text
 * produced when a non-dict value is used as a dict.
 */
module Json {
  import opened Text

  datatype Json =
    | Null
    | Bool(b: bool)
    | Int(i: int)
    | Str(s: string)
    | Arr(items: seq<Json>)
    | Obj(fields: map<string, Json>)

  /** Python's bool(v). */
  predicate Truthy(v: Json) {
    match v
    case Null => false
    case Bool(b) => b
    case Int(i) => i != 0
    case Str(s) => s != ""
    case Arr(xs) => xs != []
    case Obj(m) => m != map[]
  }

  /** d.get(key, default) */
  function GetOr(m: map<string, Json>, key: string, default: Json): Json {
    if key in m then m[key] else default
  }

  /** d.get(key) */
  function Get(m: map<string, Json>, key: string): Json {
    GetOr(m, key, Null)
  }

  /** type(v).__name__ */
  function TypeName(v: Json): string {
    match v
    case Null => "NoneType"
    case Bool(_) => "bool"
    case Int(_) => "int"
    case Str(_) => "str"
    case Arr(_) => "list"
    case Obj(_) => "dict"
  }

  /** The message of the AttributeError raised by v.attr on a value without that attribute. */
  function NoAttribute(v: Json, attr: string): string {
    "'" + TypeName(v) + "' object has no attribute '" + attr + "'"
  }

  /** A lower-case hexadecimal digit. */
  function HexDigit(d: nat): char
    requires d < 16
  {
    if d < 10 then ('0' as int + d) as char else ('a' as int + d - 10) as char
  }

  /**
   * Characters repr() escapes inside a string literal: the backslash, the
   * quote, the three named controls, and every other ASCII control as \xhh.
   */
  function EscapeChar(c: char, quote: char): string {
    if c == '\\' then "\\\\"
    else if c == quote then ['\\', quote]
    else if c == '\n' then "\\n"
    else if c == '\r' then "\\r"
    else if c == '\t' then "\\t"
    else if c as int < 0x20 || c as int == 0x7f then ['\\', 'x', HexDigit(c as int / 16), HexDigit(c as int % 16)]
    else [c]
  }

  function Escape(s: string, quote: char): string
    decreases |s|
  {
    if s == [] then "" else EscapeChar(s[0], quote) + Escape(s[1..], quote)
  }

  /** repr() of a str: single quotes unless the text holds ' and no ". */
  function StrRepr(s: string): string {
    var quote := if '\'' in s && '"' !in s then '"' else '\'';
    [quote] + Escape(s, quote) + [quote]
  }

  /** ", ".join(parts) */
  function JoinComma(parts: seq<string>): string
    decreases |parts|
  {
    if parts == [] then ""
    else if |parts| == 1 then parts[0]
    else parts[0] + ", " + JoinComma(parts[1..])
  }

  /** repr(v), as used for the elements of a list. */
  function Repr(v: Json): string
    decreases v, 1
  {
    if v.Str? then StrRepr(v.s) else PyStr(v)
  }

  /** str(v), as an f-string renders it. */
  function PyStr(v: Json): string
    decreases v, 0
  {
    match v
    case Null => "None"
    case Bool(b) => if b then "True" else "False"
    case Int(i) => IntToString(i)
    case Str(s) => s
    case Arr(xs) => "[" + JoinComma(seq(|xs|, i requires 0 <= i < |xs| => Repr(xs[i]))) + "]"
    case Obj(m) => if m == map[] then "{}" else "{...}"
  }
}
