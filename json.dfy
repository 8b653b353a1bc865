/** The JSON-like values the database cache stores and `colorize` renders,
    and the string quoting of `JSON.stringify` (section 7 of RFC 8259). */
module Json {
  import opened JsString

  /** A JavaScript value as these sources meet it. Numbers are integral;
      an object is its `Object.entries` list; `Other` is a function or a
      bigint, kept as the text a template literal makes of it. A symbol has
      no such text (the template literal throws) and is not a value here. */
  datatype Json =
    | Undefined
    | Null
    | Bool(b: bool)
    | Num(n: int)
    | Str(s: string)
    | Arr(items: seq<Json>)
    | Obj(entries: seq<(string, Json)>)
    | Other(repr: string)

  /** Whether a value is null or undefined, the values `??` replaces. */
  predicate Nullish(v: Json) {
    v.Undefined? || v.Null?
  }

  /** `String(b)`. */
  function BoolText(b: bool): string {
    if b then "true" else "false"
  }

  /** The lower-case hexadecimal digit of `d`. */
  function Hex(d: nat): (r: char)
    requires d < 16
    ensures r as int < 128
  {
    "0123456789abcdef"[d]
  }

  /** The escape `JSON.stringify` writes for one character of a string:
      the quote and the backslash are escaped, the five control characters
      with a short escape get it, any other control character becomes
      `\u00XX`, and everything else stands for itself. */
  function Escape(c: char): (r: string)
    ensures forall x :: x in r && x != c ==> x as int < 128
  {
    if c == '"' then "\\\""
    else if c == '\\' then "\\\\"
    else if c == '\U{8}' then "\\b"
    else if c == '\U{C}' then "\\f"
    else if c == '\n' then "\\n"
    else if c == '\r' then "\\r"
    else if c == '\t' then "\\t"
    else if c < ' ' then "\\u00" + [Hex(c as int / 16), Hex(c as int % 16)]
    else [c]
  }

  function EscapeAll(s: string): (r: string)
    ensures forall x :: x in r && x !in s ==> x as int < 128
  {
    if s == [] then []
    else
      var r := Escape(s[0]) + EscapeAll(s[1..]);
      assert forall x :: x in r && x !in s ==> x as int < 128 by {
        forall x | x in r && x !in s ensures x as int < 128 {
          if x in Escape(s[0]) {
          } else {
            assert x in EscapeAll(s[1..]);
          }
        }
      }
      r
  }

  /** `JSON.stringify(s)` for a string: the escaped characters between double
      quotes. Besides the quotes and escapes, it adds only ASCII characters. */
  function Quote(s: string): (r: string)
    ensures |r| >= 2 && r[0] == '"' && r[|r| - 1] == '"'
    ensures forall x :: x in r && x !in s ==> x as int < 128
  {
    "\"" + EscapeAll(s) + "\""
  }
}
