/** The JSON text Python's `json.dumps` produces with its default settings
    (`ensure_ascii=True`, separators `", "` and `": "`), for the values the
    backend serialises: objects with string keys in insertion order, arrays,
    strings, natural numbers, booleans and null.

    The point of modelling it is the NDJSON framing: with `ensure_ascii`
    every character outside printable ASCII is written as a `\uXXXX` escape,
    so an encoded value is printable ASCII and in particular never holds a
    line feed. */
module Json {
  import opened Common

  datatype Value =
    | Null
    | Bool(b: bool)
    | Number(n: nat)
    | Str(s: string)
    | Array(items: seq<Value>)
    | Object(members: seq<Member>)

  datatype Member = Member(key: string, value: Value)

  /** Every character is printable ASCII (space through tilde). */
  predicate Printable(s: string) {
    forall k :: 0 <= k < |s| ==> ' ' <= s[k] <= '~'
  }

  lemma PrintableConcat(a: string, b: string)
    requires Printable(a) && Printable(b)
    ensures Printable(a + b)
  {
    forall k | 0 <= k < |a + b|
      ensures ' ' <= (a + b)[k] <= '~'
    {
      if k >= |a| {
        assert (a + b)[k] == b[k - |a|];
      }
    }
  }

  /** A printable string holds no line feed. */
  lemma PrintableHasNoLineFeed(s: string)
    requires Printable(s)
    ensures '\n' !in s
  {
  }

  /** A lower-case hexadecimal digit, as `json.dumps` writes them. */
  function HexDigit(d: nat): (c: char)
    requires d < 16
    ensures ('0' <= c <= '9') || ('a' <= c <= 'f')
  {
    if d < 10 then ('0' as int + d) as char else ('a' as int + d - 10) as char
  }

  /** A 16-bit code unit as four hexadecimal digits. */
  function Hex4(n: nat): (r: string)
    requires n < 0x1_0000
    ensures |r| == 4 && Printable(r)
  {
    [HexDigit(n / 0x1000), HexDigit(n / 0x100 % 16), HexDigit(n / 16 % 16), HexDigit(n % 16)]
  }

  /** One character of a string literal: the two-character escapes for the
      quote, the backslash and five control characters; other printable ASCII
      as is; everything else as `\uXXXX`, characters beyond the Basic
      Multilingual Plane as a UTF-16 surrogate pair. */
  function EscapeChar(c: char): (r: string)
    ensures |r| >= 1 && Printable(r)
    ensures ' ' <= c <= '~' && c != '"' && c != '\\' ==> r == [c]
  {
    if c == '"' then "\\\""
    else if c == '\\' then "\\\\"
    else if c == '\n' then "\\n"
    else if c == '\r' then "\\r"
    else if c == '\t' then "\\t"
    else if c == '\U{0008}' then "\\b"
    else if c == '\U{000C}' then "\\f"
    else if ' ' <= c <= '~' then [c]
    else if c as int < 0x1_0000 then "\\u" + Hex4(c as int)
    else
      var v := c as int - 0x1_0000;
      "\\u" + Hex4(0xD800 + v / 0x400) + "\\u" + Hex4(0xDC00 + v % 0x400)
  }

  function EscapeChars(s: string): (r: string)
    ensures |r| >= |s| && Printable(r)
  {
    if s == [] then ""
    else
      var head := EscapeChar(s[0]);
      var tail := EscapeChars(s[1..]);
      PrintableConcat(head, tail);
      head + tail
  }

  /** A JSON string literal. */
  function Quote(s: string): (r: string)
    ensures |r| >= 2 && r[0] == '"' && r[|r| - 1] == '"'
    ensures Printable(r)
  {
    var body := EscapeChars(s);
    PrintableConcat("\"", body);
    PrintableConcat("\"" + body, "\"");
    "\"" + body + "\""
  }

  /** `json.dumps(v)`: printable ASCII, so never a line feed; an object is
      written between braces. */
  function Encode(v: Value): (r: string)
    ensures Printable(r) && r != []
    ensures v.Object? ==> r[0] == '{' && r[|r| - 1] == '}'
    decreases v, 1
  {
    match v
    case Null => "null"
    case Bool(b) => if b then "true" else "false"
    case Number(n) => NatToString(n)
    case Str(s) => Quote(s)
    case Array(items) =>
      var inner := EncodeItems(items);
      PrintableConcat("[", inner);
      PrintableConcat("[" + inner, "]");
      "[" + inner + "]"
    case Object(members) =>
      var inner := EncodeMembers(members);
      PrintableConcat("{", inner);
      PrintableConcat("{" + inner, "}");
      "{" + inner + "}"
  }

  /** Array elements separated by `", "`. */
  function EncodeItems(items: seq<Value>): (r: string)
    ensures Printable(r)
    decreases items, 0
  {
    if items == [] then ""
    else
      var head := Encode(items[0]);
      if |items| == 1 then head
      else
        var tail := EncodeItems(items[1..]);
        PrintableConcat(head, ", ");
        PrintableConcat(head + ", ", tail);
        head + ", " + tail
  }

  /** Object members `"key": value`, separated by `", "`. */
  function EncodeMembers(members: seq<Member>): (r: string)
    ensures Printable(r)
    decreases members, 0
  {
    if members == [] then ""
    else
      var key := Quote(members[0].key);
      var value := Encode(members[0].value);
      PrintableConcat(key, ": ");
      PrintableConcat(key + ": ", value);
      var head := key + ": " + value;
      if |members| == 1 then head
      else
        var tail := EncodeMembers(members[1..]);
        PrintableConcat(head, ", ");
        PrintableConcat(head + ", ", tail);
        head + ", " + tail
  }
}
