/**
 * The JSON text written by Python's `json.dumps` with its default settings
 * (item separator ", ", key separator ": ", `ensure_ascii=True`), for the
 * values the event stream carries: the events pushed to a station and the
 * keepalive string.
 */
module JsonText {

  /** A JSON value. Object members keep their insertion order, as Python dicts do. */
  datatype Json =
    | Null
    | Bool(b: bool)
    | Int(i: int)
    | Str(s: string)
    | Arr(elems: seq<Json>)
    | Obj(members: seq<(string, Json)>)

  /** Every character is printable ASCII, from space to tilde. */
  predicate Printable(s: string) {
    forall i :: 0 <= i < |s| ==> ' ' <= s[i] <= '~'
  }

  /** A lower-case hexadecimal or decimal digit. */
  function Digit(d: nat): (c: char)
    requires d < 16
    ensures ('0' <= c <= '9') || ('a' <= c <= 'f')
  {
    if d < 10 then ('0' as int + d) as char else ('a' as int + d - 10) as char
  }

  /** Four lower-case hex digits, as Python's '{0:04x}' format. */
  function Hex4(n: nat): (r: string)
    requires n < 0x1_0000
    ensures |r| == 4 && Printable(r)
  {
    [Digit(n / 0x1000), Digit(n / 0x100 % 16), Digit(n / 16 % 16), Digit(n % 16)]
  }

  /** The decimal digits of `n`, most significant first, as Python's `str`. */
  function Decimal(n: nat): (r: string)
    ensures |r| > 0
    ensures forall i :: 0 <= i < |r| ==> '0' <= r[i] <= '9'
    ensures n < 10 <==> |r| == 1
  {
    if n < 10 then [Digit(n)] else Decimal(n / 10) + [Digit(n % 10)]
  }

  /** Python's `str` of an int: a minus sign before the digits of a negative number. */
  function IntText(i: int): (r: string)
    ensures Printable(r) && r != []
    ensures (r[0] == '-') <==> i < 0
  {
    if i < 0 then "-" + Decimal(-i) else Decimal(i)
  }

  /**
   * What `json.dumps` writes for one character of a string: the quote and
   * the backslash are escaped, the control characters get their short or
   * \u00XX escape, printable ASCII is kept, and every other code point is
   * written as \uXXXX (above U+FFFF as a UTF-16 surrogate pair).
   */
  function EscapeChar(c: char): (r: string)
    ensures Printable(r) && r != []
    ensures r == [c] <==> ' ' <= c <= '~' && c != '"' && c != '\\'
  {
    var n := c as int;
    if c == '"' then "\\\""
    else if c == '\\' then "\\\\"
    else if n == 0x08 then "\\b"
    else if n == 0x0c then "\\f"
    else if c == '\n' then "\\n"
    else if c == '\r' then "\\r"
    else if c == '\t' then "\\t"
    else if ' ' <= c <= '~' then [c]
    else if n < 0x1_0000 then "\\u" + Hex4(n)
    else
      var m := n - 0x1_0000;
      "\\u" + Hex4(0xd800 + m / 0x400) + "\\u" + Hex4(0xdc00 + m % 0x400)
  }

  /** The escaped body of a string literal. */
  function EscapeString(s: string): (r: string)
    ensures Printable(r)
    ensures |r| >= |s|
  {
    if s == [] then [] else EscapeChar(s[0]) + EscapeString(s[1..])
  }

  /** A JSON string literal. */
  function Quote(s: string): (r: string)
    ensures Printable(r)
    ensures |r| >= 2 && r[0] == '"' && r[|r| - 1] == '"'
  {
    "\"" + EscapeString(s) + "\""
  }

  /**
   * `json.dumps(v)`. Whatever `v` holds, the text is printable ASCII, so it
   * never contains the line breaks that end a server-sent-event field.
   */
  function Serialize(v: Json): (r: string)
    ensures Printable(r) && r != []
    decreases v, 1
  {
    match v
    case Null => "null"
    case Bool(b) => if b then "true" else "false"
    case Int(i) => IntText(i)
    case Str(s) => Quote(s)
    case Arr(elems) => "[" + SerializeElems(v, elems) + "]"
    case Obj(members) => "{" + SerializeMembers(v, members) + "}"
  }

  /** The elements of an array, separated by ", ". */
  function SerializeElems(ghost parent: Json, elems: seq<Json>): (r: string)
    requires forall i :: 0 <= i < |elems| ==> elems[i] < parent
    ensures Printable(r)
    ensures r == [] <==> elems == []
    decreases parent, 0, |elems|
  {
    if elems == [] then ""
    else if |elems| == 1 then Serialize(elems[0])
    else Serialize(elems[0]) + ", " + SerializeElems(parent, elems[1..])
  }

  /** The members of an object, each `"key": value`, separated by ", ". */
  function SerializeMembers(ghost parent: Json, members: seq<(string, Json)>): (r: string)
    requires forall i :: 0 <= i < |members| ==> members[i].1 < parent
    ensures Printable(r)
    ensures r == [] <==> members == []
    decreases parent, 0, |members|
  {
    if members == [] then ""
    else
      var entry := Quote(members[0].0) + ": " + Serialize(members[0].1);
      if |members| == 1 then entry
      else entry + ", " + SerializeMembers(parent, members[1..])
  }
}
