/** The JSON values `serde_json::Value` holds once a configuration file is read, and their
    compact rendering (`Display`), which the configuration errors show.

    An integer is a `Number`; a floating-point number is a `Float` held as the text serde_json
    prints for it (its shortest round-trip decimal form), since no arithmetic is done on it here.
    Objects keep their members in the order given; `get` returns the
    first member with the key. */
module Json {
  import opened Results
  import opened Text

  datatype Json =
    | Null
    | Bool(b: bool)
    | Number(n: int)
    | Float(shown: string)
    | Str(s: string)
    | Array(items: seq<Json>)
    | Object(members: seq<(string, Json)>)

  /** `value.get(key)`: the member's value for an object, nothing for any other value. */
  function Get(j: Json, key: string): Option<Json> {
    if j.Object? then Lookup(j.members, key) else None
  }

  /** A key is found only in an object, as one of its members; a key not found belongs to no
      member. */
  lemma GetFound(j: Json, key: string)
    ensures Get(j, key).Some? ==> j.Object? && exists k :: 0 <= k < |j.members| && j.members[k] == (key, Get(j, key).value)
    ensures Get(j, key).None? ==> !j.Object? || forall k :: 0 <= k < |j.members| ==> j.members[k].0 != key
  {
  }

  function Lookup(members: seq<(string, Json)>, key: string): (r: Option<Json>)
    ensures r.Some? ==> exists k :: 0 <= k < |members| && members[k] == (key, r.value)
    ensures r.None? ==> forall k :: 0 <= k < |members| ==> members[k].0 != key
  {
    if members == [] then None
    else if members[0].0 == key then Some(members[0].1)
    else
      var r := Lookup(members[1..], key);
      assert r.Some? ==> members[1..][..] == members[1..];
      r
  }

  /** A member before the key's first one does not hide it. */
  lemma LookupCons(k: string, v: Json, rest: seq<(string, Json)>, key: string)
    ensures Lookup([(k, v)] + rest, key) == if k == key then Some(v) else Lookup(rest, key)
  {
    assert ([(k, v)] + rest)[1..] == rest;
  }

  // ---- string escaping ----

  const HexDigits: string := "0123456789abcdef"

  /** How serde_json writes one character inside a string literal. */
  function EscapeChar(c: char): (e: string)
    ensures e != []
    ensures e[0] == '\\' <==> (c == '"' || c == '\\' || (c as int) < 0x20)
  {
    if c == '"' then "\\\""
    else if c == '\\' then "\\\\"
    else if c == '\U{8}' then "\\b"
    else if c == '\U{c}' then "\\f"
    else if c == '\n' then "\\n"
    else if c == '\r' then "\\r"
    else if c == '\t' then "\\t"
    else if (c as int) < 0x20 then "\\u00" + [HexDigits[c as int / 16], HexDigits[c as int % 16]]
    else [c]
  }

  function Escape(s: string): string {
    if s == [] then [] else EscapeChar(s[0]) + Escape(s[1..])
  }

  function HexValue(c: char): (v: Option<nat>)
    ensures v.Some? ==> v.value < 16 && HexDigits[v.value] == c
  {
    if '0' <= c <= '9' then Some(c as int - '0' as int)
    else if 'a' <= c <= 'f' then Some(c as int - 'a' as int + 10)
    else None
  }

  /** The character a two-character escape `\x` stands for. */
  function ShortEscape(x: char): Option<char> {
    match x
    case '"' => Some('"')
    case '\\' => Some('\\')
    case 'b' => Some('\U{8}')
    case 'f' => Some('\U{c}')
    case 'n' => Some('\n')
    case 'r' => Some('\r')
    case 't' => Some('\t')
    case _ => None
  }

  /** The control character a `\u00XY` escape stands for. */
  function UnicodeEscape(e: string): (c: Option<char>)
    requires |e| == 4
    ensures c.Some? ==> (c.value as int) < 0x20
  {
    if e[..2] == "00" && HexValue(e[2]).Some? && HexValue(e[3]).Some? && HexValue(e[2]).value < 2 then
      Some((HexValue(e[2]).value * 16 + HexValue(e[3]).value) as char)
    else None
  }

  /** Reads back the body of a string literal written by `Escape`. */
  function Unescape(e: string): (r: Option<string>)
    decreases |e|
  {
    if e == [] then Some([])
    else if e[0] == '"' then None
    else if e[0] != '\\' then Prepend(e[0], Unescape(e[1..]))
    else if |e| >= 2 && ShortEscape(e[1]).Some? then Prepend(ShortEscape(e[1]).value, Unescape(e[2..]))
    else if |e| >= 6 && e[1] == 'u' && UnicodeEscape(e[2..6]).Some? then
      Prepend(UnicodeEscape(e[2..6]).value, Unescape(e[6..]))
    else None
  }

  function Prepend(c: char, r: Option<string>): Option<string> {
    if r.Some? then Some([c] + r.value) else None
  }

  lemma UnescapeRaw(c: char, rest: string)
    requires c != '"' && c != '\\'
    ensures Unescape([c] + rest) == Prepend(c, Unescape(rest))
  {
    assert ([c] + rest)[1..] == rest;
  }

  lemma UnescapeShort(x: char, c: char, rest: string)
    requires ShortEscape(x) == Some(c)
    ensures Unescape("\\" + [x] + rest) == Prepend(c, Unescape(rest))
  {
    assert ("\\" + [x] + rest)[2..] == rest;
  }

  lemma UnescapeUnicode(c: char, rest: string)
    requires (c as int) < 0x20
    ensures Unescape(EscapeChar(c) + rest) == Prepend(c, Unescape(rest))
  {
    if c !in "\U{8}\U{c}\n\r\t" {
      UnescapeLong(c, rest);
    } else if c == '\U{8}' {
      UnescapeShort('b', c, rest);
    } else if c == '\U{c}' {
      UnescapeShort('f', c, rest);
    } else if c == '\n' {
      UnescapeShort('n', c, rest);
    } else if c == '\r' {
      UnescapeShort('r', c, rest);
    } else {
      UnescapeShort('t', c, rest);
    }
  }

  /** A control character without a two-character escape reads back from its `\u00XY`. */
  lemma UnescapeLong(c: char, rest: string)
    requires (c as int) < 0x20 && c !in "\U{8}\U{c}\n\r\t"
    ensures Unescape(EscapeChar(c) + rest) == Prepend(c, Unescape(rest))
  {
    var u := "00" + [HexDigits[c as int / 16], HexDigits[c as int % 16]];
    HexPair(c);
    var e := EscapeChar(c) + rest;
    assert EscapeChar(c) == "\\u" + u;
    assert e == "\\u" + u + rest;
    assert e[2..6] == u;
    assert e[6..] == rest;
    assert ShortEscape(e[1]).None?;
  }

  /** The two hexadecimal digits of a control character read back to it. */
  lemma HexPair(c: char)
    requires (c as int) < 0x20
    ensures UnicodeEscape("00" + [HexDigits[c as int / 16], HexDigits[c as int % 16]]) == Some(c)
  {
    var hi := c as int / 16;
    var lo := c as int % 16;
    var u := "00" + [HexDigits[hi], HexDigits[lo]];
    assert HexValue(HexDigits[hi]) == Some(hi);
    assert HexValue(HexDigits[lo]) == Some(lo);
    assert u[..2] == "00" && u[2] == HexDigits[hi] && u[3] == HexDigits[lo];
  }

  lemma UnescapeChar(c: char, rest: string)
    ensures Unescape(EscapeChar(c) + rest) == Prepend(c, Unescape(rest))
  {
    if c == '"' {
      UnescapeShort('"', c, rest);
    } else if c == '\\' {
      UnescapeShort('\\', c, rest);
    } else if (c as int) < 0x20 {
      UnescapeUnicode(c, rest);
    } else {
      UnescapeRaw(c, rest);
    }
  }

  /** Escaping can be undone: a rendered string literal names exactly its string. */
  lemma {:induction false} UnescapeEscape(s: string)
    ensures Unescape(Escape(s)) == Some(s)
  {
    if s != [] {
      UnescapeEscape(s[1..]);
      UnescapeChar(s[0], Escape(s[1..]));
      assert [s[0]] + s[1..] == s;
    }
  }

  // ---- rendering ----

  /** `value.to_string()`: the compact JSON text. */
  function Render(j: Json): string
    decreases j, 1
  {
    match j
    case Null => "null"
    case Bool(b) => BoolToString(b)
    case Number(n) => IntToString(n)
    case Float(shown) => shown
    case Str(s) => "\"" + Escape(s) + "\""
    case Array(items) => "[" + RenderItems(items) + "]"
    case Object(members) => "{" + RenderMembers(members) + "}"
  }

  function RenderItems(items: seq<Json>): string
    decreases items, 0
  {
    if items == [] then []
    else if |items| == 1 then Render(items[0])
    else Render(items[0]) + "," + RenderItems(items[1..])
  }

  function RenderMembers(members: seq<(string, Json)>): string
    decreases members, 0
  {
    if members == [] then []
    else
      var (key, value) := members[0];
      assert value < members[0];
      var m := "\"" + Escape(key) + "\":" + Render(value);
      if |members| == 1 then m else m + "," + RenderMembers(members[1..])
  }

  /** A rendered string is a quoted literal that reads back to the string. */
  lemma RenderStrRoundTrip(s: string)
    ensures var r := Render(Str(s));
      |r| >= 2 && r[0] == '"' && r[|r| - 1] == '"' && Unescape(r[1..|r| - 1]) == Some(s)
  {
    var r := Render(Str(s));
    assert r[1..|r| - 1] == Escape(s);
    UnescapeEscape(s);
  }

  /** A rendered number is its decimal text, which reads back to the number. */
  lemma RenderNumberRoundTrip(n: int)
    ensures ParseInt(Render(Number(n))) == Some(n)
  {
    IntToStringRoundTrip(n);
  }
}
