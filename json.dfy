/**
 * The body sendMessage publishes: JSON.stringify of the object
 * { sender, content } (src/App.jsx:246-249), written out as ECMA-262 section
 * 25.5.2 specifies it (SerializeJSONObject with its keys in insertion order,
 * QuoteJSONString for each string), together with a decoder for exactly that
 * shape. The round trip shows the encoding loses nothing: whatever reads the
 * body can recover both fields.
 */
module Json {
  import opened Wrappers
  import opened ChatMessage

  /** A lower-case hexadecimal digit, as QuoteJSONString's UnicodeEscape writes it. */
  function HexDigit(d: nat): (c: char)
    requires d < 16
    ensures HexValue(c) == Some(d)
  {
    if d < 10 then ('0' as int + d) as char else ('a' as int + d - 10) as char
  }

  /** The value of a hexadecimal digit of either case. */
  function HexValue(c: char): (r: Option<nat>)
    ensures r.Some? ==> r.value < 16
  {
    if '0' <= c <= '9' then Some(c as int - '0' as int)
    else if 'a' <= c <= 'f' then Some(c as int - 'a' as int + 10)
    else if 'A' <= c <= 'F' then Some(c as int - 'A' as int + 10)
    else None
  }

  function Hex4(a: char, b: char, c: char, d: char): (r: Option<nat>)
    ensures r.Some? ==> r.value < 0x10000
  {
    match (HexValue(a), HexValue(b), HexValue(c), HexValue(d))
    case (Some(w), Some(x), Some(y), Some(z)) => Some(((w * 16 + x) * 16 + y) * 16 + z)
    case _ => None
  }

  /** QuoteJSONString's treatment of one code point: the seven short escapes,
      \u00XX for the remaining controls, the code point itself otherwise. */
  function EscapeChar(c: char): string
  {
    var n := c as int;
    if n == 0x08 then "\\b"
    else if n == 0x09 then "\\t"
    else if n == 0x0A then "\\n"
    else if n == 0x0C then "\\f"
    else if n == 0x0D then "\\r"
    else if c == '"' then "\\\""
    else if c == '\\' then "\\\\"
    else if n < 0x20 then "\\u00" + [HexDigit(n / 16), HexDigit(n % 16)]
    else [c]
  }

  function EscapeBody(s: string): string
  {
    if s == [] then [] else EscapeChar(s[0]) + EscapeBody(s[1..])
  }

  /** QuoteJSONString. */
  function Quote(s: string): string
  {
    "\"" + EscapeBody(s) + "\""
  }

  const SenderKey: string := "{\"sender\":"
  const ContentKey: string := ",\"content\":"

  /** JSON.stringify({ sender: m.sender, content: m.content }). */
  function EncodeMessage(m: Message): string
  {
    SenderKey + Quote(m.sender) + ContentKey + Quote(m.content) + "}"
  }

  /** The escape sequence after a backslash: the code point it stands for and
      what follows it. A \u escape naming a lone surrogate is refused. */
  function ParseEscape(t: string): (r: Option<(char, string)>)
    ensures r.Some? ==> |r.value.1| < |t|
  {
    if t == [] then None
    else if t[0] == '"' then Some(('"', t[1..]))
    else if t[0] == '\\' then Some(('\\', t[1..]))
    else if t[0] == '/' then Some(('/', t[1..]))
    else if t[0] == 'b' then Some((0x08 as char, t[1..]))
    else if t[0] == 'f' then Some((0x0C as char, t[1..]))
    else if t[0] == 'n' then Some((0x0A as char, t[1..]))
    else if t[0] == 'r' then Some((0x0D as char, t[1..]))
    else if t[0] == 't' then Some((0x09 as char, t[1..]))
    else if t[0] == 'u' && |t| >= 5 then
      match Hex4(t[1], t[2], t[3], t[4])
      case None => None
      case Some(v) => if 0xD800 <= v < 0xE000 then None else Some((v as char, t[5..]))
    else None
  }

  function Prepend(c: char, r: Option<(string, string)>): Option<(string, string)>
  {
    match r
    case None => None
    case Some((s, rest)) => Some(([c] + s, rest))
  }

  /** The characters of a string literal up to its closing quote, and what
      follows the quote. A raw control character is refused, as JSON demands. */
  function ParseChars(t: string): Option<(string, string)>
    decreases |t|
  {
    if t == [] then None
    else if t[0] == '"' then Some(([], t[1..]))
    else if t[0] == '\\' then
      match ParseEscape(t[1..])
      case None => None
      case Some((c, after)) => Prepend(c, ParseChars(after))
    else if t[0] as int < 0x20 then None
    else Prepend(t[0], ParseChars(t[1..]))
  }

  function ParseString(t: string): Option<(string, string)>
  {
    if t != [] && t[0] == '"' then ParseChars(t[1..]) else None
  }

  function StripPrefix(p: string, t: string): (r: Option<string>)
    ensures r.Some? ==> t == p + r.value
  {
    if |p| <= |t| && t[..|p|] == p then Some(t[|p|..]) else None
  }

  /** Reads back exactly the bodies EncodeMessage writes. */
  function DecodeMessage(body: string): Option<Message>
  {
    match StripPrefix(SenderKey, body)
    case None => None
    case Some(t1) =>
      match ParseString(t1)
      case None => None
      case Some((sender, t2)) =>
        match StripPrefix(ContentKey, t2)
        case None => None
        case Some(t3) =>
          match ParseString(t3)
          case None => None
          case Some((content, t4)) => if t4 == "}" then Some(Message(sender, content)) else None
  }

  /** One escaped code point in front of the rest of a literal reads back as
      that code point in front of what the rest reads back as. */
  lemma ParseEscapedChar(c: char, tail: string)
    ensures ParseChars(EscapeChar(c) + tail) == Prepend(c, ParseChars(tail))
  {
    var e := EscapeChar(c);
    var t := e + tail;
    var n := c as int;
    if |e| == 1 {
      assert t[0] == c && t[1..] == tail;
    } else if n < 0x20 && n != 0x08 && n != 0x09 && n != 0x0A && n != 0x0C && n != 0x0D {
      var hi, lo := HexDigit(n / 16), HexDigit(n % 16);
      assert t[1..] == ['u', '0', '0', hi, lo] + tail;
      assert Hex4('0', '0', hi, lo) == Some(n);
      assert ParseEscape(t[1..]) == Some((c, tail));
    } else {
      assert t[1..] == e[1..] + tail;
      assert ParseEscape(t[1..]) == Some((c, tail));
    }
  }

  lemma {:induction false} ParseEscapedBody(s: string, rest: string)
    ensures ParseChars(EscapeBody(s) + "\"" + rest) == Some((s, rest))
  {
    if s == [] {
      assert EscapeBody(s) + "\"" + rest == "\"" + rest;
    } else {
      var tail := EscapeBody(s[1..]) + "\"" + rest;
      assert EscapeBody(s) + "\"" + rest == EscapeChar(s[0]) + tail;
      ParseEscapedChar(s[0], tail);
      ParseEscapedBody(s[1..], rest);
      assert [s[0]] + s[1..] == s;
    }
  }

  lemma ParseQuoted(s: string, rest: string)
    ensures ParseString(Quote(s) + rest) == Some((s, rest))
  {
    var t := Quote(s) + rest;
    assert t[1..] == EscapeBody(s) + "\"" + rest;
    ParseEscapedBody(s, rest);
  }

  lemma StripOwnPrefix(p: string, x: string)
    ensures StripPrefix(p, p + x) == Some(x)
  {
    assert (p + x)[..|p|] == p;
    assert (p + x)[|p|..] == x;
  }

  /** Decoding an encoded message gives the message back. */
  lemma DecodeEncode(m: Message)
    ensures DecodeMessage(EncodeMessage(m)) == Some(m)
  {
    var t3 := Quote(m.content) + "}";
    var t2 := ContentKey + t3;
    var t1 := Quote(m.sender) + t2;
    assert EncodeMessage(m) == SenderKey + t1;
    StripOwnPrefix(SenderKey, t1);
    ParseQuoted(m.sender, t2);
    StripOwnPrefix(ContentKey, t3);
    ParseQuoted(m.content, "}");
  }

  /** Distinct messages are published as distinct bodies. */
  lemma EncodeInjective(a: Message, b: Message)
    ensures EncodeMessage(a) == EncodeMessage(b) ==> a == b
  {
    DecodeEncode(a);
    DecodeEncode(b);
  }
}
