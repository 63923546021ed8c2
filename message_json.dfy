/**
  A dialogue turn and the compact JSON text `serde_json::to_string` writes for
  it. The text is what the sorted set stores and what the character budget
  measures, so the encoding is written out: fields in declaration order, no
  white space, and serde_json's string escapes. The decoder reads back that
  canonical form, which is all the history ever holds.
*/
module MessageJson {
  import opened Wrappers
  import opened RustStd

  /** One turn: a role (`"user"` or `"assistant"`) and its text. */
  datatype Message = Message(role: string, content: string)

  // ---------------------------------------------------------------------------
  // Encoding
  // ---------------------------------------------------------------------------

  function HexDigit(n: nat): char
    requires n < 16
  {
    if n < 10 then (n + '0' as int) as char else (n - 10 + 'a' as int) as char
  }

  /** serde_json's escape for one character of a string. */
  function EscapeJsonChar(c: char): string
  {
    if c == '"' then "\\\""
    else if c == '\\' then "\\\\"
    else if c as int == 0x08 then "\\b"
    else if c as int == 0x0C then "\\f"
    else if c == '\n' then "\\n"
    else if c == '\r' then "\\r"
    else if c == '\t' then "\\t"
    else if c as int < 0x20 then "\\u00" + [HexDigit(c as int / 16), HexDigit(c as int % 16)]
    else [c]
  }

  function EscapeJson(s: string): string
  {
    if s == [] then "" else EscapeJsonChar(s[0]) + EscapeJson(s[1..])
  }

  /** `serde_json::to_string(&message)`. */
  function ToJson(m: Message): string
  {
    "{\"role\":\"" + EscapeJson(m.role) + "\",\"content\":\"" + EscapeJson(m.content) + "\"}"
  }

  // ---------------------------------------------------------------------------
  // Decoding
  // ---------------------------------------------------------------------------

  function HexValue(c: char): Option<nat>
  {
    if '0' <= c <= '9' then Some(c as int - '0' as int)
    else if 'a' <= c <= 'f' then Some(c as int - 'a' as int + 10)
    else if 'A' <= c <= 'F' then Some(c as int - 'A' as int + 10)
    else None
  }

  /** The character an escape at the head of `t` stands for, and how many characters it spans. */
  function Unescape(t: string): Option<(char, nat)>
    requires |t| >= 2 && t[0] == '\\'
  {
    var e := t[1];
    if e == '"' then Some(('"', 2))
    else if e == '\\' then Some(('\\', 2))
    else if e == '/' then Some(('/', 2))
    else if e == 'b' then Some((0x08 as char, 2))
    else if e == 'f' then Some((0x0C as char, 2))
    else if e == 'n' then Some(('\n', 2))
    else if e == 'r' then Some(('\r', 2))
    else if e == 't' then Some(('\t', 2))
    else if e == 'u' && |t| >= 6 && t[2] == '0' && t[3] == '0'
         && HexValue(t[4]).Some? && HexValue(t[5]).Some?
         && HexValue(t[4]).value < 16 && HexValue(t[5]).value < 16
    then Some(((HexValue(t[4]).value * 16 + HexValue(t[5]).value) as char, 6))
    else None
  }

  /**
    Reads the body of a JSON string whose opening quote is already consumed:
    the decoded text and what follows the closing quote.
  */
  function ReadString(t: string): (r: Option<(string, string)>)
    ensures r.Some? ==> |r.value.1| < |t|
    decreases |t|
  {
    if t == [] then None
    else if t[0] == '"' then Some(([], t[1..]))
    else if t[0] == '\\' then
      if |t| < 2 then None
      else match Unescape(t)
        case None => None
        case Some((c, k)) =>
          if k > |t| then None
          else match ReadString(t[k..])
            case None => None
            case Some((s, rest)) => Some(([c] + s, rest))
    else if t[0] as int < 0x20 then None
    else match ReadString(t[1..])
      case None => None
      case Some((s, rest)) => Some(([t[0]] + s, rest))
  }

  const RoleHead: string := "{\"role\":\""
  const ContentHead: string := ",\"content\":\""

  /** `serde_json::from_str::<Message>` on the canonical form. */
  function FromJson(j: string): Option<Message>
  {
    if |j| < |RoleHead| || j[..|RoleHead|] != RoleHead then None
    else match ReadString(j[|RoleHead|..])
      case None => None
      case Some((role, r1)) =>
        if |r1| < |ContentHead| || r1[..|ContentHead|] != ContentHead then None
        else match ReadString(r1[|ContentHead|..])
          case None => None
          case Some((content, r2)) => if r2 == "}" then Some(Message(role, content)) else None
  }

  // ---------------------------------------------------------------------------
  // Round trip
  // ---------------------------------------------------------------------------

  function Prepend(c: char, r: Option<(string, string)>): Option<(string, string)>
  {
    match r
    case None => None
    case Some((s, rest)) => Some(([c] + s, rest))
  }

  lemma ReadEscapedChar(c: char, u: string)
    ensures ReadString(EscapeJsonChar(c) + u) == Prepend(c, ReadString(u))
  {
    if c == '"' || c == '\\' || c as int == 0x08 || c as int == 0x0C || c == '\n' || c == '\r' || c == '\t' {
      ReadShortEscape(c, u);
    } else if c as int < 0x20 {
      ReadUnicodeEscape(c, u);
    } else {
      var t := EscapeJsonChar(c) + u;
      assert t[0] == c && t[1..] == u;
    }
  }

  /** A quote, a backslash or a control character with a two-character escape reads back. */
  lemma ReadShortEscape(c: char, u: string)
    requires c == '"' || c == '\\' || c as int == 0x08 || c as int == 0x0C || c == '\n' || c == '\r' || c == '\t'
    ensures ReadString(EscapeJsonChar(c) + u) == Prepend(c, ReadString(u))
  {
    var t := EscapeJsonChar(c) + u;
    assert |EscapeJsonChar(c)| == 2;
    assert t[0] == '\\' && t[2..] == u;
    assert Unescape(t) == Some((c, 2));
  }

  /** Any other control character is written as `\u00` and two hex digits, and reads back. */
  lemma ReadUnicodeEscape(c: char, u: string)
    requires c as int < 0x20 && c != '\n' && c != '\r' && c != '\t' && c as int != 0x08 && c as int != 0x0C
    ensures ReadString(EscapeJsonChar(c) + u) == Prepend(c, ReadString(u))
  {
    var t := EscapeJsonChar(c) + u;
    var hi, lo := c as int / 16, c as int % 16;
    assert |EscapeJsonChar(c)| == 6;
    assert t[..6] == "\\u00" + [HexDigit(hi), HexDigit(lo)];
    assert t[0] == '\\' && t[1] == 'u' && t[2] == '0' && t[3] == '0';
    assert t[4] == HexDigit(hi) && t[5] == HexDigit(lo) && t[6..] == u;
    assert HexValue(HexDigit(hi)) == Some(hi);
    assert HexValue(HexDigit(lo)) == Some(lo);
    assert (hi * 16 + lo) as char == c;
    assert Unescape(t) == Some((c, 6));
  }

  /** Reading back an escaped body followed by its closing quote yields the original text. */
  lemma {:induction false} ReadEscaped(s: string, rest: string)
    ensures ReadString(EscapeJson(s) + "\"" + rest) == Some((s, rest))
  {
    if s == [] {
      assert EscapeJson(s) + "\"" + rest == "\"" + rest;
      assert ("\"" + rest)[1..] == rest;
    } else {
      var u := EscapeJson(s[1..]) + "\"" + rest;
      assert EscapeJson(s) + "\"" + rest == EscapeJsonChar(s[0]) + u;
      ReadEscapedChar(s[0], u);
      ReadEscaped(s[1..], rest);
      assert [s[0]] + s[1..] == s;
    }
  }

  /** Decoding the stored text of a turn gives the turn back. */
  lemma FromToJson(m: Message)
    ensures FromJson(ToJson(m)) == Some(m)
  {
    var a, b := EscapeJson(m.role), EscapeJson(m.content);
    var tail := ContentHead + (b + "\"}");
    var j := RoleHead + (a + "\"" + tail);
    ToJsonShape(m);
    SplitAt(RoleHead, a + "\"" + tail);
    ReadEscaped(m.role, tail);
    SplitAt(ContentHead, b + "\"}");
    assert b + "\"" + "}" == b + "\"}";
    ReadEscaped(m.content, "}");
    FromJsonParts(j, m.role, tail, m.content);
  }

  /** The stored text is the role head, the role, and the content part. */
  lemma ToJsonShape(m: Message)
    ensures ToJson(m) == RoleHead + (EscapeJson(m.role) + "\"" + (ContentHead + (EscapeJson(m.content) + "\"}")))
  {
    assert "\",\"content\":\"" == "\"" + ContentHead;
  }

  lemma SplitAt(p: string, rest: string)
    ensures (p + rest)[..|p|] == p && (p + rest)[|p|..] == rest
  {
  }

  lemma FromJsonParts(j: string, role: string, tail: string, content: string)
    requires |j| >= |RoleHead| && j[..|RoleHead|] == RoleHead
    requires ReadString(j[|RoleHead|..]) == Some((role, tail))
    requires |tail| >= |ContentHead| && tail[..|ContentHead|] == ContentHead
    requires ReadString(tail[|ContentHead|..]) == Some((content, "}"))
    ensures FromJson(j) == Some(Message(role, content))
  {
  }

  /** Two turns are stored as the same member only if they are the same turn. */
  lemma ToJsonInjective(m1: Message, m2: Message)
    requires ToJson(m1) == ToJson(m2)
    ensures m1 == m2
  {
    FromToJson(m1);
    FromToJson(m2);
  }

  // ---------------------------------------------------------------------------
  // Length charged to the budget
  // ---------------------------------------------------------------------------

  lemma {:induction false} EscapeJsonLen(s: string)
    ensures Utf8Len(EscapeJson(s)) >= Utf8Len(s)
  {
    if s != [] {
      EscapeJsonLen(s[1..]);
      Utf8LenAppend(EscapeJsonChar(s[0]), EscapeJson(s[1..]));
    }
  }

  /**
    The budget charges the whole JSON text: at least 24 bytes of field names
    and punctuation on top of the role and content.
  */
  lemma JsonOverhead(m: Message)
    ensures Utf8Len(ToJson(m)) >= 24 + Utf8Len(m.role) + Utf8Len(m.content)
  {
    var a, b := EscapeJson(m.role), EscapeJson(m.content);
    EscapeJsonLen(m.role);
    EscapeJsonLen(m.content);
    assert ToJson(m) == "{\"role\":\"" + a + "\",\"content\":\"" + b + "\"}";
    Utf8LenAppend("{\"role\":\"", a);
    Utf8LenAppend("{\"role\":\"" + a, "\",\"content\":\"");
    Utf8LenAppend("{\"role\":\"" + a + "\",\"content\":\"", b);
    Utf8LenAppend("{\"role\":\"" + a + "\",\"content\":\"" + b, "\"}");
  }
}
