/** The text primitives of the memory format: trimming and JSON strings. */
module MemoryText {
  import opened Options

  // --------------------------------------------------------------- trimming

  /** White space and line terminators as ECMAScript's `trim` and `\s` see them. */
  predicate IsSpace(c: char) {
    var n := c as int;
    0x09 <= n <= 0x0d || n == 0x20 || n == 0xa0 || n == 0x1680 || 0x2000 <= n <= 0x200a
    || n == 0x2028 || n == 0x2029 || n == 0x202f || n == 0x205f || n == 0x3000 || n == 0xfeff
  }

  function TrimStart(s: string): string {
    if s != "" && IsSpace(s[0]) then TrimStart(s[1..]) else s
  }

  function TrimEnd(s: string): string {
    if s != "" && IsSpace(s[|s| - 1]) then TrimEnd(s[..|s| - 1]) else s
  }

  function Trim(s: string): string { TrimEnd(TrimStart(s)) }

  predicate Trimmed(s: string) { s == "" || (!IsSpace(s[0]) && !IsSpace(s[|s| - 1])) }

  predicate Spaces(s: string) { forall i :: 0 <= i < |s| ==> IsSpace(s[i]) }

  lemma {:induction false} TrimStartSpaces(pad: string, s: string)
    requires Spaces(pad) && s != "" && !IsSpace(s[0])
    ensures TrimStart(pad + s) == s
  {
    if pad == "" {
      assert pad + s == s;
    } else {
      assert (pad + s)[1..] == pad[1..] + s;
      TrimStartSpaces(pad[1..], s);
    }
  }

  /** Padding in front is trimmed away, and nothing else. */
  lemma TrimPadded(pad: string, s: string)
    requires Spaces(pad) && s != "" && Trimmed(s)
    ensures Trim(pad + s) == s
  {
    TrimStartSpaces(pad, s);
  }

  lemma {:induction false} TrimShrinks(s: string)
    ensures |TrimStart(s)| <= |s| && |TrimEnd(s)| <= |s|
    ensures TrimStart(s) == "" || !IsSpace(TrimStart(s)[0])
    ensures TrimEnd(s) == "" || !IsSpace(TrimEnd(s)[|TrimEnd(s)| - 1])
    ensures s != "" && !IsSpace(s[0]) ==> TrimEnd(s) != "" && TrimEnd(s)[0] == s[0]
  {
    if s != "" {
      TrimShrinks(s[1..]);
      TrimShrinks(s[..|s| - 1]);
    }
  }

  /** Trimming is idempotent, shortens, and stops only at text. */
  lemma TrimTrimmed(s: string)
    ensures |Trim(s)| <= |s| && Trimmed(Trim(s)) && Trim(Trim(s)) == Trim(s)
    ensures Trimmed(s) ==> Trim(s) == s
  {
    TrimShrinks(s);
    TrimShrinks(TrimStart(s));
  }

  // ----------------------------------------------------------- JSON strings

  function Hex(n: nat): char
    requires n < 16
  {
    if n < 10 then (n + '0' as int) as char else (n - 10 + 'a' as int) as char
  }

  function HexValue(c: char): Option<nat> {
    if '0' <= c <= '9' then Some(c as int - '0' as int)
    else if 'a' <= c <= 'f' then Some(c as int - 'a' as int + 10)
    else if 'A' <= c <= 'F' then Some(c as int - 'A' as int + 10)
    else None
  }

  /** One character of `JSON.stringify`. */
  function EscapeChar(c: char): string {
    if c == '"' then "\\\"" else if c == '\\' then "\\\\"
    else if c as int == 8 then "\\b" else if c as int == 12 then "\\f"
    else if c == '\n' then "\\n" else if c == '\r' then "\\r" else if c == '\t' then "\\t"
    else if c as int < 0x20 then "\\u00" + [Hex(c as int / 16), Hex(c as int % 16)]
    else [c]
  }

  function Escape(s: string): string {
    if s == "" then "" else EscapeChar(s[0]) + Escape(s[1..])
  }

  /** `JSON.stringify` of a string of Unicode scalar values. */
  function Quoted(s: string): string { "\"" + Escape(s) + "\"" }

  function ShortEscape(c: char): Option<char> {
    if c == '"' || c == '\\' || c == '/' then Some(c)
    else if c == 'b' then Some(8 as char) else if c == 'f' then Some(12 as char)
    else if c == 'n' then Some('\n') else if c == 'r' then Some('\r') else if c == 't' then Some('\t')
    else None
  }

  /** The four digits of a `\u` escape; surrogates are not scalar values. */
  function CodeUnit(s: string): Option<char>
    requires |s| == 4
  {
    var a, b, c, d := HexValue(s[0]), HexValue(s[1]), HexValue(s[2]), HexValue(s[3]);
    if a.None? || b.None? || c.None? || d.None? then None
    else
      var n := 4096 * a.value + 256 * b.value + 16 * c.value + d.value;
      if 0xd800 <= n < 0xe000 || n >= 0x1_0000 then None else Some(n as char)
  }

  /** The first character of a JSON string's inside, and how much of the text it took. */
  function UnescapeChar(s: string): Option<(char, nat)>
    requires s != ""
  {
    if s[0] == '"' || s[0] as int < 0x20 then None
    else if s[0] != '\\' then Some((s[0], 1))
    else if |s| < 2 then None
    else if s[1] == 'u' then
      if |s| < 6 || CodeUnit(s[2..6]).None? then None else Some((CodeUnit(s[2..6]).value, 6))
    else if ShortEscape(s[1]).None? then None else Some((ShortEscape(s[1]).value, 2))
  }

  function Unescape(s: string): Option<string>
    decreases |s|
  {
    if s == "" then Some("")
    else
      match UnescapeChar(s)
      case None => None
      case Some((c, n)) =>
        if n > |s| || n == 0 then None
        else match Unescape(s[n..])
          case None => None
          case Some(rest) => Some([c] + rest)
  }

  /** `JSON.parse` of a text that starts with a quote. */
  function ParseQuoted(s: string): Option<string> {
    if |s| >= 2 && s[0] == '"' && s[|s| - 1] == '"' then Unescape(s[1..|s| - 1]) else None
  }

  lemma UnescapeEscapeChar(c: char, rest: string)
    ensures EscapeChar(c) != ""
    ensures UnescapeChar(EscapeChar(c) + rest) == Some((c, |EscapeChar(c)|))
  {
    var e := EscapeChar(c);
    var s := e + rest;
    if c as int < 0x20 && |e| == 6 {
      assert s[2..6] == [e[2], e[3], e[4], e[5]];
      HexInverts(c as int / 16);
      HexInverts(c as int % 16);
      assert CodeUnit(s[2..6]) == Some(c);
    }
  }

  lemma HexInverts(n: nat)
    requires n < 16
    ensures HexValue(Hex(n)) == Some(n)
  {
  }

  /** Every string comes back from its JSON form. */
  lemma {:induction false} UnescapeEscape(s: string)
    ensures Unescape(Escape(s)) == Some(s)
  {
    if s != "" {
      UnescapeEscape(s[1..]);
      UnescapeEscapeChar(s[0], Escape(s[1..]));
      var e := EscapeChar(s[0]);
      assert Escape(s)[|e|..] == Escape(s[1..]);
      assert s == [s[0]] + s[1..];
    }
  }

  lemma ParseQuotes(s: string)
    ensures ParseQuoted(Quoted(s)) == Some(s)
    ensures |Quoted(s)| >= 2 && Quoted(s)[0] == '"' && Quoted(s)[|Quoted(s)| - 1] == '"'
  {
    UnescapeEscape(s);
    assert Quoted(s)[1..|Quoted(s)| - 1] == Escape(s);
  }

  /** Reading a JSON string never lengthens it. */
  lemma {:induction false} UnescapeShrinks(s: string)
    requires Unescape(s).Some?
    ensures |Unescape(s).value| <= |s|
    decreases |s|
  {
    if s != "" {
      var n := UnescapeChar(s).value.1;
      UnescapeShrinks(s[n..]);
    }
  }

  /** A JSON string has no control characters, hence no line break. */
  lemma {:induction false} EscapePrintable(s: string)
    ensures forall i :: 0 <= i < |Escape(s)| ==> Escape(s)[i] as int >= 0x20
  {
    if s != "" {
      EscapePrintable(s[1..]);
      assert forall i :: 0 <= i < |EscapeChar(s[0])| ==> EscapeChar(s[0])[i] as int >= 0x20;
    }
  }
}
