/** The grammar of JSON (RFC 8259), and that the parser takes exactly its texts. */
module MemoryJsonGrammar {
  import opened Options
  import opened MemoryText
  import opened MemoryJson
  import opened MemoryJsonText

  // ----------------------------------------------------------------- strings

  /** Section 7: what stands for a character inside a string. */
  ghost predicate Stands(e: string, c: char) {
    || (e == [c] && c != '"' && c != '\\' && c as int > 0x1f)
    || (|e| == 2 && e[0] == '\\' && ShortEscape(e[1]) == Some(c))
    || (|e| == 6 && e[0] == '\\' && e[1] == 'u' && CodeUnit(e[2..]) == Some(c))
  }

  ghost predicate Inside(s: string, text: string)
    decreases |text|
  {
    if text == "" then s == ""
    else exists n: nat :: n <= |s| && Stands(s[..n], text[0]) && Inside(s[n..], text[1..])
  }

  lemma CharReads(e: string, c: char, rest: string)
    requires Stands(e, c)
    ensures e != "" && UnescapeChar(e + rest) == Some((c, |e|)) && e[0] != '"'
  {
    var s := e + rest;
    if |e| == 6 { assert s[2..6] == e[2..]; }
  }

  lemma CharFound(s: string, c: char, n: nat)
    requires s != "" && UnescapeChar(s) == Some((c, n))
    ensures 0 < n <= |s| && Stands(s[..n], c)
  {
    if n == 1 { assert s[..1] == [s[0]]; }
    if n == 6 { assert s[..6][2..] == s[2..6]; }
  }

  lemma StepReads(e: string, c: char, more: string, text: string, rest: string)
    requires Stands(e, c) && ParseText(more) == Some((text, rest))
    ensures ParseText(e + more) == Some(([c] + text, rest))
  {
    CharReads(e, c, more);
    assert (e + more)[0] == e[0] && (e + more)[|e|..] == more;
  }

  lemma {:induction false} TextReads(inside: string, text: string, rest: string)
    requires Inside(inside, text)
    ensures ParseText(inside + ("\"" + rest)) == Some((text, rest))
    decreases |text|
  {
    var tail := "\"" + rest;
    if text == "" {
      Closed(rest);
      assert inside + tail == tail;
    } else {
      var n: nat :| n <= |inside| && Stands(inside[..n], text[0]) && Inside(inside[n..], text[1..]);
      TextReads(inside[n..], text[1..], rest);
      StepReads(inside[..n], text[0], inside[n..] + tail, text[1..], rest);
      Joined(inside, n, tail);
      assert [text[0]] + text[1..] == text;
    }
  }

  lemma Closed(rest: string)
    ensures ParseText("\"" + rest) == Some(("", rest))
  {
    assert ("\"" + rest)[1..] == rest;
  }

  lemma Joined(s: string, n: nat, tail: string)
    requires n <= |s|
    ensures s[..n] + (s[n..] + tail) == s + tail
  {
  }

  lemma {:induction false} TextFound(s: string) returns (inside: string)
    requires ParseText(s).Some?
    ensures Inside(inside, ParseText(s).value.0) && s == inside + ("\"" + ParseText(s).value.1)
    decreases |s|
  {
    if s[0] == '"' {
      inside := "";
      assert s == "\"" + s[1..];
    } else {
      var (c, n) := UnescapeChar(s).value;
      CharFound(s, c, n);
      var (text, rest) := ParseText(s[n..]).value;
      var more := TextFound(s[n..]);
      inside := s[..n] + more;
      OneMore(s[..n], c, more, text);
      Joined(s, n, "");
      Regroup3(s[..n], more, "\"" + rest);
    }
  }

  lemma OneMore(e: string, c: char, more: string, text: string)
    requires Stands(e, c) && Inside(more, text)
    ensures Inside(e + more, [c] + text)
  {
    assert (e + more)[..|e|] == e && (e + more)[|e|..] == more && ([c] + text)[1..] == text;
  }

  lemma Regroup3(a: string, b: string, c: string)
    ensures a + b + c == a + (b + c)
  {
  }

  /** A text in double quotes of its own is read by the same rules. */
  lemma {:induction false} UnescapeMeans(s: string, text: string)
    ensures Unescape(s) == Some(text) <==> Inside(s, text)
    decreases |s|
  {
    if s != "" {
      if Unescape(s) == Some(text) {
        var (c, n) := UnescapeChar(s).value;
        CharFound(s, c, n);
        UnescapeMeans(s[n..], text[1..]);
        OneMore(s[..n], c, s[n..], text[1..]);
        Joined(s, n, "");
        assert text == [c] + text[1..] && s[..n] + s[n..] == s;
      }
      if text != "" && Inside(s, text) {
        var n: nat :| n <= |s| && Stands(s[..n], text[0]) && Inside(s[n..], text[1..]);
        CharReads(s[..n], text[0], s[n..]);
        assert s[..n] + s[n..] == s && [text[0]] + text[1..] == text;
        UnescapeMeans(s[n..], text[1..]);
      }
    }
  }

  // ------------------------------------------------------------------ values

  ghost predicate Space(s: string) { forall i :: 0 <= i < |s| ==> JsonSpace(s[i]) }

  /** An item between white space, and what follows it. */
  datatype Piece = Piece(before: string, value: string, after: string, more: string) {
    function Text(): string { before + (value + (after + more)) }
  }

  /** Sections 3 to 7. */
  ghost predicate ValueText(s: string, json: Json)
    decreases |s|, 0
  {
    match json
    case JsonNull => s == "null"
    case JsonBool(value) => s == if value then "true" else "false"
    case JsonNumber(digits) => s == digits && NumberText(s)
    case JsonString(text) => |s| >= 2 && s[0] == '"' && s[|s| - 1] == '"' && Inside(s[1..|s| - 1], text)
    case JsonArray(items) =>
      |s| >= 2 && s[0] == '[' && s[|s| - 1] == ']'
      && if items == [] then Space(s[1..|s| - 1]) else ItemsText(s[1..|s| - 1], items)
    case JsonObject(entries) =>
      |s| >= 2 && s[0] == '{' && s[|s| - 1] == '}'
      && ((Space(s[1..|s| - 1]) && entries == map[]) || MembersText(s[1..|s| - 1], map[], entries))
  }

  ghost predicate NumberText(s: string) {
    exists sign, whole, fraction, exponent ::
      Numeric(sign, whole, fraction, exponent) && s == sign + (whole + (fraction + exponent))
  }

  ghost predicate IsPiece(p: Piece, s: string, item: Json)
    decreases |s|, 1
  {
    s == p.Text() && Space(p.before) && Space(p.after) && |p.value| <= |s| && ValueText(p.value, item)
  }

  ghost predicate ItemsText(s: string, items: seq<Json>)
    requires items != []
    decreases |s|, 2
  {
    exists p: Piece :: IsPiece(p, s, items[0]) && |p.more| <= |s|
      && if |items| == 1 then p.more == "" else p.more != "" && p.more[0] == ',' && ItemsText(p.more[1..], items[1..])
  }

  /** A key in quotes, a colon and a value between white space, and what follows. */
  datatype Pair = Pair(before: string, key: string, colon: string, rest: Piece) {
    function Text(): string { before + ("\"" + (key + ("\"" + (colon + (":" + rest.Text()))))) }
  }

  ghost predicate IsPair(p: Pair, s: string, key: string, json: Json)
    decreases |s|, 1
  {
    && s == p.Text() && Inside(p.key, key) && Space(p.before) && Space(p.colon)
    && Space(p.rest.before) && Space(p.rest.after) && |p.rest.value| <= |s| && ValueText(p.rest.value, json)
  }

  ghost predicate MembersText(s: string, had: map<string, Json>, entries: map<string, Json>)
    decreases |s|, 2
  {
    exists p: Pair, key: string, json: Json :: IsPair(p, s, key, json) && |p.rest.more| <= |s|
      && if p.rest.more == "" then entries == had[key := json]
         else p.rest.more[0] == ',' && MembersText(p.rest.more[1..], had[key := json], entries)
  }

  // ------------------------------------------------- every text of the grammar

  lemma ValueStarts(s: string, json: Json)
    requires ValueText(s, json)
    ensures s != "" && !JsonSpace(s[0]) && s[0] !in "],}:"
    ensures json.JsonNumber? ==> s[0] == '-' || s[0] in "0123456789"
  {
    if json.JsonNumber? { NumberStarts(s); }
  }

  lemma NumberStarts(s: string)
    requires NumberText(s)
    ensures s != "" && (s[0] == '-' || s[0] in "0123456789")
  {
    var sign, whole, fraction, exponent :| Numeric(sign, whole, fraction, exponent)
      && s == sign + (whole + (fraction + exponent));
    if sign == "" { assert s[0] == whole[0]; } else { assert s[0] == '-'; }
  }

  lemma NumberIs(s: string, rest: string)
    requires NumberText(s) && Ends(rest)
    ensures AfterNumber(s + rest) == Some(rest)
  {
    var sign, whole, fraction, exponent :| Numeric(sign, whole, fraction, exponent)
      && s == sign + (whole + (fraction + exponent));
    NumberReads(sign, whole, fraction, exponent, rest);
    Regroup3(fraction, exponent, rest);
    Regroup3(whole, fraction + exponent, rest);
    Regroup3(sign, whole + (fraction + exponent), rest);
  }

  lemma NumberValue(s: string, rest: string)
    requires ValueText(s, JsonNumber(s)) && Ends(rest)
    ensures ParseValue(s + rest) == Some((JsonNumber(s), rest))
  {
    var t := s + rest;
    ValueStarts(s, JsonNumber(s));
    NumberIs(s, rest);
    assert t[0] == s[0] && t[0] != '"' && t[0] != '[' && t[0] != '{';
    NoWord(t);
    assert t[..|t| - |rest|] == s;
  }

  lemma WordValue(s: string, json: Json, rest: string)
    requires (json.JsonNull? || json.JsonBool?) && ValueText(s, json)
    ensures ParseValue(s + rest) == Some((json, rest))
  {
    assert (s + rest)[..|s|] == s && (s + rest)[|s|..] == rest && (s + rest)[0] == s[0];
  }

  lemma Unquoted(s: string, rest: string)
    requires |s| >= 2 && s[0] == '"' && s[|s| - 1] == '"'
    ensures (s + rest)[0] == '"' && (s + rest)[1..] == s[1..|s| - 1] + ("\"" + rest)
  {
  }

  lemma StringValue(s: string, text: string, rest: string)
    requires ValueText(s, JsonString(text))
    ensures ParseValue(s + rest) == Some((JsonString(text), rest))
  {
    var inside := s[1..|s| - 1];
    TextReads(inside, text, rest);
    Unquoted(s, rest);
    QuoteOpens(s + rest, text, rest);
  }

  /** A list: its bracket, and what there is behind the white space. */
  lemma ListValue(inner: string, tail: string)
    ensures var t := SkipSpace(inner + tail);
      ParseValue("[" + (inner + tail)) ==
      if t != "" && t[0] == ']' then Some((JsonArray([]), t[1..]))
      else match ParseItems(t) case None => None case Some((items, rest)) => Some((JsonArray(items), rest))
  {
    NoWord("[" + (inner + tail));
    assert ("[" + (inner + tail))[1..] == inner + tail;
  }

  lemma ObjectValue(inner: string, tail: string)
    ensures var t := SkipSpace(inner + tail);
      ParseValue("{" + (inner + tail)) ==
      if t != "" && t[0] == '}' then Some((JsonObject(map[]), t[1..]))
      else match ParseMembers(t, map[]) case None => None case Some((entries, rest)) => Some((JsonObject(entries), rest))
  {
    NoWord("{" + (inner + tail));
    assert ("{" + (inner + tail))[1..] == inner + tail;
  }

  function Add(item: Json, more: Option<(seq<Json>, string)>): Option<(seq<Json>, string)> {
    match more case None => None case Some((items, rest)) => Some(([item] + items, rest))
  }

  /** An item up to what follows the white space behind it. */
  lemma ItemReads(s: string, item: Json, after: string, tail: string)
    requires ParseValue(s) == Some((item, after + tail)) && Space(after) && tail != "" && !JsonSpace(tail[0])
    ensures tail[0] == ']' ==> ParseItems(s) == Some(([item], tail[1..]))
    ensures tail[0] == ',' ==> ParseItems(s) == Add(item, ParseItems(SkipSpace(tail[1..])))
  {
    SpaceSkipped(after, tail);
  }

  lemma MemberReads(s: string, key: string, json: Json, colon: string, before: string, value: string, after: string,
        tail: string, had: map<string, Json>)
    requires s != "" && s[0] == '"' && ParseText(s[1..]) == Some((key, colon + (":" + (before + value))))
    requires ParseValue(value) == Some((json, after + tail)) && value != "" && !JsonSpace(value[0])
    requires Space(colon) && Space(before) && Space(after) && tail != "" && !JsonSpace(tail[0])
    ensures tail[0] == '}' ==> ParseMembers(s, had) == Some((had[key := json], tail[1..]))
    ensures tail[0] == ',' ==> ParseMembers(s, had) == ParseMembers(SkipSpace(tail[1..]), had[key := json])
  {
    SpaceSkipped(colon, ":" + (before + value));
    assert (":" + (before + value))[1..] == before + value;
    SpaceSkipped(before, value);
    SpaceSkipped(after, tail);
  }

  lemma PieceBefore(p: Piece, tail: string)
    ensures p.Text() + tail == p.before + (p.value + (p.after + (p.more + tail)))
  {
    Regroup3(p.after, p.more, tail);
    Regroup3(p.value, p.after + p.more, tail);
    Regroup3(p.before, p.value + (p.after + p.more), tail);
  }

  lemma EndsAfter(after: string, tail: string)
    requires Space(after) && (tail == "" || tail[0] in ",]}")
    ensures Ends(after + tail)
  {
    if after != "" { assert (after + tail)[0] == after[0]; } else { assert after + tail == tail; }
  }

  lemma Enclosing(s: string, rest: string)
    requires |s| >= 2
    ensures s + rest == [s[0]] + (s[1..|s| - 1] + ([s[|s| - 1]] + rest)) && ([s[|s| - 1]] + rest)[1..] == rest
  {
  }

  lemma {:induction false} ValueReads(s: string, json: Json, rest: string)
    requires ValueText(s, json) && Ends(rest)
    ensures ParseValue(s + rest) == Some((json, rest))
    decreases |s|, 0
  {
    match json
    case JsonNull => WordValue(s, json, rest);
    case JsonBool(_) => WordValue(s, json, rest);
    case JsonNumber(_) => NumberValue(s, rest);
    case JsonString(text) => StringValue(s, text, rest);
    case JsonArray(items) =>
      var inner, tail := s[1..|s| - 1], "]" + rest;
      Enclosing(s, rest);
      ListValue(inner, tail);
      if items == [] { SpaceSkipped(inner, tail); } else { ItemsRead(inner, items, tail); }
    case JsonObject(entries) =>
      var inner, tail := s[1..|s| - 1], "}" + rest;
      Enclosing(s, rest);
      ObjectValue(inner, tail);
      if Space(inner) && entries == map[] { SpaceSkipped(inner, tail); } else { MembersRead(inner, map[], entries, tail); }
  }

  lemma PieceReads(p: Piece, item: Json, tail: string)
    requires Space(p.before) && Space(p.after) && ValueText(p.value, item) && p.more + tail != "" && (p.more + tail)[0] in ",]"
    requires ParseValue(p.value + (p.after + (p.more + tail))) == Some((item, p.after + (p.more + tail)))
    ensures var t, behind := SkipSpace(p.Text() + tail), p.more + tail;
      && t != "" && t[0] != ']'
      && (behind[0] == ']' ==> ParseItems(t) == Some(([item], behind[1..])))
      && (behind[0] == ',' ==> ParseItems(t) == Add(item, ParseItems(SkipSpace(behind[1..]))))
  {
    var t := p.value + (p.after + (p.more + tail));
    ValueStarts(p.value, item);
    PieceBefore(p, tail);
    assert t[0] == p.value[0];
    SpaceSkipped(p.before, t);
    ItemReads(t, item, p.after, p.more + tail);
  }

  lemma Headed(items: seq<Json>)
    requires items != []
    ensures [items[0]] + items[1..] == items && (|items| == 1 ==> [items[0]] == items)
  {
  }

  lemma Dropped(more: string, tail: string)
    requires more != ""
    ensures (more + tail)[0] == more[0] && (more + tail)[1..] == more[1..] + tail
  {
  }

  lemma {:induction false} ItemsRead(s: string, items: seq<Json>, tail: string)
    requires items != [] && ItemsText(s, items) && tail != "" && tail[0] == ']'
    ensures var t := SkipSpace(s + tail);
      t != "" && t[0] != ']' && ParseItems(t) == Some((items, tail[1..]))
    decreases |s|, 1
  {
    var p: Piece :| IsPiece(p, s, items[0]) && |p.more| <= |s|
      && if |items| == 1 then p.more == "" else p.more != "" && p.more[0] == ',' && ItemsText(p.more[1..], items[1..]);
    EndsAfter(p.after, p.more + tail);
    assert p.more == "" ==> p.more + tail == tail;
    ValueReads(p.value, items[0], p.after + (p.more + tail));
    PieceReads(p, items[0], tail);
    if |items| > 1 {
      Dropped(p.more, tail);
      ItemsRead(p.more[1..], items[1..], tail);
    }
    Headed(items);
  }

  lemma PairReads(p: Pair, key: string, json: Json, tail: string, had: map<string, Json>)
    requires Inside(p.key, key) && Space(p.before) && Space(p.colon) && Space(p.rest.before) && Space(p.rest.after)
    requires ValueText(p.rest.value, json) && p.rest.more + tail != "" && (p.rest.more + tail)[0] in ",}"
    requires var after := p.rest.after + (p.rest.more + tail); ParseValue(p.rest.value + after) == Some((json, after))
    ensures var t, behind := SkipSpace(p.Text() + tail), p.rest.more + tail;
      && t != "" && t[0] != '}'
      && (behind[0] == '}' ==> ParseMembers(t, had) == Some((had[key := json], behind[1..])))
      && (behind[0] == ',' ==> ParseMembers(t, had) == ParseMembers(SkipSpace(behind[1..]), had[key := json]))
  {
    var q, behind := p.rest, p.rest.more + tail;
    var value := q.value + (q.after + behind);
    var text := p.key + ("\"" + (p.colon + (":" + (q.before + value))));
    PairBefore(p, tail);
    ValueStarts(q.value, json);
    assert value[0] == q.value[0];
    SpaceSkipped(p.before, "\"" + text);
    TextReads(p.key, key, p.colon + (":" + (q.before + value)));
    assert ("\"" + text)[1..] == text;
    MemberReads("\"" + text, key, json, p.colon, q.before, value, q.after, behind, had);
  }

  lemma {:induction false} MembersRead(s: string, had: map<string, Json>, entries: map<string, Json>, tail: string)
    requires MembersText(s, had, entries) && tail != "" && tail[0] == '}'
    ensures var t := SkipSpace(s + tail);
      t != "" && t[0] != '}' && ParseMembers(t, had) == Some((entries, tail[1..]))
    decreases |s|, 1
  {
    var p: Pair, key: string, json: Json :| IsPair(p, s, key, json) && |p.rest.more| <= |s|
      && if p.rest.more == "" then entries == had[key := json]
         else p.rest.more[0] == ',' && MembersText(p.rest.more[1..], had[key := json], entries);
    var more := p.rest.more;
    assert more == "" ==> more + tail == tail;
    EndsAfter(p.rest.after, more + tail);
    ValueReads(p.rest.value, json, p.rest.after + (more + tail));
    PairReads(p, key, json, tail, had);
    if more != "" {
      Dropped(more, tail);
      MembersRead(more[1..], had[key := json], entries, tail);
    }
  }

  lemma PairBefore(p: Pair, tail: string)
    ensures var q := p.rest;
      p.Text() + tail == p.before + ("\"" + (p.key + ("\"" + (p.colon + (":" + (q.before + (q.value + (q.after + (q.more + tail)))))))))
  {
    PieceBefore(p.rest, tail);
    var a := p.rest.Text();
    Regroup3(":", a, tail);
    Regroup3(p.colon, ":" + a, tail);
    Regroup3("\"", p.colon + (":" + a), tail);
    Regroup3(p.key, "\"" + (p.colon + (":" + a)), tail);
    Regroup3("\"", p.key + ("\"" + (p.colon + (":" + a))), tail);
    Regroup3(p.before, "\"" + (p.key + ("\"" + (p.colon + (":" + a)))), tail);
  }

  // -------------------------------------------------- and no text besides these

  lemma {:induction false} SpaceFound(s: string) returns (pad: string)
    ensures s == pad + SkipSpace(s) && Space(pad)
    ensures SkipSpace(s) == "" || !JsonSpace(SkipSpace(s)[0])
  {
    pad := "";
    if s != "" && JsonSpace(s[0]) {
      var more := SpaceFound(s[1..]);
      pad := [s[0]] + more;
    }
  }

  lemma NumberTextFound(s: string) returns (t: string)
    requires AfterNumber(s).Some?
    ensures NumberText(t) && s == t + AfterNumber(s).value && t == s[..|s| - |AfterNumber(s).value|]
  {
    var sign, whole, fraction, exponent := NumberFound(s);
    var rest := AfterNumber(s).value;
    t := sign + (whole + (fraction + exponent));
    Regroup3(fraction, exponent, rest);
    Regroup3(whole, fraction + exponent, rest);
    Regroup3(sign, whole + (fraction + exponent), rest);
  }

  /** The text taken is in front of the rest. */
  ghost predicate Taken(s: string, t: string, rest: string) { s == t + rest }

  lemma StringFound(s: string) returns (t: string)
    requires s != "" && s[0] == '"' && ParseText(s[1..]).Some?
    ensures var (text, rest) := ParseText(s[1..]).value; Taken(s, t, rest) && ValueText(t, JsonString(text))
  {
    var inside := TextFound(s[1..]);
    var rest := ParseText(s[1..]).value.1;
    t := "\"" + (inside + "\"");
    assert t[1..|t| - 1] == inside;
    Regroup3(inside, "\"", rest);
    Regroup3("\"", inside + "\"", rest);
    assert s == "\"" + s[1..];
  }

  lemma Bracketed(open: char, inner: string, close: char, s: string, rest: string) returns (t: string)
    requires s != "" && s[0] == open && s[1..] == inner + ([close] + rest)
    ensures |t| >= 2 && t[0] == open && t[|t| - 1] == close && t[1..|t| - 1] == inner && Taken(s, t, rest)
  {
    t := [open] + (inner + [close]);
    Regroup3(inner, [close], rest);
    Regroup3([open], inner + [close], rest);
    assert s == [open] + s[1..];
  }

  lemma PaddedItems(pad: string, s: string, items: seq<Json>)
    requires items != [] && ItemsText(s, items) && Space(pad)
    ensures ItemsText(pad + s, items)
  {
    var p: Piece :| IsPiece(p, s, items[0]) && |p.more| <= |s|
      && if |items| == 1 then p.more == "" else p.more != "" && p.more[0] == ',' && ItemsText(p.more[1..], items[1..]);
    var q := p.(before := pad + p.before);
    Regroup3(pad, p.before, p.value + (p.after + p.more));
    assert IsPiece(q, pad + s, items[0]);
  }

  lemma PaddedMembers(pad: string, s: string, had: map<string, Json>, entries: map<string, Json>)
    requires MembersText(s, had, entries) && Space(pad)
    ensures MembersText(pad + s, had, entries)
  {
    var p: Pair, key: string, json: Json :| IsPair(p, s, key, json) && |p.rest.more| <= |s|
      && if p.rest.more == "" then entries == had[key := json]
         else p.rest.more[0] == ',' && MembersText(p.rest.more[1..], had[key := json], entries);
    var q := p.(before := pad + p.before);
    Regroup3(pad, p.before, "\"" + (p.key + ("\"" + (p.colon + (":" + p.rest.Text())))));
    assert IsPair(q, pad + s, key, json);
  }

  lemma {:induction false} ValueFound(s: string) returns (t: string)
    requires ParseValue(s).Some?
    ensures var (json, rest) := ParseValue(s).value; Taken(s, t, rest) && ValueText(t, json)
    decreases |s|, 1
  {
    var (json, rest) := ParseValue(s).value;
    if json.JsonNull? || json.JsonBool? {
      t := s[..|s| - |rest|];
      WordFound(s);
    } else if json.JsonNumber? {
      t := NumberTextFound(s);
    } else if json.JsonString? {
      t := StringFound(s);
    } else if json.JsonArray? {
      t := ArrayFound(s);
    } else {
      t := ObjectFound(s);
    }
  }

  lemma WordFound(s: string)
    requires ParseValue(s).Some? && (ParseValue(s).value.0.JsonNull? || ParseValue(s).value.0.JsonBool?)
    ensures var (json, rest) := ParseValue(s).value;
      Taken(s, s[..|s| - |rest|], rest) && ValueText(s[..|s| - |rest|], json)
  {
    var word := OnlyWords(s);
    var n := |word|;
    assert s == s[..n] + s[n..];
  }

  lemma OnlyWords(s: string) returns (word: string)
    requires ParseValue(s).Some? && (ParseValue(s).value.0.JsonNull? || ParseValue(s).value.0.JsonBool?)
    ensures |word| <= |s| && s[..|word|] == word && ParseValue(s).value.1 == s[|word|..]
    ensures ValueText(word, ParseValue(s).value.0)
  {
    word := if StartsWith(s, "null") then "null" else if StartsWith(s, "true") then "true" else "false";
  }

  lemma {:induction false} ArrayFound(s: string) returns (t: string)
    requires ParseValue(s).Some? && ParseValue(s).value.0.JsonArray?
    ensures var (json, rest) := ParseValue(s).value; Taken(s, t, rest) && ValueText(t, json)
    decreases |s|, 0
  {
    var (json, rest) := ParseValue(s).value;
    var pad := SpaceFound(s[1..]);
    var u := SkipSpace(s[1..]);
    if u[0] == ']' {
      assert u == "]" + u[1..];
      t := Bracketed('[', pad, ']', s, rest);
    } else {
      var inner := ItemsFound(u);
      PaddedItems(pad, inner, json.items);
      Regroup3(pad, inner, "]" + rest);
      t := Bracketed('[', pad + inner, ']', s, rest);
    }
  }

  lemma {:induction false} ObjectFound(s: string) returns (t: string)
    requires ParseValue(s).Some? && ParseValue(s).value.0.JsonObject?
    ensures var (json, rest) := ParseValue(s).value; Taken(s, t, rest) && ValueText(t, json)
    decreases |s|, 0
  {
    var (json, rest) := ParseValue(s).value;
    var pad := SpaceFound(s[1..]);
    var u := SkipSpace(s[1..]);
    if u[0] == '}' {
      assert u == "}" + u[1..];
      t := Bracketed('{', pad, '}', s, rest);
    } else {
      var inner := MembersFound(u, map[]);
      PaddedMembers(pad, inner, map[], json.entries);
      Regroup3(pad, inner, "}" + rest);
      t := Bracketed('{', pad + inner, '}', s, rest);
    }
  }

  /** An item, and what is behind it and its white space. */
  lemma ItemFound(s: string) returns (p: Piece, u: string)
    requires ParseItems(s).Some?
    ensures var items := ParseItems(s).value.0;
      p.more == "" && s == p.Text() + u && items != [] && IsPiece(p, p.Text(), items[0]) && u != "" && |u| < |s|
    ensures u[0] == ']' ==> ParseItems(s) == Some(([ParseItems(s).value.0[0]], u[1..]))
    ensures u[0] != ']' ==>
      u[0] == ',' && ParseItems(s) == Add(ParseItems(s).value.0[0], ParseItems(SkipSpace(u[1..])))
    decreases |s|, 2
  {
    var value := ValueFound(s);
    var behind := ParseValue(s).value.1;
    var after := SpaceFound(behind);
    u := SkipSpace(behind);
    p := Piece("", value, after, "");
    PieceBefore(p, u);
    assert "" + u == u;
  }

  lemma Behind(text: string, pad: string, inner: string, rest: string)
    ensures text + ("," + (pad + inner)) + rest == text + ("," + (pad + (inner + rest)))
  {
    Regroup3(pad, inner, rest);
    Regroup3(",", pad + inner, rest);
    Regroup3(text, "," + (pad + inner), rest);
  }

  lemma {:induction false} ItemsFound(s: string) returns (t: string)
    requires ParseItems(s).Some?
    ensures var (items, rest) := ParseItems(s).value; items != [] && Taken(s, t, "]" + rest) && ItemsText(t, items)
    decreases |s|, 3
  {
    var (items, rest) := ParseItems(s).value;
    var p, u := ItemFound(s);
    if u[0] == ',' {
      var pad := SpaceFound(u[1..]);
      var inner := ItemsFound(SkipSpace(u[1..]));
      PaddedItems(pad, inner, items[1..]);
      t := MoreItems(p, pad + inner, items);
      Behind(p.Text(), pad, inner, "]" + rest);
      assert u == "," + u[1..];
    } else {
      t := p.Text();
      assert u == "]" + rest;
    }
  }

  lemma MoreItems(p: Piece, more: string, items: seq<Json>) returns (t: string)
    requires |items| > 1 && p.more == "" && IsPiece(p, p.Text(), items[0]) && ItemsText(more, items[1..])
    ensures ItemsText(t, items) && t == p.Text() + ("," + more)
  {
    var q := p.(more := "," + more);
    t := q.Text();
    PieceBefore(p, "," + more);
    assert "" + ("," + more) == "," + more && ("," + more)[1..] == more;
    assert IsPiece(q, t, items[0]);
  }

  /** The pieces of a member: key, colon and value, and what is behind it. */
  lemma MemberFound(s: string, had: map<string, Json>) returns (p: Pair, key: string, json: Json, u: string)
    requires ParseMembers(s, had).Some?
    ensures p.before == "" && p.rest.more == "" && s == p.Text() + u && IsPair(p, p.Text(), key, json)
    ensures u != "" && |u| < |s| && |p.rest.value| <= |s|
    ensures u[0] == '}' ==> ParseMembers(s, had) == Some((had[key := json], u[1..]))
    ensures u[0] != '}' ==> u[0] == ',' && ParseMembers(s, had) == ParseMembers(SkipSpace(u[1..]), had[key := json])
    decreases |s|, 2
  {
    var inside := TextFound(s[1..]);
    var a := ParseText(s[1..]).value.1;
    key := ParseText(s[1..]).value.0;
    var colon := SpaceFound(a);
    var b := SkipSpace(a)[1..];
    assert SkipSpace(a) == ":" + b;
    var before := SpaceFound(b);
    var value := ValueFound(SkipSpace(b));
    var behind := ParseValue(SkipSpace(b)).value.1;
    json := ParseValue(SkipSpace(b)).value.0;
    var after := SpaceFound(behind);
    u := SkipSpace(behind);
    p := Pair("", inside, colon, Piece(before, value, after, ""));
    PairBefore(p, u);
    assert "" + u == u && s == "\"" + s[1..];
  }

  lemma {:induction false} MembersFound(s: string, had: map<string, Json>) returns (t: string)
    requires ParseMembers(s, had).Some?
    ensures var (entries, rest) := ParseMembers(s, had).value; Taken(s, t, "}" + rest) && MembersText(t, had, entries)
    decreases |s|, 3
  {
    var (entries, rest) := ParseMembers(s, had).value;
    var p, key, json, u := MemberFound(s, had);
    if u[0] == ',' {
      var pad := SpaceFound(u[1..]);
      var inner := MembersFound(SkipSpace(u[1..]), had[key := json]);
      PaddedMembers(pad, inner, had[key := json], entries);
      t := MoreMembers(p, pad + inner, key, json, had, entries);
      Behind(p.Text(), pad, inner, "}" + rest);
      assert u == "," + u[1..];
    } else {
      t := p.Text();
      assert u == "}" + rest;
    }
  }

  lemma MoreMembers(p: Pair, more: string, key: string, json: Json, had: map<string, Json>, entries: map<string, Json>)
      returns (t: string)
    requires p.rest.more == "" && IsPair(p, p.Text(), key, json) && MembersText(more, had[key := json], entries)
    ensures MembersText(t, had, entries) && t == p.Text() + ("," + more)
  {
    var q := p.(rest := p.rest.(more := "," + more));
    t := q.Text();
    PairBefore(p, "," + more);
    assert "" + ("," + more) == "," + more && ("," + more)[1..] == more;
    assert IsPair(q, t, key, json);
  }

  /** A text parses as a JSON value exactly when the grammar has it as a text of that value, between white space. */
  lemma JsonMeans(s: string, json: Json)
    ensures ParseJson(s) == Some(json) <==>
      exists p: Piece :: IsPiece(p, s, json) && p.more == ""
  {
    if ParseJson(s) == Some(json) {
      var before := SpaceFound(s);
      var value := ValueFound(SkipSpace(s));
      var after := SpaceFound(ParseValue(SkipSpace(s)).value.1);
      var p := Piece(before, value, after, "");
      assert after + "" == after;
      assert IsPiece(p, s, json);
    }
    if p: Piece :| IsPiece(p, s, json) && p.more == "" {
      assert p.after + "" == p.after;
      EndsAfter(p.after, "");
      ValueStarts(p.value, json);
      SpaceSkipped(p.before, p.value + p.after);
      ValueReads(p.value, json, p.after);
      SpaceSkipped(p.after, "");
    }
  }
}
