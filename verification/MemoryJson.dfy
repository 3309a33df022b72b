/** JSON values, as the front matter may hold them on one line. */
module MemoryJson {
  import opened Options
  import opened MemoryText

  /** A JSON value; nothing in a document depends on which number it is. */
  datatype Json =
    | JsonNull
    | JsonBool(value: bool)
    | JsonNumber(digits: string)
    | JsonString(text: string)
    | JsonArray(items: seq<Json>)
    | JsonObject(entries: map<string, Json>)

  // ----------------------------------------------------------------- parsing

  predicate JsonSpace(c: char) { c == ' ' || c == '\t' || c == '\n' || c == '\r' }

  function SkipSpace(s: string): (rest: string)
    ensures |rest| <= |s|
  {
    if s != "" && JsonSpace(s[0]) then SkipSpace(s[1..]) else s
  }

  function SkipDigits(s: string): (rest: string)
    ensures |rest| <= |s|
  {
    if s != "" && '0' <= s[0] <= '9' then SkipDigits(s[1..]) else s
  }

  /** At least one digit. */
  function SomeDigits(s: string): (rest: Option<string>)
    ensures rest.Some? ==> |rest.value| < |s|
  {
    var rest := SkipDigits(s);
    if |rest| < |s| then Some(rest) else None
  }

  /** Digits without a leading zero, unless zero is all there is. */
  function Whole(s: string): (rest: Option<string>)
    ensures rest.Some? ==> |rest.value| < |s|
  {
    if s != "" && s[0] == '0' then Some(s[1..]) else SomeDigits(s)
  }

  function Fraction(s: string): (rest: Option<string>)
    ensures rest.Some? ==> |rest.value| <= |s|
  {
    if s == "" || s[0] != '.' then Some(s) else SomeDigits(s[1..])
  }

  function Exponent(s: string): (rest: Option<string>)
    ensures rest.Some? ==> |rest.value| <= |s|
  {
    if s == "" || (s[0] != 'e' && s[0] != 'E') then Some(s)
    else
      var t := s[1..];
      SomeDigits(if t != "" && (t[0] == '+' || t[0] == '-') then t[1..] else t)
  }

  function AfterNumber(s: string): (rest: Option<string>)
    ensures rest.Some? ==> |rest.value| < |s|
  {
    match Whole(if s != "" && s[0] == '-' then s[1..] else s)
    case None => None
    case Some(t) => match Fraction(t)
      case None => None
      case Some(u) => Exponent(u)
  }

  /** The inside of a string, up to its closing quote, and what comes after that. */
  function ParseText(s: string): (r: Option<(string, string)>)
    ensures r.Some? ==> |r.value.1| < |s|
    decreases |s|
  {
    if s == "" then None
    else if s[0] == '"' then Some(("", s[1..]))
    else
      match UnescapeChar(s)
      case None => None
      case Some((c, n)) =>
        if n > |s| || n == 0 then None
        else match ParseText(s[n..])
          case None => None
          case Some((text, rest)) => Some(([c] + text, rest))
  }

  predicate StartsWith(s: string, word: string) { |word| <= |s| && s[..|word|] == word }

  function ParseValue(s: string): (r: Option<(Json, string)>)
    ensures r.Some? ==> |r.value.1| < |s|
    decreases |s|, 1
  {
    if s == "" then None
    else if StartsWith(s, "null") then Some((JsonNull, s[4..]))
    else if StartsWith(s, "true") then Some((JsonBool(true), s[4..]))
    else if StartsWith(s, "false") then Some((JsonBool(false), s[5..]))
    else if s[0] == '"' then
      match ParseText(s[1..])
      case None => None
      case Some((text, rest)) => Some((JsonString(text), rest))
    else if s[0] == '[' then
      var t := SkipSpace(s[1..]);
      if t != "" && t[0] == ']' then Some((JsonArray([]), t[1..]))
      else match ParseItems(t)
        case None => None
        case Some((items, rest)) => Some((JsonArray(items), rest))
    else if s[0] == '{' then
      var t := SkipSpace(s[1..]);
      if t != "" && t[0] == '}' then Some((JsonObject(map[]), t[1..]))
      else match ParseMembers(t, map[])
        case None => None
        case Some((entries, rest)) => Some((JsonObject(entries), rest))
    else match AfterNumber(s)
      case None => None
      case Some(rest) => Some((JsonNumber(s[..|s| - |rest|]), rest))
  }

  /** One item or more, up to the closing bracket. */
  function ParseItems(s: string): (r: Option<(seq<Json>, string)>)
    ensures r.Some? ==> |r.value.1| < |s|
    decreases |s|, 2
  {
    match ParseValue(s)
    case None => None
    case Some((item, after)) =>
      var t := SkipSpace(after);
      if t == "" then None
      else if t[0] == ']' then Some(([item], t[1..]))
      else if t[0] != ',' then None
      else match ParseItems(SkipSpace(t[1..]))
        case None => None
        case Some((items, rest)) => Some(([item] + items, rest))
  }

  /** One member or more, up to the closing brace; of members with one key the last counts. */
  function ParseMembers(s: string, entries: map<string, Json>): (r: Option<(map<string, Json>, string)>)
    ensures r.Some? ==> |r.value.1| < |s|
    decreases |s|, 2
  {
    if s == "" || s[0] != '"' then None
    else match ParseText(s[1..])
      case None => None
      case Some((key, after)) =>
        var colon := SkipSpace(after);
        if colon == "" || colon[0] != ':' then None
        else match ParseValue(SkipSpace(colon[1..]))
          case None => None
          case Some((value, after)) =>
            var t := SkipSpace(after);
            if t == "" then None
            else if t[0] == '}' then Some((entries[key := value], t[1..]))
            else if t[0] != ',' then None
            else ParseMembers(SkipSpace(t[1..]), entries[key := value])
  }

  /** `JSON.parse` */
  function ParseJson(s: string): Option<Json> {
    match ParseValue(SkipSpace(s))
    case None => None
    case Some((json, rest)) => if SkipSpace(rest) == "" then Some(json) else None
  }

  // ---------------------------------------------------------------- printing

  /** A JSON value as it is written down, members in order; numbers aside. */
  datatype Form =
    | NullForm
    | BoolForm(value: bool)
    | TextForm(text: string)
    | ArrayForm(items: seq<Form>)
    | ObjectForm(members: seq<Member>)

  datatype Member = Member(key: string, form: Form)

  function Meaning(form: Form): Json {
    match form
    case NullForm => JsonNull
    case BoolForm(value) => JsonBool(value)
    case TextForm(text) => JsonString(text)
    case ArrayForm(items) => JsonArray(seq(|items|, i requires 0 <= i < |items| => Meaning(items[i])))
    case ObjectForm(members) => JsonObject(Entries(members, map[]))
  }

  function Entries(members: seq<Member>, entries: map<string, Json>): map<string, Json> {
    if members == [] then entries
    else Entries(members[1..], entries[members[0].key := Meaning(members[0].form)])
  }

  /** `JSON.stringify` */
  function Print(form: Form): string {
    match form
    case NullForm => "null"
    case BoolForm(value) => if value then "true" else "false"
    case TextForm(text) => Quoted(text)
    case ArrayForm(items) => if items == [] then "[]" else "[" + PrintItems(items)
    case ObjectForm(members) => if members == [] then "{}" else "{" + PrintMembers(members)
  }

  function PrintItems(items: seq<Form>): string
    requires items != []
  {
    Print(items[0]) + if |items| == 1 then "]" else "," + PrintItems(items[1..])
  }

  function PrintMembers(members: seq<Member>): string
    requires members != []
  {
    Quoted(members[0].key) + ":" + Print(members[0].form) + if |members| == 1 then "}" else "," + PrintMembers(members[1..])
  }

  lemma NoSpace(s: string)
    requires s == "" || !JsonSpace(s[0])
    ensures SkipSpace(s) == s
  {
  }

  lemma PrintStarts(form: Form)
    ensures Print(form) != "" && Print(form)[0] in {'n', 't', 'f', '"', '[', '{'}
  {
  }

  lemma EscapeStarts(c: char)
    ensures EscapeChar(c) != "" && EscapeChar(c)[0] != '"'
  {
  }

  /** A printed string is read up to its closing quote. */
  lemma {:induction false} TextParses(text: string, rest: string)
    ensures ParseText(Escape(text) + "\"" + rest) == Some((text, rest))
  {
    var s := Escape(text) + "\"" + rest;
    if text == "" {
      assert s == "\"" + rest && s[1..] == rest;
    } else {
      var e, tail := EscapeChar(text[0]), Escape(text[1..]) + "\"" + rest;
      assert s == e + tail;
      UnescapeEscapeChar(text[0], tail);
      assert s[|e|..] == tail;
      EscapeStarts(text[0]);
      TextParses(text[1..], rest);
      assert [text[0]] + text[1..] == text;
    }
  }

  lemma QuotedParses(text: string, rest: string)
    ensures var s := Quoted(text) + rest; s[0] == '"' && ParseText(s[1..]) == Some((text, rest))
  {
    TextParses(text, rest);
    assert (Quoted(text) + rest)[1..] == Escape(text) + "\"" + rest;
  }

  lemma WordParses(form: Form, rest: string)
    requires form.NullForm? || form.BoolForm?
    ensures ParseValue(Print(form) + rest) == Some((Meaning(form), rest))
  {
    var s := Print(form) + rest;
    var n := |Print(form)|;
    assert s[..n] == Print(form) && s[n..] == rest && s[0] == Print(form)[0];
  }

  lemma NoWord(s: string)
    requires s != "" && s[0] !in {'n', 't', 'f'}
    ensures !StartsWith(s, "null") && !StartsWith(s, "true") && !StartsWith(s, "false")
  {
  }

  lemma QuoteOpens(s: string, text: string, rest: string)
    requires s != "" && s[0] == '"' && ParseText(s[1..]) == Some((text, rest))
    ensures ParseValue(s) == Some((JsonString(text), rest))
  {
    NoWord(s);
  }

  lemma BracketCloses(rest: string)
    ensures ParseValue("[]" + rest) == Some((JsonArray([]), rest))
  {
    NoWord("[]" + rest);
    assert ("[]" + rest)[1..] == "]" + rest;
    NoSpace("]" + rest);
    assert ("]" + rest)[1..] == rest;
  }

  lemma BracketOpens(t: string, items: seq<Json>, rest: string)
    requires t != "" && !JsonSpace(t[0]) && t[0] != ']' && ParseItems(t) == Some((items, rest))
    ensures ParseValue("[" + t) == Some((JsonArray(items), rest))
  {
    NoWord("[" + t);
    assert ("[" + t)[1..] == t;
    NoSpace(t);
  }

  lemma BraceCloses(rest: string)
    ensures ParseValue("{}" + rest) == Some((JsonObject(map[]), rest))
  {
    NoWord("{}" + rest);
    assert ("{}" + rest)[1..] == "}" + rest;
    NoSpace("}" + rest);
    assert ("}" + rest)[1..] == rest;
  }

  lemma BraceOpens(t: string, entries: map<string, Json>, rest: string)
    requires t != "" && !JsonSpace(t[0]) && t[0] != '}' && ParseMembers(t, map[]) == Some((entries, rest))
    ensures ParseValue("{" + t) == Some((JsonObject(entries), rest))
  {
    NoWord("{" + t);
    assert ("{" + t)[1..] == t;
    NoSpace(t);
  }

  lemma {:induction false} ValueParses(form: Form, rest: string)
    ensures ParseValue(Print(form) + rest) == Some((Meaning(form), rest))
    decreases |Print(form)|, 1
  {
    match form
    case NullForm => WordParses(form, rest);
    case BoolForm(_) => WordParses(form, rest);
    case TextForm(text) =>
      QuotedParses(text, rest);
      QuoteOpens(Print(form) + rest, text, rest);
    case ArrayForm(items) => ArrayParses(items, rest);
    case ObjectForm(members) => ObjectParses(members, rest);
  }

  lemma {:induction false} ArrayParses(items: seq<Form>, rest: string)
    ensures ParseValue(Print(ArrayForm(items)) + rest) == Some((Meaning(ArrayForm(items)), rest))
    decreases |Print(ArrayForm(items))|, 0
  {
    assert Meaning(ArrayForm(items)) == JsonArray(Meanings(items));
    if items == [] {
      BracketCloses(rest);
      assert Meanings(items) == [];
    } else {
      var t := PrintItems(items) + rest;
      assert Print(ArrayForm(items)) + rest == "[" + t;
      PrintStarts(items[0]);
      ItemsParse(items, rest);
      BracketOpens(t, Meanings(items), rest);
    }
  }

  lemma {:induction false} ObjectParses(members: seq<Member>, rest: string)
    ensures ParseValue(Print(ObjectForm(members)) + rest) == Some((Meaning(ObjectForm(members)), rest))
    decreases |Print(ObjectForm(members))|, 0
  {
    if members == [] {
      BraceCloses(rest);
    } else {
      var t := PrintMembers(members) + rest;
      assert Print(ObjectForm(members)) + rest == "{" + t;
      MembersParse(members, map[], rest);
      BraceOpens(t, Entries(members, map[]), rest);
    }
  }

  function Meanings(items: seq<Form>): seq<Json> {
    seq(|items|, i requires 0 <= i < |items| => Meaning(items[i]))
  }

  lemma ItemsEnd(s: string, item: Json, rest: string)
    requires ParseValue(s) == Some((item, "]" + rest))
    ensures ParseItems(s) == Some(([item], rest))
  {
    NoSpace("]" + rest);
  }

  lemma ItemsGoOn(s: string, item: Json, more: string, items: seq<Json>, rest: string)
    requires ParseValue(s) == Some((item, "," + more)) && more != "" && !JsonSpace(more[0])
    requires ParseItems(more) == Some((items, rest))
    ensures ParseItems(s) == Some(([item] + items, rest))
  {
    NoSpace("," + more);
    NoSpace(more);
    assert ("," + more)[1..] == more;
  }

  lemma {:induction false} ItemsParse(items: seq<Form>, rest: string)
    requires items != []
    ensures ParseItems(PrintItems(items) + rest) == Some((Meanings(items), rest))
    decreases |PrintItems(items)|
  {
    var s := PrintItems(items) + rest;
    if |items| == 1 {
      assert s == Print(items[0]) + ("]" + rest);
      ValueParses(items[0], "]" + rest);
      ItemsEnd(s, Meaning(items[0]), rest);
      assert Meanings(items) == [Meaning(items[0])];
    } else {
      var more := PrintItems(items[1..]) + rest;
      assert s == Print(items[0]) + ("," + more);
      ValueParses(items[0], "," + more);
      PrintStarts(items[1]);
      ItemsParse(items[1..], rest);
      ItemsGoOn(s, Meaning(items[0]), more, Meanings(items[1..]), rest);
      assert Meanings(items) == [Meaning(items[0])] + Meanings(items[1..]);
    }
  }

  /** A key, a colon and a value, up to what follows the value. */
  lemma MemberParses(s: string, key: string, value: string, json: Json, after: string, entries: map<string, Json>)
    requires s == Quoted(key) + (":" + value) && value != "" && !JsonSpace(value[0])
    requires ParseValue(value) == Some((json, after)) && after != "" && !JsonSpace(after[0])
    ensures after[0] == '}' ==> ParseMembers(s, entries) == Some((entries[key := json], after[1..]))
    ensures after[0] == ',' ==> ParseMembers(s, entries) == ParseMembers(SkipSpace(after[1..]), entries[key := json])
  {
    QuotedParses(key, ":" + value);
    NoSpace(":" + value);
    assert (":" + value)[1..] == value;
    NoSpace(value);
    NoSpace(after);
  }

  lemma LastMember(member: Member, entries: map<string, Json>, rest: string)
    requires ParseValue(Print(member.form) + ("}" + rest)) == Some((Meaning(member.form), "}" + rest))
    ensures ParseMembers(PrintMembers([member]) + rest, entries) == Some((entries[member.key := Meaning(member.form)], rest))
  {
    PrintStarts(member.form);
    var value := Print(member.form) + ("}" + rest);
    assert PrintMembers([member]) + rest == Quoted(member.key) + (":" + value);
    MemberParses(PrintMembers([member]) + rest, member.key, value, Meaning(member.form), "}" + rest, entries);
    assert ("}" + rest)[1..] == rest;
  }

  lemma Regroup(a: string, b: string, c: string, d: string, e: string, rest: string)
    ensures a + b + c + (d + e) + rest == a + (b + (c + (d + (e + rest))))
  {
  }

  lemma MembersText(members: seq<Member>, rest: string)
    requires |members| > 1
    ensures PrintMembers(members) + rest
      == Quoted(members[0].key) + (":" + (Print(members[0].form) + ("," + (PrintMembers(members[1..]) + rest))))
    ensures PrintMembers(members[1..])[0] == '"'
  {
    Regroup(Quoted(members[0].key), ":", Print(members[0].form), ",", PrintMembers(members[1..]), rest);
  }

  lemma FirstMember(members: seq<Member>, entries: map<string, Json>, rest: string)
    requires |members| > 1
    requires var form, more := members[0].form, PrintMembers(members[1..]) + rest;
      ParseValue(Print(form) + ("," + more)) == Some((Meaning(form), "," + more))
    ensures ParseMembers(PrintMembers(members) + rest, entries)
      == ParseMembers(PrintMembers(members[1..]) + rest, entries[members[0].key := Meaning(members[0].form)])
  {
    var key, form, more := members[0].key, members[0].form, PrintMembers(members[1..]) + rest;
    PrintStarts(form);
    MembersText(members, rest);
    MemberParses(PrintMembers(members) + rest, key, Print(form) + ("," + more), Meaning(form), "," + more, entries);
    assert ("," + more)[1..] == more;
    NoSpace(more);
  }

  lemma {:induction false} MembersParse(members: seq<Member>, entries: map<string, Json>, rest: string)
    requires members != []
    ensures ParseMembers(PrintMembers(members) + rest, entries) == Some((Entries(members, entries), rest))
    decreases |PrintMembers(members)|
  {
    var form, more := members[0].form, entries[members[0].key := Meaning(members[0].form)];
    if |members| == 1 {
      ValueParses(form, "}" + rest);
      LastMember(members[0], entries, rest);
      assert members == [members[0]] && members[1..] == [];
    } else {
      ValueParses(form, "," + (PrintMembers(members[1..]) + rest));
      FirstMember(members, entries, rest);
      MembersParse(members[1..], more, rest);
    }
  }

  /** What is printed on one line reads back as what it means. */
  lemma JsonRoundTrip(form: Form)
    ensures ParseJson(Print(form)) == Some(Meaning(form))
  {
    PrintStarts(form);
    NoSpace(Print(form));
    assert Print(form) + "" == Print(form);
    ValueParses(form, "");
  }
}
