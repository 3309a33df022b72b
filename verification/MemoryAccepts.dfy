/** What a document must hold to be accepted, said apart from the way it is checked. */
module MemoryAccepts {
  import opened Options
  import opened MemoryText
  import opened MemoryRecords
  import opened MemoryFormat
  import opened MemoryDocument
  import opened MemoryRoundTrip

  // ------------------------------------------------------------- vocabulary

  const DIGITS := "0123456789"
  const LETTERS := "abcdefghijklmnopqrstuvwxyz"
  const LOWER := LETTERS + DIGITS
  const HEX := DIGITS + "abcdef" + "ABCDEF"

  ghost predicate Word(s: string) { s != "" && forall i :: 0 <= i < |s| ==> LowerOrDigit(s[i]) }

  /** A word, or a word, a hyphen or underscore, and a chain again. */
  ghost predicate Chain(s: string) {
    Word(s) || exists at :: 0 <= at < |s| && Word(s[..at]) && Separator(s[at]) && Chain(s[at + 1..])
  }

  /** Consecutive characters are an interval. */
  ghost predicate Run(s: string) { s != "" && forall i :: 0 < i < |s| ==> s[i] as int == s[i - 1] as int + 1 }

  lemma InRun(s: string, c: char)
    requires Run(s)
    ensures c in s <==> s[0] <= c <= s[|s| - 1]
  {
    forall i | 0 <= i < |s| ensures s[i] as int == s[0] as int + i { Steps(s, i); }
    if s[0] <= c <= s[|s| - 1] { assert s[c as int - s[0] as int] == c; }
  }

  lemma {:induction false} Steps(s: string, i: nat)
    requires Run(s) && i < |s|
    ensures s[i] as int == s[0] as int + i
  {
    if i > 0 { Steps(s, i - 1); }
  }

  lemma Letters(c: char)
    ensures 'a' <= c <= 'z' <==> c in LETTERS
  {
    InRun(LETTERS, c);
  }

  lemma Alphabets(c: char)
    ensures Digit(c) <==> c in DIGITS
    ensures LowerOrDigit(c) <==> c in LOWER
    ensures HexDigit(c) <==> c in HEX
    ensures Separator(c) <==> c in "-_"
  {
    Letters(c);
  }

  const SPACES :=
    {0x09, 0x0a, 0x0b, 0x0c, 0x0d, 0x20, 0xa0, 0x1680, 0x2000, 0x2001, 0x2002, 0x2003, 0x2004, 0x2005, 0x2006,
     0x2007, 0x2008, 0x2009, 0x200a, 0x2028, 0x2029, 0x202f, 0x205f, 0x3000, 0xfeff}

  /** White space and line ends of ECMAScript. */
  lemma SpacesAre(c: char)
    ensures IsSpace(c) <==> c as int in SPACES
  {
  }

  // ----------------------------------------------------------------- scalars

  function Decimal(n: nat): (s: string)
    ensures s != "" && (n > 0 ==> s[0] != '0')
  {
    if n < 10 then [DIGITS[n]] else Decimal(n / 10) + [DIGITS[n % 10]]
  }

  lemma {:induction false} DecimalReads(n: nat)
    ensures Digits(Decimal(n)) && Number(Decimal(n)) == n
  {
    if n < 10 {
      assert Decimal(n)[..0] == "" && Number("") == 0;
    } else {
      DecimalReads(n / 10);
      assert Decimal(n)[..|Decimal(n)| - 1] == Decimal(n / 10);
    }
  }

  lemma DigitsRead(t: string)
    requires Digits(t)
    ensures ParseScalar(t) == Some(Num(Number(t)))
  {
    assert t[0] != '{' && t[0] != '[' && t[0] != 'n' && t[0] != '-';
    TrimTrimmed(t);
  }

  lemma NegativeReads(t: string)
    requires Digits(t)
    ensures ParseScalar("-" + t) == Some(Num(-Number(t)))
  {
    var text := "-" + t;
    assert text[0] == '-' && text[1..] == t && text[|text| - 1] == t[|t| - 1];
    TrimTrimmed(text);
  }

  /** Every integer in decimal reads as that integer. */
  lemma IntegerReads(i: int)
    ensures ParseScalar(if i < 0 then "-" + Decimal(-i) else Decimal(i)) == Some(Num(i))
  {
    var n := if i < 0 then -i else i;
    DecimalReads(n);
    if i < 0 { NegativeReads(Decimal(n)); } else { DigitsRead(Decimal(n)); }
  }

  /** A quote inside single quotes is written twice. */
  function Doubled(s: string): string {
    if s == "" then "" else (if s[0] == '\'' then "''" else [s[0]]) + Doubled(s[1..])
  }

  lemma {:induction false} UndoubleDoubled(s: string)
    ensures Undouble(Doubled(s)) == s
  {
    if s != "" {
      UndoubleDoubled(s[1..]);
      if s[0] == '\'' { assert Doubled(s)[2..] == Doubled(s[1..]); } else { assert Doubled(s)[1..] == Doubled(s[1..]); }
    }
  }

  /** Any text in single quotes reads as that text. */
  lemma SingleQuotedReads(s: string)
    ensures ParseScalar("'" + Doubled(s) + "'") == Some(Text(s))
  {
    UndoubleDoubled(s);
    var text := "'" + Doubled(s) + "'";
    assert text[1..|text| - 1] == Doubled(s);
    TrimTrimmed(text);
  }

  // ------------------------------------------------------------------ tokens

  /** A type is a chain of words. */
  lemma {:induction false} TokenIsChain(s: string)
    ensures TypeToken(s) <==> Chain(s)
    decreases |s|
  {
    if TypeToken(s) && !Word(s) {
      var at := FirstSeparator(s);
      TokenIsChain(s[at + 1..]);
      assert Chain(s[at + 1..]) && Word(s[..at]);
    }
    if Chain(s) && !Word(s) {
      var at :| 0 <= at < |s| && Word(s[..at]) && Separator(s[at]) && Chain(s[at + 1..]);
      TokenIsChain(s[at + 1..]);
      Joined(s, at);
    }
  }

  lemma FirstSeparator(s: string) returns (at: nat)
    requires TypeToken(s) && !Word(s)
    ensures 0 < at < |s| - 1 && Word(s[..at]) && Separator(s[at]) && TypeToken(s[at + 1..])
  {
    at := 0;
    while LowerOrDigit(s[at])
      invariant at < |s|
      invariant forall i :: 0 <= i < at ==> LowerOrDigit(s[i])
      decreases |s| - at
    {
      at := at + 1;
    }
    TokenRest(s, at);
  }

  lemma TokenRest(s: string, at: nat)
    requires TypeToken(s) && 0 < at < |s| && Separator(s[at])
    ensures at < |s| - 1 && TypeToken(s[at + 1..])
  {
    var rest := s[at + 1..];
    forall i | 0 < i < |rest| && Separator(rest[i - 1]) ensures !Separator(rest[i]) {
      assert rest[i - 1] == s[at + i] && rest[i] == s[at + i + 1];
    }
  }

  lemma Joined(s: string, at: nat)
    requires at < |s| && Word(s[..at]) && Separator(s[at]) && TypeToken(s[at + 1..])
    ensures TypeToken(s)
  {
    var rest := s[at + 1..];
    forall i | 0 <= i < |s| ensures i < at ==> LowerOrDigit(s[i])
      ensures i > at ==> s[i] == rest[i - at - 1]
    {
      if i < at { assert s[..at][i] == s[i]; }
    }
    assert rest[|rest| - 1] == s[|s| - 1];
    forall i | 0 < i < |s| ensures Separator(s[i - 1]) ==> !Separator(s[i]) {
      if i > at + 1 { assert rest[i - at - 2] == s[i - 1]; }
    }
  }

  /** `YYYY-MM-DDTHH:MM:SS.mmmZ`, piece by piece. */
  ghost predicate Stamp(s: string) {
    exists year, month, day, hour, minute, second, milli :: Stamped(s, year, month, day, hour, minute, second, milli)
  }

  ghost predicate Stamped(s: string, year: string, month: string, day: string, hour: string, minute: string,
                          second: string, milli: string)
  {
    && Numeral(year, 4) && Numeral(month, 2) && Numeral(day, 2)
    && Numeral(hour, 2) && Numeral(minute, 2) && Numeral(second, 2) && Numeral(milli, 3)
    && s == year + "-" + month + "-" + day + "T" + hour + ":" + minute + ":" + second + "." + milli + "Z"
  }

  ghost predicate Numeral(s: string, n: nat) { |s| == n && forall i :: 0 <= i < n ==> Digit(s[i]) }

  lemma IsoIsStamp(s: string)
    ensures Iso(s) <==> Stamp(s)
  {
    if Iso(s) {
      assert Stamped(s, s[..4], s[5..7], s[8..10], s[11..13], s[14..16], s[17..19], s[20..23]);
    }
  }

  lemma ColorMeans(s: string)
    ensures Color(s) <==> exists hex :: s == "#" + hex && |hex| == 6 && forall c :: c in hex ==> HexDigit(c)
  {
    if Color(s) { assert s == "#" + s[1..]; }
  }

  lemma AgentIdMeans(s: string)
    ensures AgentId(s) <==> exists rest :: s == "agt_" + rest && Word(rest)
  {
    if AgentId(s) { assert s == "agt_" + s[4..]; }
  }

  // -------------------------------------------------------------- acceptance

  /** Some text, on one line. */
  ghost predicate OneLine(s: string) {
    (exists c :: c in s && !IsSpace(c)) && forall c :: c in s ==> c != '\r' && c != '\n'
  }

  lemma {:induction false} TrimsToNothing(s: string)
    ensures Trim(s) == "" <==> Spaces(s)
  {
    StartKeeps(s);
    EndKeeps(TrimStart(s));
  }

  lemma {:induction false} StartKeeps(s: string)
    ensures Spaces(TrimStart(s)) <==> Spaces(s)
    ensures TrimStart(s) == "" || !IsSpace(TrimStart(s)[0])
  {
    if s != "" { StartKeeps(s[1..]); }
    if s != "" && Spaces(TrimStart(s)) && IsSpace(s[0]) {
      forall i | 0 <= i < |s| ensures IsSpace(s[i]) { if i > 0 { assert s[i] == s[1..][i - 1]; } }
    }
  }

  lemma {:induction false} EndKeeps(s: string)
    ensures TrimEnd(s) == "" <==> Spaces(s)
  {
    if s != "" { EndKeeps(s[..|s| - 1]); }
    if s != "" && TrimEnd(s) == "" && IsSpace(s[|s| - 1]) {
      forall i | 0 <= i < |s| ensures IsSpace(s[i]) { if i < |s| - 1 { assert s[i] == s[..|s| - 1][i]; } }
    }
  }

  /** What is asked of a memory, in words of its own. */
  ghost predicate Meets(m: Doc, clock: Clock) {
    && Chain(m.kind) && OneLine(m.description)
    && (forall owner :: owner in m.stains ==> AgentId(owner) && Color(m.stains[owner]))
    && Moment(m.createdAt, clock) && Moment(m.updatedAt, clock)
    && clock(m.createdAt).value <= clock(m.updatedAt).value
    && |m.sources| >= 1 && forall source :: source in m.sources ==> Cited(source, clock)
  }

  ghost predicate Moment(s: string, clock: Clock) { Stamp(s) && clock(s).Some? }

  ghost predicate Cited(source: Source, clock: Clock) {
    && (source.Manual? ==> source.actor in {"user", "legacy"} && Moment(source.capturedAt, clock))
    && (!source.Manual? ==> |source.spaceId| > 0 && |source.messageId| > 0)
    && (source.DeletedMessage? ==> Moment(source.deletedAt, clock))
  }

  lemma CitedMeans(source: Source, clock: Clock)
    ensures ValidSource(source, clock) <==> Cited(source, clock)
  {
    match source
    case Message(_, _) =>
    case DeletedMessage(_, _, at) => IsoIsStamp(at);
    case Manual(_, at) => IsoIsStamp(at);
  }

  lemma ValidMeans(m: Doc, clock: Clock)
    ensures Valid(m, clock) <==> Meets(m, clock)
  {
    TokenIsChain(m.kind);
    TrimsToNothing(m.description);
    IsoIsStamp(m.createdAt);
    IsoIsStamp(m.updatedAt);
    forall source ensures ValidSource(source, clock) <==> Cited(source, clock) { CitedMeans(source, clock); }
    if Trim(m.description) != "" {
      var i :| 0 <= i < |m.description| && !IsSpace(m.description[i]);
      assert m.description[i] in m.description;
    }
  }

  /** An item of `sources` is read as a source exactly when it has that source's keys and texts, and no others. */
  lemma ItemRead(fields: map<string, Scalar>, source: Source, clock: Clock)
    ensures ToSource(fields, clock) == Some(source) <==> fields == SourceFields(source) && Cited(source, clock)
  {
    CitedMeans(source, clock);
  }

  lemma {:induction false} ItemsRead(items: seq<map<string, Scalar>>, sources: seq<Source>, clock: Clock)
    ensures ToSources(items, clock) == Some(sources) <==>
      |items| == |sources| && forall i :: 0 <= i < |items| ==> ToSource(items[i], clock) == Some(sources[i])
  {
    if items != [] && sources != [] {
      ItemsRead(items[1..], sources[1..], clock);
      assert sources == [sources[0]] + sources[1..];
      if ToSources(items, clock) == Some(sources) {
        var first, rest := ToSource(items[0], clock).value, ToSources(items[1..], clock).value;
        assert ([first] + rest)[0] == first && ([first] + rest)[1..] == rest;
        forall i | 0 <= i < |items| ensures ToSource(items[i], clock) == Some(sources[i]) {
          if i > 0 { assert items[i] == items[1..][i - 1] && sources[i] == sources[1..][i - 1]; }
        }
      }
    }
  }

  ghost predicate Says(fields: map<string, Value>, key: string, text: string) {
    key in fields && fields[key] == Plain(Text(text))
  }

  /** What documents of either shape say about a memory. */
  ghost predicate SaysAll(fields: map<string, Value>, m: Doc) {
    && Says(fields, "type", m.kind) && Says(fields, "description", m.description)
    && Says(fields, "status", match m.status case Active => "active" case Archived => "archived")
    && "stains" in fields && fields["stains"] == Object(map owner | owner in m.stains :: Text(m.stains[owner]))
    && Says(fields, "createdAt", m.createdAt) && Says(fields, "updatedAt", m.updatedAt)
  }

  /** The fields of a document that hold a memory, and nothing else. */
  ghost predicate Tells(fields: map<string, Value>, m: Doc, legacy: bool) {
    SaysAll(fields, m)
    && if legacy then
         fields.Keys == {"type", "description", "status", "stains", "createdAt", "updatedAt"}
         && m.sources == [Manual("legacy", m.createdAt)]
       else
         fields.Keys == {"schemaVersion", "scope", "sources", "type", "description", "status", "stains", "createdAt", "updatedAt"}
         && fields["schemaVersion"] == Plain(Num(1))
         && fields["scope"] == Object(map["type" := Text("agent"), "agentId" := Text(m.agentId)])
         && Lists(fields["sources"], m.sources)
  }

  ghost predicate Lists(value: Value, sources: seq<Source>) {
    && value.List? && |value.items| == |sources|
    && forall i :: 0 <= i < |sources| ==> value.items[i] == SourceFields(sources[i])
  }

  lemma StainsTold(value: Value, stains: map<string, string>)
    ensures StainsOf(value) == Some(stains) <==> value == Object(map owner | owner in stains :: Text(stains[owner]))
  {
    var told: map<string, Scalar> := map owner | owner in stains :: Text(stains[owner]);
    if StainsOf(value) == Some(stains) {
      assert value.entries.Keys == stains.Keys == told.Keys;
      forall k | k in stains ensures value.entries[k] == told[k] {}
      assert value.entries == told;
    }
    if value == Object(told) { assert ToStains(told).value == stains; }
  }

  lemma SourcesTold(value: Value, sources: seq<Source>, clock: Clock)
    ensures SourcesOf(value, clock) == Some(sources) <==>
      Lists(value, sources) && forall source :: source in sources ==> Cited(source, clock)
  {
    if value.List? {
      ItemsRead(value.items, sources, clock);
      if |value.items| == |sources| {
        forall i | 0 <= i < |sources|
          ensures ToSource(value.items[i], clock) == Some(sources[i]) <==>
            value.items[i] == SourceFields(sources[i]) && Cited(sources[i], clock)
        {
          ItemRead(value.items[i], sources[i], clock);
        }
      }
    }
  }

  lemma AssembleMeans(fields: map<string, Value>, sources: seq<Source>, body: string, agentId: string, clock: Clock, m: Doc)
    requires LEGACY_KEYS <= fields.Keys
    ensures Assemble(fields, sources, body, agentId, clock) == Some(m) <==>
      SaysAll(fields, m) && Meets(m, clock) && m.sources == sources && m.agentId == agentId && m.content == body
  {
    StainsTold(fields["stains"], m.stains);
    ValidMeans(m, clock);
  }

  /** Fields and body are accepted as a memory exactly when they tell it and it meets what is asked. */
  lemma Accepted(fields: map<string, Value>, body: string, agentId: string, clock: Clock, m: Doc, legacy: bool)
    ensures FromFields(fields, body, agentId, clock) == Some(Parsed(m, legacy)) <==>
      Tells(fields, m, legacy) && Meets(m, clock) && m.agentId == agentId && m.content == body
  {
    if LEGACY_KEYS <= fields.Keys { AssembleMeans(fields, m.sources, body, agentId, clock, m); }
    if "sources" in fields { SourcesTold(fields["sources"], m.sources, clock); }
  }
}
