/** The printed front matter as the parser reads it, line group by line group. */
module MemoryFront {
  import opened Options
  import opened Texts
  import opened MemoryText
  import opened MemoryRecords
  import opened MemoryFormat
  import opened MemoryLines
  import opened MemoryDocument
  import opened MemoryRoundTrip

  type Fields = map<string, Value>

  // ----------------------------------------------------------------- values

  /** A type the printer may write bare. */
  predicate PlainType(kind: string) { kind != "null" && !Digits(kind) }

  /** The type of a valid memory is always read; as text only when it is neither a number nor `null`. */
  lemma TypeReads(kind: string)
    requires TypeToken(kind)
    ensures Trimmed(kind) && ParseScalar(kind).Some?
    ensures PlainType(kind) ==> ParseScalar(kind) == Some(Text(kind))
    ensures !PlainType(kind) ==> !ParseScalar(kind).value.Text?
  {
    TrimTrimmed(kind);
    assert LowerOrDigit(kind[0]);
    assert kind != "{}" && kind != "[]";
  }

  lemma IsoBare(s: string)
    requires Iso(s)
    ensures Bare(s)
  {
    assert Digit(s[0]);
    assert s[4] == '-';
    assert !Digits(s);
    assert !Enclosed(s, '"') && !Enclosed(s, '\'');
    assert s != "{}" && s != "[]" && s != "null";
  }

  lemma AgentBare(id: string)
    requires AgentId(id)
    ensures Bare(id)
  {
    assert id[..4][0] == 'a';
    assert id[0] == 'a' && LowerOrDigit(id[4]) && LowerOrDigit(id[|id| - 1]);
    assert |id| == 5 || |id| > 5;
    assert id != "null" by { assert |"null"| == 4; }
    forall i | 0 <= i < |id| ensures id[i] != '\n' {
      if i < 4 { assert id[..4][i] == "agt_"[i]; }
    }
  }

  lemma WordsBare()
    ensures Bare("agent") && Bare("active") && Bare("archived")
  {
    assert "agent"[0] == 'a' && "active"[0] == 'a' && "archived"[0] == 'a';
  }

  lemma OneReads()
    ensures ParseScalar("1") == Some(Num(1)) && Trimmed("1")
  {
    assert Number("") == 0;
    assert "1"[..0] == "";
    assert Number("1") == 1;
    TrimTrimmed("1");
  }

  lemma BareLine(key: string, v: string, rest: seq<string>, fields: Fields)
    requires Word(key) && key !in fields && Bare(v)
    ensures ParseLines([Field(key, v)] + rest, fields) == ParseLines(rest, fields[key := Plain(Text(v))])
  {
    AtomExact(v);
    ScalarLine(key, v, rest, fields);
  }

  /** A top-level line is never taken for a nested one. */
  lemma FieldOutside(key: string, v: string, rest: seq<string>)
    requires Word(key)
    ensures Outside([Field(key, v)] + rest)
  {
    assert Field(key, v) == key + ":" + (" " + v);
    KeyParses(key, " " + v, map[]);
    assert ([Field(key, v)] + rest)[0] == Field(key, v);
  }

  // -------------------------------------------------------------- the groups

  function ScopeFields(agentId: string): map<string, Scalar> {
    map["type" := Text("agent"), "agentId" := Text(agentId)]
  }

  function ScopeLines(agentId: string): seq<string> {
    ["  " + Field("type", "agent"), "  " + Field("agentId", agentId)]
  }

  lemma ScopeEntry(key: string, v: string, rest: seq<string>, entries: map<string, Scalar>)
    requires Word(key) && key !in entries && Bare(v)
    ensures Child("  " + Field(key, v)) && !Dashed(TrimStart("  " + Field(key, v)))
    ensures ParseMap(["  " + Field(key, v)] + rest, entries) == ParseMap(rest, entries[key := Text(v)])
  {
    assert "  " + Field(key, v) == "  " + key + ": " + v;
    ChildParses("  ", key, v);
    AtomExact(v);
    var lines := ["  " + Field(key, v)] + rest;
    assert lines[0] == "  " + Field(key, v) && lines[1..] == rest;
  }

  lemma ScopeParses(agentId: string)
    requires Bare(agentId)
    ensures Children(ScopeLines(agentId))
    ensures ParseChildren(ScopeLines(agentId)) == Some(Object(ScopeFields(agentId)))
  {
    TopWords();
    WordsBare();
    var one, two := "  " + Field("type", "agent"), "  " + Field("agentId", agentId);
    ScopeEntry("type", "agent", [two], map[]);
    ScopeEntry("agentId", agentId, [], map["type" := Text("agent")]);
    assert ScopeLines(agentId) == [one] + [two];
    assert [two] + [] == [two];
  }

  lemma SourcesBlock(sources: seq<Source>)
    requires PlainSources(sources) && sources != []
    ensures Children(SourcesLines(sources))
    ensures ParseChildren(SourcesLines(sources)) == Some(List(AllFields(sources)))
  {
    SourcesChildren(sources);
    SourcesParse(sources, [], []);
    assert SourcesLines(sources) + [] == SourcesLines(sources);
    assert [] + AllFields(sources) == AllFields(sources);
  }

  lemma NamedBlock(line: string, key: string, children: seq<string>, value: Value, rest: seq<string>, fields: Fields)
    requires Word(key) && key !in fields && line == key + ":" && Outside(rest) && Children(children)
    requires ParseChildren(children) == Some(value)
    ensures ParseLines([line] + (children + rest), fields) == ParseLines(rest, fields[key := value])
  {
    ClosedBlock(key, children, rest, fields);
  }

  lemma ScopeStep(agentId: string, rest: seq<string>, fields: Fields)
    requires Bare(agentId) && "scope" !in fields && Outside(rest)
    ensures ParseLines(["scope:"] + (ScopeLines(agentId) + rest), fields)
         == ParseLines(rest, fields["scope" := Object(ScopeFields(agentId))])
  {
    TopWords();
    ScopeParses(agentId);
    assert "scope:" == "scope" + ":";
    NamedBlock("scope:", "scope", ScopeLines(agentId), Object(ScopeFields(agentId)), rest, fields);
  }

  lemma SourcesStep(sources: seq<Source>, rest: seq<string>, fields: Fields)
    requires PlainSources(sources) && sources != [] && "sources" !in fields && Outside(rest)
    ensures ParseLines(["sources:"] + (SourcesLines(sources) + rest), fields)
         == ParseLines(rest, fields["sources" := List(AllFields(sources))])
  {
    TopWords();
    SourcesBlock(sources);
    assert "sources:" == "sources" + ":";
    NamedBlock("sources:", "sources", SourcesLines(sources), List(AllFields(sources)), rest, fields);
  }

  lemma VersionStep(rest: seq<string>)
    ensures ParseLines([Field("schemaVersion", "1")] + rest, map[]) == ParseLines(rest, map["schemaVersion" := Plain(Num(1))])
  {
    TopWords();
    OneReads();
    ScalarLine("schemaVersion", "1", rest, map[]);
    assert map[]["schemaVersion" := Plain(Num(1))] == map["schemaVersion" := Plain(Num(1))];
  }

  lemma HeadParses(m: Doc, rest: seq<string>)
    requires Bare(m.agentId) && PlainSources(m.sources) && m.sources != [] && Outside(rest)
    ensures ParseLines([Field("schemaVersion", "1")] + (["scope:"] + (ScopeLines(m.agentId) +
                         (["sources:"] + (SourcesLines(m.sources) + rest)))), map[])
         == ParseLines(rest, map["schemaVersion" := Plain(Num(1)), "scope" := Object(ScopeFields(m.agentId)),
                                 "sources" := List(AllFields(m.sources))])
  {
    var third := ["sources:"] + (SourcesLines(m.sources) + rest);
    VersionStep(["scope:"] + (ScopeLines(m.agentId) + third));
    SourcesOutside(SourcesLines(m.sources) + rest);
    ScopeStep(m.agentId, third, map["schemaVersion" := Plain(Num(1))]);
    SourcesStep(m.sources, rest, map["schemaVersion" := Plain(Num(1)), "scope" := Object(ScopeFields(m.agentId))]);
  }

  lemma SourcesOutside(below: seq<string>)
    ensures Outside(["sources:"] + below)
  {
    TopWords();
    BareKey("sources", map[]);
    assert (["sources:"] + below)[0] == "sources" + ":";
  }

  function WithMiddle(m: Doc, kind: Scalar, fields: Fields): Fields {
    fields["type" := ToValue(kind)]["description" := Plain(Text(m.description))]["status" := Plain(Text(StatusText(m.status)))]
  }

  function WithStains(m: Doc, order: seq<string>, fields: Fields): Fields
    requires forall o :: o in order ==> o in m.stains
  {
    fields["stains" := Object(StainFields(order, m.stains))]
  }

  function WithTail(m: Doc, fields: Fields): Fields {
    fields["createdAt" := Plain(Text(m.createdAt))]["updatedAt" := Plain(Text(m.updatedAt))]
  }

  lemma MiddleParses(m: Doc, rest: seq<string>, fields: Fields)
    requires TypeToken(m.kind)
    requires "type" !in fields && "description" !in fields && "status" !in fields
    ensures ParseLines(MiddleLines(m) + rest, fields) ==
            ParseLines(rest, WithMiddle(m, ParseScalar(m.kind).value, fields))
  {
    TopWords();
    WordsBare();
    TypeReads(m.kind);
    QuotedReads(m.description);
    var two := [Field("status", StatusText(m.status))] + rest;
    var one := [Field("description", Quoted(m.description))] + two;
    assert MiddleLines(m) + rest == [Field("type", m.kind)] + one;
    ScalarLine("type", m.kind, one, fields);
    var a := fields["type" := ToValue(ParseScalar(m.kind).value)];
    ScalarLine("description", Quoted(m.description), two, a);
    BareLine("status", StatusText(m.status), rest, a["description" := Plain(Text(m.description))]);
  }

  ghost predicate Owned(order: seq<string>, stains: map<string, string>) {
    Enumerates(order, stains.Keys) && forall o :: o in stains ==> AgentId(o)
  }

  lemma StainsParses(m: Doc, order: seq<string>, rest: seq<string>, fields: Fields)
    requires Owned(order, m.stains) && "stains" !in fields && Outside(rest)
    ensures ParseLines(StainsBlock(m, order) + rest, fields) ==
            ParseLines(rest, WithStains(m, order, fields))
  {
    if order == [] {
      NoStains(rest, fields);
      assert StainFields(order, m.stains) == map[];
    } else {
      SomeStains(m, order, rest, fields);
      Regroup(["stains:"], StainLines(order, m.stains), rest);
    }
  }

  lemma NoStains(rest: seq<string>, fields: Fields)
    requires "stains" !in fields
    ensures ParseLines([Field("stains", "{}")] + rest, fields) == ParseLines(rest, fields["stains" := Object(map[])])
  {
    TopWords();
    BracesRead();
    ScalarLine("stains", "{}", rest, fields);
  }

  lemma SomeStains(m: Doc, order: seq<string>, rest: seq<string>, fields: Fields)
    requires Owned(order, m.stains) && order != [] && "stains" !in fields && Outside(rest)
    ensures ParseLines(["stains:"] + (StainLines(order, m.stains) + rest), fields) ==
            ParseLines(rest, fields["stains" := Object(StainFields(order, m.stains))])
  {
    TopWords();
    StainsBlockParses(m, order);
    assert "stains:" == "stains" + ":";
    NamedBlock("stains:", "stains", StainLines(order, m.stains), Object(StainFields(order, m.stains)), rest, fields);
  }

  lemma BracesRead()
    ensures ParseScalar("{}") == Some(EmptyObject) && Trimmed("{}")
  {
    TrimTrimmed("{}");
  }

  lemma StainsBlockParses(m: Doc, order: seq<string>)
    requires Owned(order, m.stains) && order != []
    ensures Children(StainLines(order, m.stains))
    ensures ParseChildren(StainLines(order, m.stains)) == Some(Object(StainFields(order, m.stains)))
  {
    forall o | o in order ensures o in m.stains && Word(o) { OwnerWord(o); }
    StainChildren(order, m.stains);
    StainsParse(order, m.stains, 0);
    assert StainLines(order, m.stains)[0..] == StainLines(order, m.stains);
    assert StainFields(order[..0], m.stains) == map[];
  }

  lemma TailParses(m: Doc, fields: Fields)
    requires Iso(m.createdAt) && Iso(m.updatedAt) && "createdAt" !in fields && "updatedAt" !in fields
    ensures ParseLines(TailLines(m), fields) ==
            Some(WithTail(m, fields))
  {
    TopWords();
    IsoBare(m.createdAt);
    IsoBare(m.updatedAt);
    var last := [Field("updatedAt", m.updatedAt)];
    assert TailLines(m) == [Field("createdAt", m.createdAt)] + last;
    BareLine("createdAt", m.createdAt, last, fields);
    assert last + [] == last;
    BareLine("updatedAt", m.updatedAt, [], fields["createdAt" := Plain(Text(m.createdAt))]);
  }
}
