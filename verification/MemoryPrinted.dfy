/** The round trip of whole documents, and exactly when it holds. */
module MemoryPrinted {
  import opened Options
  import opened Texts
  import opened Lines
  import opened MemoryText
  import opened MemoryRecords
  import opened MemoryFormat
  import opened MemoryLines
  import opened MemoryDocument
  import opened MemorySplit
  import opened MemoryRoundTrip
  import opened MemoryFront

  // ------------------------------------------------- the lines in between

  /** A line that is neither a marker nor disturbed by splitting the document into lines. */
  predicate Plainly(line: string) { Clean(line) && line != "" && line[0] != '-' }

  ghost predicate AllPlainly(lines: seq<string>) { forall i :: 0 <= i < |lines| ==> Plainly(lines[i]) }

  lemma {:induction false} PlainlyClean(lines: seq<string>)
    requires AllPlainly(lines)
    ensures CleanLines(lines) && NoEnd(lines)
  {
    if lines != [] {
      assert Plainly(lines[0]);
      forall i | 0 <= i < |lines[1..]| ensures Plainly(lines[1..][i]) { assert Plainly(lines[i + 1]); }
      PlainlyClean(lines[1..]);
    }
  }

  lemma WordSingle(key: string)
    requires Word(key)
    ensures SingleLine(key)
  {
  }

  lemma ValuePlainly(head: string, v: string)
    requires head != "" && head[0] != '-' && SingleLine(head) && v != "" && Trimmed(v) && SingleLine(v)
    ensures Plainly(head + v)
  {
    assert (head + v)[|head + v| - 1] == v[|v| - 1];
  }

  lemma FieldPlainly(key: string, v: string)
    requires Word(key) && v != "" && Trimmed(v) && SingleLine(v)
    ensures Plainly(Field(key, v)) && Plainly("  " + Field(key, v)) && Plainly(Entry(key, v))
  {
    WordSingle(key);
    ValuePlainly(key + ": ", v);
    ValuePlainly("  " + key + ": ", v);
    ValuePlainly("    " + key + ": ", v);
    assert "  " + Field(key, v) == "  " + key + ": " + v;
  }

  lemma EntryPlainly(key: string, v: string)
    requires Word(key) && Bare(v)
    ensures Plainly(Entry(key, v))
  {
    FieldPlainly(key, v);
  }

  lemma OpenPlainly(kind: string)
    requires Bare(kind)
    ensures Plainly("  - " + Field("kind", kind))
  {
    ValuePlainly("  - " + "kind" + ": ", kind);
    assert "  - " + Field("kind", kind) == "  - " + "kind" + ": " + kind;
  }

  lemma Listed(a: string, b: string, c: string)
    requires Plainly(a) && Plainly(b) && Plainly(c)
    ensures AllPlainly([a, b, c])
  {
  }

  lemma TwoPlainly(kind: string, a: string, v: string, b: string, w: string)
    requires Bare(kind) && Word(a) && Bare(v) && Word(b) && Bare(w)
    ensures AllPlainly(["  - " + Field("kind", kind), Entry(a, v), Entry(b, w)])
  {
    OpenPlainly(kind);
    EntryPlainly(a, v);
    EntryPlainly(b, w);
    Listed("  - " + Field("kind", kind), Entry(a, v), Entry(b, w));
  }

  lemma SourcePlainly(source: Source)
    requires PlainSource(source)
    ensures AllPlainly(SourceLines(source))
  {
    Words();
    KindsBare();
    match source
    case Message(space, message) => TwoPlainly("message", "spaceId", space, "messageId", message);
    case Manual(actor, capturedAt) => TwoPlainly("manual", "actor", actor, "capturedAt", capturedAt);
    case DeletedMessage(space, message, deletedAt) =>
      TwoPlainly("deleted-message", "spaceId", space, "messageId", message);
      EntryPlainly("deletedAt", deletedAt);
      DeletedLines(space, message, deletedAt, []);
      PlainlyConcat(["  - " + Field("kind", "deleted-message"), Entry("spaceId", space), Entry("messageId", message)],
                    [Entry("deletedAt", deletedAt)]);
      assert [Entry("deletedAt", deletedAt)] + [] == [Entry("deletedAt", deletedAt)];
      assert SourceLines(source) + [] == SourceLines(source);
  }

  lemma PlainlyConcat(a: seq<string>, b: seq<string>)
    requires AllPlainly(a) && AllPlainly(b)
    ensures AllPlainly(a + b)
  {
  }

  lemma {:induction false} SourcesPlainly(sources: seq<Source>)
    requires PlainSources(sources)
    ensures AllPlainly(SourcesLines(sources))
  {
    if sources != [] {
      SourcePlainly(sources[0]);
      SourcesPlainly(sources[1..]);
      PlainlyConcat(SourceLines(sources[0]), SourcesLines(sources[1..]));
    }
  }

  lemma QuotedSingle(s: string)
    ensures SingleLine(Quoted(s)) && Trimmed(Quoted(s)) && Quoted(s) != ""
  {
    EscapePrintable(s);
    QuotedReads(s);
  }

  lemma StainsPlainly(m: Doc, order: seq<string>)
    requires Owned(order, m.stains)
    ensures AllPlainly(StainsBlock(m, order))
  {
    TopWords();
    if order == [] {
      FieldPlainly("stains", "{}");
    } else {
      forall i | 0 <= i < |order| ensures Plainly(StainLines(order, m.stains)[i]) {
        assert order[i] in order;
        OwnerWord(order[i]);
        QuotedSingle(m.stains[order[i]]);
        FieldPlainly(order[i], Quoted(m.stains[order[i]]));
      }
      PlainlyConcat(["stains:"], StainLines(order, m.stains));
    }
  }

  lemma HeadPlainly(agentId: string)
    requires Bare(agentId)
    ensures AllPlainly([Field("schemaVersion", "1")]) && AllPlainly(["scope:"]) && AllPlainly(["sources:"])
    ensures AllPlainly(ScopeLines(agentId))
  {
    TopWords();
    WordsBare();
    FieldPlainly("schemaVersion", "1");
    FieldPlainly("type", "agent");
    FieldPlainly("agentId", agentId);
  }

  lemma TypeSingle(kind: string)
    requires TypeToken(kind)
    ensures SingleLine(kind) && Trimmed(kind)
  {
    assert LowerOrDigit(kind[0]);
    forall i | 0 <= i < |kind| ensures kind[i] != '\n' {
      assert LowerOrDigit(kind[i]) || Separator(kind[i]);
    }
  }

  lemma MiddlePlainly(m: Doc)
    requires TypeToken(m.kind)
    ensures AllPlainly(MiddleLines(m))
  {
    TopWords();
    WordsBare();
    TypeSingle(m.kind);
    QuotedSingle(m.description);
    FieldPlainly("type", m.kind);
    FieldPlainly("description", Quoted(m.description));
    FieldPlainly("status", StatusText(m.status));
  }

  lemma TailPlainly(m: Doc)
    requires Iso(m.createdAt) && Iso(m.updatedAt)
    ensures AllPlainly(TailLines(m))
  {
    TopWords();
    IsoBare(m.createdAt);
    IsoBare(m.updatedAt);
    FieldPlainly("createdAt", m.createdAt);
    FieldPlainly("updatedAt", m.updatedAt);
  }

  function AfterSources(m: Doc, order: seq<string>): seq<string>
    requires forall o :: o in order ==> o in m.stains
  {
    MiddleLines(m) + (StainsBlock(m, order) + TailLines(m))
  }

  function Inside(m: Doc, order: seq<string>): seq<string>
    requires forall o :: o in order ==> o in m.stains
  {
    [Field("schemaVersion", "1")] + (["scope:"] + (ScopeLines(m.agentId) +
      (["sources:"] + (SourcesLines(m.sources) + AfterSources(m, order)))))
  }

  lemma FrontInside(m: Doc, order: seq<string>)
    requires forall o :: o in order ==> o in m.stains
    ensures FrontLines(m, order) == ["---"] + Inside(m, order) + ["---"]
  {
    assert HeadLines(m) == ["---"] + [Field("schemaVersion", "1")] + ["scope:"] + ScopeLines(m.agentId) + ["sources:"];
    Flatten(["---"], [Field("schemaVersion", "1")], ["scope:"], ScopeLines(m.agentId), ["sources:"],
      SourcesLines(m.sources), MiddleLines(m), StainsBlock(m, order), TailLines(m), ["---"]);
  }

  lemma Flatten<T>(a: seq<T>, b: seq<T>, c: seq<T>, d: seq<T>, e: seq<T>, f: seq<T>, g: seq<T>, h: seq<T>, i: seq<T>,
        z: seq<T>)
    ensures (a + b + c + d + e) + f + g + h + i + z == a + (b + (c + (d + (e + (f + (g + (h + i))))))) + z
  {
    Regroup(g, h, i);
    Regroup(f, g + h, i);
    Regroup(f, g, h);
    var tail := f + (g + (h + i));
    assert f + g + h + i == tail;
    FlattenHead(a, b, c, d, e, f, g, h, i);
    Regroup(d, e, tail);
    Regroup(c, d + e, tail);
    Regroup(c, d, e);
    Regroup(b, c + d + e, tail);
    assert b + (c + (d + (e + tail))) == (b + c + d + e) + tail;
    assert a + ((b + c + d + e) + tail) == (a + b + c + d + e) + tail;
  }

  lemma FlattenHead<T>(a: seq<T>, b: seq<T>, c: seq<T>, d: seq<T>, e: seq<T>, f: seq<T>, g: seq<T>, h: seq<T>,
        i: seq<T>)
    ensures (a + b + c + d + e) + f + g + h + i == (a + b + c + d + e) + (f + g + h + i)
  {
  }

  /** The memories this file speaks of: valid, of an Agent, their stains in order. */
  ghost predicate Printable(m: Doc, order: seq<string>, clock: Clock) {
    Valid(m, clock) && AgentId(m.agentId) && Enumerates(order, m.stains.Keys)
  }

  lemma InsidePlainly(m: Doc, order: seq<string>, clock: Clock)
    requires Printable(m, order, clock) && PlainSources(m.sources)
    ensures AllPlainly(Inside(m, order))
  {
    AgentBare(m.agentId);
    HeadPlainly(m.agentId);
    SourcesPlainly(m.sources);
    MiddlePlainly(m);
    StainsPlainly(m, order);
    TailPlainly(m);
    PlainlyConcat(StainsBlock(m, order), TailLines(m));
    PlainlyConcat(MiddleLines(m), StainsBlock(m, order) + TailLines(m));
    PlainlyConcat(SourcesLines(m.sources), AfterSources(m, order));
    PlainlyConcat(["sources:"], SourcesLines(m.sources) + AfterSources(m, order));
    PlainlyConcat(ScopeLines(m.agentId), ["sources:"] + (SourcesLines(m.sources) + AfterSources(m, order)));
    PlainlyConcat(["scope:"], ScopeLines(m.agentId) + (["sources:"] + (SourcesLines(m.sources) + AfterSources(m, order))));
    PlainlyConcat([Field("schemaVersion", "1")],
      ["scope:"] + (ScopeLines(m.agentId) + (["sources:"] + (SourcesLines(m.sources) + AfterSources(m, order)))));
  }

  // ------------------------------------------------------- what is read back

  function HeadFields(m: Doc): Fields {
    map["schemaVersion" := Plain(Num(1)), "scope" := Object(ScopeFields(m.agentId)), "sources" := List(AllFields(m.sources))]
  }

  function FrontFields(m: Doc, order: seq<string>, kind: Scalar): Fields
    requires forall o :: o in order ==> o in m.stains
  {
    WithTail(m, WithStains(m, order, WithMiddle(m, kind, HeadFields(m))))
  }

  lemma KeysLeft(m: Doc, order: seq<string>, kind: Scalar)
    requires forall o :: o in order ==> o in m.stains
    ensures var head := HeadFields(m);
      "type" !in head && "description" !in head && "status" !in head && "stains" !in WithMiddle(m, kind, head)
    ensures var fields := WithStains(m, order, WithMiddle(m, kind, HeadFields(m)));
      "createdAt" !in fields && "updatedAt" !in fields
  {
  }

  lemma AfterSourcesParse(m: Doc, order: seq<string>, clock: Clock)
    requires Printable(m, order, clock)
    ensures ParseScalar(m.kind).Some?
    ensures ParseLines(AfterSources(m, order), HeadFields(m)) == Some(FrontFields(m, order, ParseScalar(m.kind).value))
  {
    TypeReads(m.kind);
    var kind := ParseScalar(m.kind).value;
    KeysLeft(m, order, kind);
    MiddleParses(m, StainsBlock(m, order) + TailLines(m), HeadFields(m));
    TailOutside(m);
    StainsParses(m, order, TailLines(m), WithMiddle(m, kind, HeadFields(m)));
    TailParses(m, WithStains(m, order, WithMiddle(m, kind, HeadFields(m))));
  }

  lemma TailOutside(m: Doc)
    ensures Outside(TailLines(m))
  {
    TopWords();
    FieldOutside("createdAt", m.createdAt, [Field("updatedAt", m.updatedAt)]);
    assert TailLines(m) == [Field("createdAt", m.createdAt)] + [Field("updatedAt", m.updatedAt)];
  }

  lemma MiddleOutside(m: Doc, rest: seq<string>)
    ensures Outside(MiddleLines(m) + rest)
  {
    TopWords();
    FieldOutside("type", m.kind, []);
    assert [Field("type", m.kind)] + [] == [Field("type", m.kind)];
    assert (MiddleLines(m) + rest)[0] == Field("type", m.kind);
  }

  /** The front matter reads back as the fields that were printed, but for the type. */
  lemma FrontParses(m: Doc, order: seq<string>, clock: Clock)
    requires Printable(m, order, clock) && PlainSources(m.sources)
    ensures ParseScalar(m.kind).Some?
    ensures ParseLines(Inside(m, order), map[]) == Some(FrontFields(m, order, ParseScalar(m.kind).value))
  {
    AgentBare(m.agentId);
    MiddleOutside(m, StainsBlock(m, order) + TailLines(m));
    HeadParses(m, AfterSources(m, order));
    AfterSourcesParse(m, order, clock);
  }

  lemma FieldsKeys(m: Doc, order: seq<string>, kind: Scalar)
    requires forall o :: o in order ==> o in m.stains
    ensures FrontFields(m, order, kind).Keys == FRONTMATTER_KEYS
    ensures FRONTMATTER_KEYS != LEGACY_KEYS && LEGACY_KEYS <= FRONTMATTER_KEYS
  {
    assert "schemaVersion" in FRONTMATTER_KEYS && "schemaVersion" !in LEGACY_KEYS;
  }

  lemma HeadAt(m: Doc, order: seq<string>, kind: Scalar)
    requires forall o :: o in order ==> o in m.stains
    ensures var fields := FrontFields(m, order, kind);
      && "schemaVersion" in fields && fields["schemaVersion"] == Plain(Num(1))
      && "scope" in fields && fields["scope"] == Object(ScopeFields(m.agentId))
      && "sources" in fields && fields["sources"] == List(AllFields(m.sources))
  {
  }

  lemma MiddleAt(m: Doc, order: seq<string>, kind: Scalar)
    requires forall o :: o in order ==> o in m.stains
    ensures var fields := FrontFields(m, order, kind);
      && "type" in fields && fields["type"] == ToValue(kind)
      && "description" in fields && fields["description"] == Plain(Text(m.description))
      && "status" in fields && fields["status"] == Plain(Text(StatusText(m.status)))
  {
  }

  lemma TailAt(m: Doc, order: seq<string>, kind: Scalar)
    requires forall o :: o in order ==> o in m.stains
    ensures var fields := FrontFields(m, order, kind);
      && "stains" in fields && fields["stains"] == Object(StainFields(order, m.stains))
      && "createdAt" in fields && fields["createdAt"] == Plain(Text(m.createdAt))
      && "updatedAt" in fields && fields["updatedAt"] == Plain(Text(m.updatedAt))
  {
  }

  lemma FieldsAssemble(fields: Fields, m: Doc, order: seq<string>, clock: Clock, kind: Scalar, body: string)
    requires Printable(m, order, clock) && (kind.Text? ==> kind.text == m.kind)
    requires LEGACY_KEYS <= fields.Keys
    requires fields["type"] == ToValue(kind) && fields["description"] == Plain(Text(m.description))
    requires fields["status"] == Plain(Text(StatusText(m.status)))
    requires fields["stains"] == Object(StainFields(order, m.stains))
    requires fields["createdAt"] == Plain(Text(m.createdAt)) && fields["updatedAt"] == Plain(Text(m.updatedAt))
    ensures Assemble(fields, m.sources, body, m.agentId, clock) == if kind.Text? then Some(m.(content := body)) else None
  {
    StainsRead(order, m.stains);
  }

  lemma FieldsRead(m: Doc, order: seq<string>, clock: Clock, kind: Scalar, body: string)
    requires Printable(m, order, clock) && (kind.Text? ==> kind.text == m.kind)
    ensures FromFields(FrontFields(m, order, kind), body, m.agentId, clock) ==
            if kind.Text? then Some(Parsed(m.(content := body), false)) else None
  {
    FieldsKeys(m, order, kind);
    HeadAt(m, order, kind);
    MiddleAt(m, order, kind);
    TailAt(m, order, kind);
    SourcesRead(m.sources, clock);
    FieldsAssemble(FrontFields(m, order, kind), m, order, clock, kind, body);
  }

  /** What parsing a printed memory gives when its source ids may be printed bare. */
  lemma ParsePrinted(m: Doc, order: seq<string>, clock: Clock)
    requires Printable(m, order, clock) && PlainSources(m.sources)
    ensures Parse(Document(m, order), m.agentId, clock) ==
            if PlainType(m.kind) then Some(Parsed(m.(content := BodySeen(m.content)), false)) else None
  {
    FrontInside(m, order);
    InsidePlainly(m, order, clock);
    PlainlyClean(Inside(m, order));
    SplitPrinted(Inside(m, order), m.content);
    FrontParses(m, order, clock);
    TypeReads(m.kind);
    FieldsRead(m, order, clock, ParseScalar(m.kind).value, BodySeen(m.content));
  }
}
