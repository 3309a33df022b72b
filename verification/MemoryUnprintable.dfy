/** Source ids that are not plain atoms never survive printing. */
module MemoryUnprintable {
  import opened Options
  import opened Lines
  import opened MemoryText
  import opened MemoryRecords
  import opened MemoryFormat
  import opened MemoryLines
  import opened MemoryDocument
  import opened MemorySplit
  import opened MemoryRoundTrip
  import opened MemoryFront
  import opened MemoryPrinted

  // -------------------------------------------- parsing only ever adds things

  lemma {:induction false} ListExtends(children: seq<string>, items: seq<map<string, Scalar>>, at: nat, key: string)
    requires at < |items| && key in items[at] && ParseList(children, items).Some?
    ensures var r := ParseList(children, items).value;
      at < |r| && key in r[at] && r[at][key] == items[at][key]
  {
    if children != [] {
      var more := ParseItem(Trim(children[0]), items).value;
      assert at < |more| && key in more[at] && more[at][key] == items[at][key];
      ListExtends(children[1..], more, at, key);
    }
  }

  lemma {:induction false} FieldsStay(lines: seq<string>, fields: Fields, key: string)
    requires key in fields && ParseLines(lines, fields).Some?
    ensures var r := ParseLines(lines, fields).value; key in r && r[key] == fields[key]
    decreases |lines|
  {
    if lines != [] {
      if Blank(lines[0]) {
        FieldsStay(lines[1..], fields, key);
      } else {
        var (k, rest) := ParseKey(lines[0], fields).value;
        if rest != "" {
          FieldsStay(lines[1..], fields[k := ToValue(ParseScalar(rest).value)], key);
        } else {
          var (children, after) := Block(lines[1..]);
          FieldsStay(after, fields[k := ParseChildren(children).value], key);
        }
      }
    }
  }

  lemma {:induction false} SourcesReadAt(items: seq<map<string, Scalar>>, clock: Clock, at: nat)
    requires ToSources(items, clock).Some? && at < |items|
    ensures var r := ToSources(items, clock).value; |r| == |items| && ToSource(items[at], clock) == Some(r[at])
  {
    if at > 0 { SourcesReadAt(items[1..], clock, at - 1); }
    if |items| > 1 && at == 0 { SourcesReadAt(items[1..], clock, 0); }
    if |items| == 1 { assert ToSources(items[1..], clock) == Some([]); }
  }

  // ------------------------------------------------------ the first bad value

  /** A source whose ids are printed, with the one that is not bare. */
  datatype Bad = Bad(kind: string, key: string, value: string, before: seq<string>, open: map<string, Scalar>, after: seq<string>)

  ghost predicate BadIn(bad: Bad, source: Source) {
    && SourceLines(source) == bad.before + ([Entry(bad.key, bad.value)] + bad.after)
    && (bad.key == "spaceId" || bad.key == "messageId") && !Bare(bad.value) && bad.value != ""
    && bad.key !in bad.open && "kind" in bad.open
    && AllPlainly(bad.before) && Children(bad.before) && bad.before != [] && Dashed(TrimStart(bad.before[0]))
    && (bad.key == "spaceId" ==> !source.Manual? && source.spaceId == bad.value)
    && (bad.key == "messageId" ==> !source.Manual? && source.messageId == bad.value)
    && forall rest, items :: ParseList(bad.before + rest, items) == ParseList(rest, items + [bad.open])
  }

  lemma OneByOne<T>(a: T, b: T, rest: seq<T>)
    ensures [a, b] + rest == [a] + ([b] + rest)
  {
  }

  lemma BadSpace(kind: string, space: string, after: seq<string>, source: Source)
    requires Bare(kind) && !Bare(space) && space != ""
    requires SourceLines(source) == ["  - " + Field("kind", kind), Entry("spaceId", space)] + after
    requires !source.Manual? && source.spaceId == space
    ensures BadIn(Bad(kind, "spaceId", space, ["  - " + Field("kind", kind)], map["kind" := Text(kind)], after), source)
  {
    OpenPlainly(kind);
    OpenChild(kind);
    OneByOne("  - " + Field("kind", kind), Entry("spaceId", space), after);
    forall rest, items
      ensures ParseList(["  - " + Field("kind", kind)] + rest, items) == ParseList(rest, items + [map["kind" := Text(kind)]])
    {
      ItemOpens(kind, rest, items);
    }
  }

  lemma BadMessage(kind: string, space: string, message: string, after: seq<string>, source: Source)
    requires Bare(kind) && Bare(space) && !Bare(message) && message != ""
    requires SourceLines(source) == ["  - " + Field("kind", kind), Entry("spaceId", space)] + ([Entry("messageId", message)] + after)
    requires !source.Manual? && source.messageId == message
    ensures BadIn(Bad(kind, "messageId", message, ["  - " + Field("kind", kind), Entry("spaceId", space)],
                      map["kind" := Text(kind), "spaceId" := Text(space)], after), source)
  {
    Words();
    OpenPlainly(kind);
    OpenChild(kind);
    EntryPlainly("spaceId", space);
    EntryChild("spaceId", space);
    forall rest, items
      ensures ParseList(["  - " + Field("kind", kind), Entry("spaceId", space)] + rest, items)
           == ParseList(rest, items + [map["kind" := Text(kind), "spaceId" := Text(space)]])
    {
      TwoParse(kind, space, rest, items);
    }
  }

  lemma TwoParse(kind: string, space: string, rest: seq<string>, items: seq<map<string, Scalar>>)
    requires Bare(kind) && Bare(space)
    ensures ParseList(["  - " + Field("kind", kind), Entry("spaceId", space)] + rest, items)
         == ParseList(rest, items + [map["kind" := Text(kind), "spaceId" := Text(space)]])
  {
    Words();
    AtomExact(space);
    var l0, l1 := "  - " + Field("kind", kind), Entry("spaceId", space);
    assert [l0, l1] + rest == [l0] + ([l1] + rest);
    ItemOpens(kind, [l1] + rest, items);
    ItemAdds("spaceId", space, rest, items, map["kind" := Text(kind)]);
  }

  /** A valid source that is not plain has a bad id. */
  lemma FindBad(source: Source, clock: Clock) returns (bad: Bad)
    requires ValidSource(source, clock) && !PlainSource(source)
    ensures BadIn(bad, source)
  {
    KindsBare();
    match source
    case Message(space, message) =>
      if Bare(space) {
        BadMessage("message", space, message, [], source);
        bad := Bad("message", "messageId", message, ["  - " + Field("kind", "message"), Entry("spaceId", space)],
                   map["kind" := Text("message"), "spaceId" := Text(space)], []);
      } else {
        var after := [Entry("messageId", message)];
        BadSpace("message", space, after, source);
        bad := Bad("message", "spaceId", space, ["  - " + Field("kind", "message")], map["kind" := Text("message")], after);
      }
    case DeletedMessage(space, message, deletedAt) =>
      IsoBare(deletedAt);
      var kind := "deleted-message";
      if Bare(space) {
        var after := [Entry("deletedAt", deletedAt)];
        BadMessage(kind, space, message, after, source);
        bad := Bad(kind, "messageId", message, ["  - " + Field("kind", kind), Entry("spaceId", space)],
                   map["kind" := Text(kind), "spaceId" := Text(space)], after);
      } else {
        var after := [Entry("messageId", message), Entry("deletedAt", deletedAt)];
        BadSpace(kind, space, after, source);
        bad := Bad(kind, "spaceId", space, ["  - " + Field("kind", kind)], map["kind" := Text(kind)], after);
      }
    case Manual(actor, capturedAt) =>
      IsoBare(capturedAt);
      ActorsBare();
  }

  lemma ActorsBare()
    ensures Bare("user") && Bare("legacy")
  {
    assert "user"[0] == 'u' && "legacy"[0] == 'l';
  }

  lemma {:induction false} SourcesAround(sources: seq<Source>, i: nat)
    requires i < |sources|
    ensures SourcesLines(sources)
         == SourcesLines(sources[..i]) + (SourceLines(sources[i]) + SourcesLines(sources[i + 1..]))
    decreases i
  {
    if i == 0 {
      assert SourcesLines(sources[..0]) == [];
    } else {
      SourcesAround(sources[1..], i - 1);
      assert sources[1..][..i - 1] == sources[..i][1..];
      assert sources[1..][i - 1 + 1..] == sources[i + 1..];
      Regroup(SourceLines(sources[0]), SourcesLines(sources[..i][1..]), SourceLines(sources[i]) + SourcesLines(sources[i + 1..]));
    }
  }

  lemma {:induction false} JoinConcat(a: seq<string>, b: seq<string>)
    requires a != [] && b != []
    ensures Join(a + b) == Join(a) + "\n" + Join(b)
  {
    if |a| == 1 {
      assert (a + b)[1..] == b;
    } else {
      assert (a + b)[1..] == a[1..] + b;
      JoinConcat(a[1..], b);
      JoinHead(a, Join(b));
    }
  }

  // --------------------------------------------- what the parser makes of it

  /** The lines between the start marker and the bad value. */
  function Before(m: Doc, i: nat, bad: Bad): seq<string>
    requires i < |m.sources|
  {
    [Field("schemaVersion", "1")] + (["scope:"] + (ScopeLines(m.agentId) + (["sources:"] + (SourcesLines(m.sources[..i]) + bad.before))))
  }

  ghost predicate BadAt(m: Doc, i: nat, bad: Bad) {
    i < |m.sources| && PlainSources(m.sources[..i]) && BadIn(bad, m.sources[i]) && Bare(m.agentId)
  }

  lemma BeforePlainly(m: Doc, i: nat, bad: Bad)
    requires BadAt(m, i, bad)
    ensures AllPlainly(Before(m, i, bad))
  {
    HeadPlainly(m.agentId);
    SourcesPlainly(m.sources[..i]);
    var inner := SourcesLines(m.sources[..i]) + bad.before;
    PlainlyConcat(SourcesLines(m.sources[..i]), bad.before);
    PlainlyConcat(["sources:"], inner);
    PlainlyConcat(ScopeLines(m.agentId), ["sources:"] + inner);
    PlainlyConcat(["scope:"], ScopeLines(m.agentId) + (["sources:"] + inner));
    PlainlyConcat([Field("schemaVersion", "1")], ["scope:"] + (ScopeLines(m.agentId) + (["sources:"] + inner)));
  }

  lemma ChildrenConcat(a: seq<string>, b: seq<string>)
    requires Children(a) && Children(b)
    ensures Children(a + b)
  {
  }

  /** Reading the sources up to the bad line. */
  lemma BadBlock(m: Doc, i: nat, bad: Bad, x: string, more: seq<string>)
    requires BadAt(m, i, bad)
    ensures var children := BadChildren(m, i, bad, x);
      Children(children) && Dashed(TrimStart(children[0]))
    ensures ParseList(BadChildren(m, i, bad, x) + more, []) ==
            match ParseScalar(x)
            case None => None
            case Some(scalar) => ParseList(more, AllFields(m.sources[..i]) + [bad.open[bad.key := scalar]])
  {
    Words();
    SourcesChildren(m.sources[..i]);
    EntryChild(bad.key, x);
    ChildrenConcat(SourcesLines(m.sources[..i]), bad.before);
    ChildrenConcat(SourcesLines(m.sources[..i]) + bad.before, [Entry(bad.key, x)]);
    BadList(m, i, bad, x, more);
    Regroup(SourcesLines(m.sources[..i]) + bad.before, [Entry(bad.key, x)], more);
    Regroup(SourcesLines(m.sources[..i]), bad.before, [Entry(bad.key, x)] + more);
    if i == 0 {
      assert SourcesLines(m.sources[..0]) == [];
      assert (SourcesLines(m.sources[..i]) + bad.before + [Entry(bad.key, x)])[0] == bad.before[0];
    } else {
      assert (SourcesLines(m.sources[..i]) + bad.before + [Entry(bad.key, x)])[0] == SourcesLines(m.sources[..i])[0];
    }
  }

  lemma BadList(m: Doc, i: nat, bad: Bad, x: string, more: seq<string>)
    requires BadAt(m, i, bad)
    ensures ParseList(SourcesLines(m.sources[..i]) + (bad.before + ([Entry(bad.key, x)] + more)), []) ==
            match ParseScalar(x)
            case None => None
            case Some(scalar) => ParseList(more, AllFields(m.sources[..i]) + [bad.open[bad.key := scalar]])
  {
    Words();
    SourcesParse(m.sources[..i], bad.before + ([Entry(bad.key, x)] + more), []);
    assert [] + AllFields(m.sources[..i]) == AllFields(m.sources[..i]);
    ItemAdds(bad.key, x, more, AllFields(m.sources[..i]), bad.open);
  }

  lemma {:induction false} AllFieldsLength(sources: seq<Source>)
    ensures |AllFields(sources)| == |sources|
  {
    if sources != [] { AllFieldsLength(sources[1..]); }
  }

  function BadChildren(m: Doc, i: nat, bad: Bad, x: string): seq<string>
    requires i < |m.sources|
  {
    SourcesLines(m.sources[..i]) + bad.before + [Entry(bad.key, x)]
  }

  lemma BadItems(m: Doc, i: nat, bad: Bad, x: string, rest: seq<string>)
    requires BadAt(m, i, bad)
    ensures var r := ParseList(BadChildren(m, i, bad, x) + rest, []);
      r.Some? ==> i < |r.value| && bad.key in r.value[i] && ParseScalar(x) == Some(r.value[i][bad.key])
  {
    BadBlock(m, i, bad, x, rest);
    AllFieldsLength(m.sources[..i]);
    if ParseList(BadChildren(m, i, bad, x) + rest, []).Some? {
      var scalar := ParseScalar(x).value;
      ListExtends(rest, AllFields(m.sources[..i]) + [bad.open[bad.key := scalar]], i, bad.key);
    }
  }

  lemma SourcesKept(children: seq<string>, more: seq<string>, start: Fields)
    requires children != [] && Children(children) && Dashed(TrimStart(children[0]))
    requires "sources" !in start && "schemaVersion" in start
    ensures var r := ParseLines(["sources:"] + (children + more), start);
      r.Some? ==>
        && ParseList(children + Block(more).0, []).Some? && "schemaVersion" in r.value
        && "sources" in r.value && r.value["sources"] == List(ParseList(children + Block(more).0, []).value)
  {
    SourcesValue(children, more, start);
    if ParseLines(["sources:"] + (children + more), start).Some? {
      var items := ParseList(children + Block(more).0, []).value;
      FieldsStay(Block(more).1, start["sources" := List(items)], "sources");
      FieldsStay(Block(more).1, start["sources" := List(items)], "schemaVersion");
    }
  }

  /** If the front matter parses at all, the item of the bad source holds what its line reads as. */
  lemma BadFields(m: Doc, i: nat, bad: Bad, x: string, more: seq<string>)
    requires BadAt(m, i, bad)
    ensures var r := ParseLines(Before(m, i, bad) + ([Entry(bad.key, x)] + more), map[]);
      r.Some? ==>
        && "sources" in r.value && r.value["sources"].List? && "schemaVersion" in r.value
        && var items := r.value["sources"].items;
           i < |items| && bad.key in items[i] && ParseScalar(x) == Some(items[i][bad.key])
  {
    var start := map["schemaVersion" := Plain(Num(1)), "scope" := Object(ScopeFields(m.agentId))];
    ToSourcesLine(m, i, bad, x, more);
    BadBlock(m, i, bad, x, []);
    SourcesKept(BadChildren(m, i, bad, x), more, start);
    BadItems(m, i, bad, x, Block(more).0);
  }

  lemma SourcesValue(children: seq<string>, more: seq<string>, start: Fields)
    requires children != [] && Children(children) && Dashed(TrimStart(children[0])) && "sources" !in start
    ensures ParseLines(["sources:"] + (children + more), start) ==
            match ParseList(children + Block(more).0, [])
            case None => None
            case Some(items) => ParseLines(Block(more).1, start["sources" := List(items)])
  {
    TopWords();
    assert "sources:" == "sources" + ":";
    BlockLine("sources", children + more, start);
    BlockPrefix(children, more);
    assert (children + Block(more).0)[0] == children[0];
  }

  /** The lines before the sources are read as printed. */
  lemma ToSourcesLine(m: Doc, i: nat, bad: Bad, x: string, more: seq<string>)
    requires BadAt(m, i, bad)
    ensures ParseLines(Before(m, i, bad) + ([Entry(bad.key, x)] + more), map[]) ==
            ParseLines(["sources:"] + (BadChildren(m, i, bad, x) + more),
                       map["schemaVersion" := Plain(Num(1)), "scope" := Object(ScopeFields(m.agentId))])
  {
    var inner := SourcesLines(m.sources[..i]) + bad.before;
    var third := ["sources:"] + (inner + [Entry(bad.key, x)] + more);
    BeforeRegroup([Field("schemaVersion", "1")], ["scope:"], ScopeLines(m.agentId), ["sources:"], inner, [Entry(bad.key, x)], more);
    VersionStep(["scope:"] + (ScopeLines(m.agentId) + third));
    SourcesOutside(inner + [Entry(bad.key, x)] + more);
    ScopeStep(m.agentId, third, map["schemaVersion" := Plain(Num(1))]);
  }

  lemma BeforeRegroup<T>(a: seq<T>, b: seq<T>, c: seq<T>, d: seq<T>, e: seq<T>, f: seq<T>, g: seq<T>)
    ensures (a + (b + (c + (d + e)))) + (f + g) == a + (b + (c + (d + (e + f + g))))
  {
    Regroup(a, b + (c + (d + e)), f + g);
    Regroup(b, c + (d + e), f + g);
    Regroup(c, d + e, f + g);
    Regroup(d, e, f + g);
    Regroup(e, f, g);
  }

  // ------------------------------------------------------- the whole document

  lemma InsideRegroup<T>(a: seq<T>, b: seq<T>, c: seq<T>, d: seq<T>, e: seq<T>, f: seq<T>, g: seq<T>, h: seq<T>,
        k: seq<T>, l: seq<T>)
    ensures a + (b + (c + (d + ((e + ((f + (g + h)) + k)) + l)))) == (a + (b + (c + (d + (e + f))))) + (g + (h + k + l))
  {
    Regroup(f, g + h, k);
    Regroup(g, h, k);
    Regroup(e, f, g + (h + k));
    Regroup(e + f, g + (h + k), l);
    Regroup(g, h + k, l);
    Regroup(a, b + (c + (d + (e + f))), g + (h + k + l));
    Regroup(b, c + (d + (e + f)), g + (h + k + l));
    Regroup(c, d + (e + f), g + (h + k + l));
    Regroup(d, e + f, g + (h + k + l));
  }

  function Behind(m: Doc, order: seq<string>, i: nat, bad: Bad): seq<string>
    requires i < |m.sources| && forall o :: o in order ==> o in m.stains
  {
    bad.after + SourcesLines(m.sources[i + 1..]) + AfterSources(m, order)
  }

  lemma InsideAround(m: Doc, order: seq<string>, i: nat, bad: Bad)
    requires BadAt(m, i, bad) && forall o :: o in order ==> o in m.stains
    ensures Inside(m, order) == Before(m, i, bad) + ([Entry(bad.key, bad.value)] + Behind(m, order, i, bad))
  {
    SourcesAround(m.sources, i);
    InsideRegroup([Field("schemaVersion", "1")], ["scope:"], ScopeLines(m.agentId), ["sources:"],
      SourcesLines(m.sources[..i]), bad.before, [Entry(bad.key, bad.value)], bad.after,
      SourcesLines(m.sources[i + 1..]), AfterSources(m, order));
  }

  lemma DocumentAround(front: seq<string>, line: string, behind: seq<string>, content: string)
    ensures Join(["---"] + (front + ([line] + behind)) + ["---"]) + "\n\n" + content + "\n"
         == Join(["---"] + front) + "\n" + (line + "\n" + (Join(behind + ["---"]) + "\n\n" + content + "\n"))
  {
    var head, tail := ["---"] + front, [line] + (behind + ["---"]);
    assert ["---"] + (front + ([line] + behind)) + ["---"] == head + tail;
    JoinConcat(head, tail);
    JoinConcat([line], behind + ["---"]);
    assert Join([line]) == line;
    var end := "\n\n" + content + "\n";
    assert Join(head + tail) + end == Join(head) + "\n" + (line + "\n" + (Join(behind + ["---"]) + end));
    assert Join(behind + ["---"]) + end == Join(behind + ["---"]) + "\n\n" + content + "\n";
    assert Join(head + tail) + end == Join(head + tail) + "\n\n" + content + "\n";
  }

  /** The parser's lines: those before the bad one, what is left of the bad one, and whatever comes next. */
  lemma BadLines(front: seq<string>, key: string, v: string, rest: string) returns (x: string, more: seq<string>)
    requires AllPlainly(front) && Word(key)
    ensures SplitLines(Normalize(Join(["---"] + front) + "\n" + (Entry(key, v) + "\n" + rest)))
         == ["---"] + (front + ([Entry(key, x)] + more))
    ensures (x == v || |x| < |v|) && (x == v ==> SingleLine(v))
  {
    SeenOf(v, rest);
    PlainlyClean(front);
    DashesFirst(front);
    CleanSplit(["---"] + front, Entry(key, v) + "\n" + rest);
    x, more := EntrySplit(key, v, rest);
    Regroup(["---"], front, [Entry(key, x)] + more);
  }

  lemma DashesFirst(front: seq<string>)
    requires CleanLines(front)
    ensures CleanLines(["---"] + front)
  {
    assert Clean("---");
    CleanConcat(["---"], front);
  }

  lemma EntrySplit(key: string, v: string, rest: string) returns (x: string, more: seq<string>)
    requires Word(key)
    ensures SplitLines(Normalize(Entry(key, v) + "\n" + rest)) == [Entry(key, x)] + more
    ensures x == FirstLine(Normalize(v + "\n" + rest))
  {
    var head := "    " + key + ": ";
    var n := Normalize(v + "\n" + rest);
    x, more := FirstLine(n), SplitLines(n)[1..];
    assert Entry(key, v) + "\n" + rest == head + (v + "\n" + rest);
    HeadNormal(key, v + "\n" + rest);
    SplitHead(head, n);
  }

  lemma HeadNormal(key: string, rest: string)
    requires Word(key)
    ensures SingleLine("    " + key + ": ")
    ensures Normalize("    " + key + ": " + rest) == "    " + key + ": " + Normalize(rest)
  {
    WordSingle(key);
    NormalizeHead("    " + key + ": ", rest);
  }

  /** If such a document has a front matter, it starts with the lines before the bad one and what is left of that. */
  lemma FrontStarts(lines: seq<string>, front: seq<string>, line: string, more: seq<string>)
    requires lines == front + ([line] + more) && NoEnd(front) && line != "---"
    ensures FindEnd(lines) == |front| + 1 + FindEnd(more)
    ensures lines[..FindEnd(lines)] == front + ([line] + more[..FindEnd(more)])
  {
    EndAfter(front, [line] + more);
    EndBehind(line, more);
    Prefix(front, [line], more, FindEnd(more));
  }

  lemma EndBehind(line: string, more: seq<string>)
    requires line != "---"
    ensures FindEnd([line] + more) == 1 + FindEnd(more)
  {
    assert ([line] + more)[1..] == more;
  }

  lemma Prefix<T>(a: seq<T>, b: seq<T>, c: seq<T>, n: nat)
    requires n <= |c|
    ensures (a + (b + c))[..|a| + |b| + n] == a + (b + c[..n])
  {
  }

  lemma BadSplit(m: Doc, order: seq<string>, i: nat, bad: Bad) returns (x: string, more: seq<string>)
    requires BadAt(m, i, bad) && forall o :: o in order ==> o in m.stains
    ensures Split(Document(m, order)).Some? ==>
      Split(Document(m, order)).value.0 == Before(m, i, bad) + ([Entry(bad.key, x)] + more)
    ensures (x == bad.value || |x| < |bad.value|) && (x == bad.value ==> SingleLine(bad.value))
  {
    Words();
    var front, behind := Before(m, i, bad), Behind(m, order, i, bad);
    FrontInside(m, order);
    InsideAround(m, order, i, bad);
    DocumentAround(front, Entry(bad.key, bad.value), behind, m.content);
    BeforePlainly(m, i, bad);
    PlainlyClean(front);
    var all;
    x, all := BadLines(front, bad.key, bad.value, Join(behind + ["---"]) + "\n\n" + m.content + "\n");
    var lines := SplitLines(Normalize(Document(m, order)));
    assert Entry(bad.key, x)[0] == ' ';
    assert lines[1..] == front + ([Entry(bad.key, x)] + all);
    FrontStarts(lines[1..], front, Entry(bad.key, x), all);
    more := all[..FindEnd(all)];
  }

  lemma FirstNotPlain(sources: seq<Source>) returns (i: nat)
    requires !PlainSources(sources)
    ensures i < |sources| && PlainSources(sources[..i]) && !PlainSource(sources[i])
  {
    i := 0;
    while PlainSource(sources[i])
      invariant i < |sources| && forall j :: 0 <= j < i ==> PlainSource(sources[j])
      decreases |sources| - i
    {
      if i + 1 == |sources| {
        assert PlainSources(sources);
      }
      i := i + 1;
    }
  }

  /** A source whose parsed item differs from it in one id is not read back as itself. */
  lemma ItemTells(item: map<string, Scalar>, source: Source, bad: Bad, clock: Clock)
    requires BadIn(bad, source) && bad.key in item && ToSource(item, clock) == Some(source)
    ensures item[bad.key] == Text(bad.value)
  {
    assert !source.Manual?;
  }

  /** With an id that is no atom, a printed memory does not read back as itself. */
  lemma UnplainLost(m: Doc, order: seq<string>, clock: Clock, legacy: bool)
    requires Printable(m, order, clock) && !PlainSources(m.sources)
    ensures Parse(Document(m, order), m.agentId, clock) != Some(Parsed(m, legacy))
  {
    var i := FirstNotPlain(m.sources);
    var bad := FindBad(m.sources[i], clock);
    AgentBare(m.agentId);
    var x, more := BadSplit(m, order, i, bad);
    BadFields(m, i, bad, x, more);
    if Parse(Document(m, order), m.agentId, clock) == Some(Parsed(m, legacy)) {
      BadReads(m, i, bad, x, more, Split(Document(m, order)).value.1, clock, legacy);
      BadValue(bad, x);
    }
  }

  lemma ReadSources(fields: Fields, m: Doc, body: string, clock: Clock, legacy: bool)
    requires "schemaVersion" in fields && "sources" in fields && fields["sources"].List?
    requires FromFields(fields, body, m.agentId, clock) == Some(Parsed(m, legacy))
    ensures ToSources(fields["sources"].items, clock) == Some(m.sources)
  {
    assert "schemaVersion" in fields && "schemaVersion" !in LEGACY_KEYS;
  }

  lemma BadReads(m: Doc, i: nat, bad: Bad, x: string, more: seq<string>, body: string, clock: Clock, legacy: bool)
    requires BadAt(m, i, bad)
    requires var r := ParseLines(Before(m, i, bad) + ([Entry(bad.key, x)] + more), map[]);
      r.Some? && FromFields(r.value, body, m.agentId, clock) == Some(Parsed(m, legacy))
    ensures ParseScalar(x) == Some(Text(bad.value))
  {
    BadFields(m, i, bad, x, more);
    var fields := ParseLines(Before(m, i, bad) + ([Entry(bad.key, x)] + more), map[]).value;
    ReadSources(fields, m, body, clock, legacy);
    SourcesReadAt(fields["sources"].items, clock, i);
    ItemTells(fields["sources"].items[i], m.sources[i], bad, clock);
  }

  lemma BadValue(bad: Bad, x: string)
    requires ParseScalar(x) == Some(Text(bad.value))
    requires (x == bad.value || |x| < |bad.value|) && (x == bad.value ==> SingleLine(bad.value))
    ensures Atom(bad.value)
  {
    ScalarShrinks(x);
    AtomExact(x);
  }
}
