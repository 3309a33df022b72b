/** Parsing what was printed. */
module MemoryRoundTrip {
  import opened Options
  import opened Texts
  import opened MemoryText
  import opened MemoryRecords
  import opened MemoryFormat
  import opened MemoryLines
  import opened MemoryDocument

  lemma Words()
    ensures Word("kind") && Word("spaceId") && Word("messageId") && Word("deletedAt") && Word("actor") && Word("capturedAt")
  {
  }

  lemma TopWords()
    ensures Word("schemaVersion") && Word("scope") && Word("type") && Word("agentId") && Word("sources")
    ensures Word("description") && Word("status") && Word("stains") && Word("createdAt") && Word("updatedAt")
  {
  }

  // ---------------------------------------------------------------- sources

  /** A value printed bare that the parser reads back as itself. */
  predicate Bare(v: string) { v != "" && Atom(v) }

  predicate PlainSource(source: Source) {
    match source
    case Message(space, message) => Bare(space) && Bare(message)
    case DeletedMessage(space, message, deletedAt) => Bare(space) && Bare(message) && Bare(deletedAt)
    case Manual(actor, capturedAt) => Bare(actor) && Bare(capturedAt)
  }

  function SourceFields(source: Source): map<string, Scalar> {
    match source
    case Message(space, message) =>
      map["kind" := Text("message"), "spaceId" := Text(space), "messageId" := Text(message)]
    case DeletedMessage(space, message, deletedAt) =>
      map["kind" := Text("deleted-message"), "spaceId" := Text(space), "messageId" := Text(message), "deletedAt" := Text(deletedAt)]
    case Manual(actor, capturedAt) =>
      map["kind" := Text("manual"), "actor" := Text(actor), "capturedAt" := Text(capturedAt)]
  }

  function AllFields(sources: seq<Source>): seq<map<string, Scalar>> {
    if sources == [] then [] else [SourceFields(sources[0])] + AllFields(sources[1..])
  }

  lemma ItemOpens(kind: string, rest: seq<string>, items: seq<map<string, Scalar>>)
    requires Bare(kind)
    ensures Child("  - " + Field("kind", kind)) && Dashed(TrimStart("  - " + Field("kind", kind)))
    ensures ParseList(["  - " + Field("kind", kind)] + rest, items) == ParseList(rest, items + [map["kind" := Text(kind)]])
  {
    Words();
    var entry := Field("kind", kind);
    assert entry[0] == 'k' && entry[|entry| - 1] == kind[|kind| - 1];
    assert "  - " + entry == "  " + "- " + entry;
    DashParses("  ", entry);
    EntryValue("kind", kind);
    AtomExact(kind);
    var lines := ["  - " + entry] + rest;
    assert lines[0] == "  - " + entry && lines[1..] == rest;
  }

  lemma ItemAdds(key: string, x: string, rest: seq<string>, items: seq<map<string, Scalar>>, open: map<string, Scalar>)
    requires Word(key) && key !in open
    ensures Child(Entry(key, x))
    ensures ParseList([Entry(key, x)] + rest, items + [open]) ==
            match ParseScalar(x)
            case None => None
            case Some(scalar) => ParseList(rest, items + [open[key := scalar]])
  {
    ChildParses("    ", key, x);
    var lines := [Entry(key, x)] + rest;
    assert lines[0] == Entry(key, x) && lines[1..] == rest;
    assert (items + [open])[..|items|] == items;
  }

  lemma PairAdds(items: seq<map<string, Scalar>>, k: string, a: string, v: string, b: string, w: string,
        rest: seq<string>)
    requires Bare(k) && Bare(v) && Bare(w) && Word(a) && Word(b) && a != "kind" && b != "kind" && a != b
    ensures ParseList(["  - " + Field("kind", k), Entry(a, v), Entry(b, w)] + rest, items) ==
            ParseList(rest, items + [map["kind" := Text(k), a := Text(v), b := Text(w)]])
  {
    var l0, l1, l2 := "  - " + Field("kind", k), Entry(a, v), Entry(b, w);
    AtomExact(v);
    AtomExact(w);
    assert [l0, l1, l2] + rest == [l0] + ([l1] + ([l2] + rest));
    ItemOpens(k, [l1] + ([l2] + rest), items);
    ItemAdds(a, v, [l2] + rest, items, map["kind" := Text(k)]);
    ItemAdds(b, w, rest, items, map["kind" := Text(k), a := Text(v)]);
  }

  lemma KindsBare()
    ensures Bare("message") && Bare("deleted-message") && Bare("manual")
  {
    assert "message"[0] == 'm' && "deleted-message"[0] == 'd' && "manual"[0] == 'm';
  }

  /** The lines of one source read back as one list item, whatever follows. */
  lemma SourceParses(source: Source, rest: seq<string>, items: seq<map<string, Scalar>>)
    requires PlainSource(source)
    ensures ParseList(SourceLines(source) + rest, items) == ParseList(rest, items + [SourceFields(source)])
  {
    Words();
    KindsBare();
    match source
    case Message(space, message) =>
      PairAdds(items, "message", "spaceId", space, "messageId", message, rest);
    case Manual(actor, capturedAt) =>
      PairAdds(items, "manual", "actor", actor, "capturedAt", capturedAt, rest);
    case DeletedMessage(space, message, deletedAt) =>
      DeletedParses(space, message, deletedAt, rest, items);
  }

  lemma DeletedParses(space: string, message: string, deletedAt: string, rest: seq<string>,
        items: seq<map<string, Scalar>>)
    requires Bare(space) && Bare(message) && Bare(deletedAt)
    ensures ParseList(SourceLines(DeletedMessage(space, message, deletedAt)) + rest, items) ==
            ParseList(rest, items + [SourceFields(DeletedMessage(space, message, deletedAt))])
  {
    Words();
    KindsBare();
    var last := Entry("deletedAt", deletedAt);
    PairAdds(items, "deleted-message", "spaceId", space, "messageId", message, [last] + rest);
    LastAdds(deletedAt, rest, items, map["kind" := Text("deleted-message"), "spaceId" := Text(space), "messageId" := Text(message)]);
    DeletedLines(space, message, deletedAt, rest);
  }

  lemma LastAdds(at: string, rest: seq<string>, items: seq<map<string, Scalar>>, open: map<string, Scalar>)
    requires Bare(at) && "deletedAt" !in open
    ensures ParseList([Entry("deletedAt", at)] + rest, items + [open]) == ParseList(rest, items + [open["deletedAt" := Text(at)]])
  {
    Words();
    AtomExact(at);
    ItemAdds("deletedAt", at, rest, items, open);
  }

  lemma DeletedLines(space: string, message: string, deletedAt: string, rest: seq<string>)
    ensures SourceLines(DeletedMessage(space, message, deletedAt)) + rest ==
      ["  - " + Field("kind", "deleted-message"), Entry("spaceId", space), Entry("messageId", message)]
      + ([Entry("deletedAt", deletedAt)] + rest)
  {
  }

  lemma EntryChild(key: string, x: string)
    requires Word(key)
    ensures Child(Entry(key, x))
  {
    ItemAdds(key, x, [], [], map[]);
  }

  lemma OpenChild(kind: string)
    requires Bare(kind)
    ensures Child("  - " + Field("kind", kind)) && Dashed(TrimStart("  - " + Field("kind", kind)))
  {
    ItemOpens(kind, [], []);
  }

  lemma SourceChildren(source: Source)
    ensures Children(SourceLines(source)) && Dashed(TrimStart(SourceLines(source)[0]))
  {
    Words();
    KindsBare();
    match source
    case Message(space, message) =>
      OpenChild("message");
      EntryChild("spaceId", space);
      EntryChild("messageId", message);
    case Manual(actor, capturedAt) =>
      OpenChild("manual");
      EntryChild("actor", actor);
      EntryChild("capturedAt", capturedAt);
    case DeletedMessage(space, message, deletedAt) =>
      OpenChild("deleted-message");
      EntryChild("spaceId", space);
      EntryChild("messageId", message);
      EntryChild("deletedAt", deletedAt);
  }

  lemma {:induction false} SourcesChildren(sources: seq<Source>)
    ensures Children(SourcesLines(sources))
    ensures sources != [] ==> SourcesLines(sources) != [] && Dashed(TrimStart(SourcesLines(sources)[0]))
  {
    if sources != [] {
      SourceChildren(sources[0]);
      SourcesChildren(sources[1..]);
    }
  }

  ghost predicate PlainSources(sources: seq<Source>) {
    forall i :: 0 <= i < |sources| ==> PlainSource(sources[i])
  }

  lemma {:induction false} SourcesParse(sources: seq<Source>, rest: seq<string>, items: seq<map<string, Scalar>>)
    requires PlainSources(sources)
    ensures ParseList(SourcesLines(sources) + rest, items) == ParseList(rest, items + AllFields(sources))
  {
    if sources == [] {
      assert SourcesLines(sources) + rest == rest && items + AllFields(sources) == items;
    } else {
      var s, more := sources[0], sources[1..];
      SourceParses(s, SourcesLines(more) + rest, items);
      SourcesParse(more, rest, items + [SourceFields(s)]);
      Regroup(SourceLines(s), SourcesLines(more), rest);
      Regroup(items, [SourceFields(s)], AllFields(more));
    }
  }

  lemma Regroup<T>(a: seq<T>, b: seq<T>, c: seq<T>)
    ensures a + b + c == a + (b + c)
  {
  }

  lemma SourceReads(source: Source, clock: Clock)
    requires ValidSource(source, clock)
    ensures ToSource(SourceFields(source), clock) == Some(source)
  {
    var fields := SourceFields(source);
    match source
    case Message(_, _) => assert fields.Keys == {"kind", "spaceId", "messageId"};
    case DeletedMessage(_, _, _) => assert fields.Keys == {"kind", "spaceId", "messageId", "deletedAt"};
    case Manual(_, _) => assert fields.Keys == {"kind", "actor", "capturedAt"};
  }

  lemma {:induction false} SourcesRead(sources: seq<Source>, clock: Clock)
    requires forall i :: 0 <= i < |sources| ==> ValidSource(sources[i], clock)
    ensures ToSources(AllFields(sources), clock) == Some(sources)
  {
    if sources != [] {
      SourceReads(sources[0], clock);
      SourcesRead(sources[1..], clock);
      assert AllFields(sources)[1..] == AllFields(sources[1..]);
      assert [sources[0]] + sources[1..] == sources;
    }
  }

  // ----------------------------------------------------------------- stains

  function StainFields(order: seq<string>, stains: map<string, string>): map<string, Scalar>
    requires forall o :: o in order ==> o in stains
  {
    map o | o in order :: Text(stains[o])
  }

  lemma StainParses(owner: string, stains: map<string, string>, rest: seq<string>, entries: map<string, Scalar>)
    requires owner in stains && Word(owner) && owner !in entries
    ensures Child(StainLine(owner, stains)) && !Dashed(TrimStart(StainLine(owner, stains)))
    ensures ParseMap([StainLine(owner, stains)] + rest, entries) == ParseMap(rest, entries[owner := Text(stains[owner])])
  {
    var line := StainLine(owner, stains);
    assert line == "  " + owner + ": " + Quoted(stains[owner]);
    ChildParses("  ", owner, Quoted(stains[owner]));
    QuotedReads(stains[owner]);
    var lines := [line] + rest;
    assert lines[0] == line && lines[1..] == rest;
  }

  lemma QuotedReads(s: string)
    ensures ParseScalar(Quoted(s)) == Some(Text(s)) && Trimmed(Quoted(s)) && Quoted(s) != ""
  {
    ParseQuotes(s);
    TrimTrimmed(Quoted(s));
  }

  lemma StainChildren(order: seq<string>, stains: map<string, string>)
    requires forall o :: o in order ==> o in stains && Word(o)
    ensures Children(StainLines(order, stains))
    ensures order != [] ==> !Dashed(TrimStart(StainLines(order, stains)[0]))
  {
    forall i | 0 <= i < |order|
      ensures Child(StainLines(order, stains)[i]) && !Dashed(TrimStart(StainLines(order, stains)[i]))
    {
      assert order[i] in order;
      StainParses(order[i], stains, [], map[]);
    }
  }

  lemma {:induction false} StainsParse(order: seq<string>, stains: map<string, string>, k: nat)
    requires Sorted(order) && k <= |order|
    requires forall o :: o in order ==> o in stains && Word(o)
    ensures ParseMap(StainLines(order, stains)[k..], StainFields(order[..k], stains)) == Some(StainFields(order, stains))
    decreases |order| - k
  {
    if k == |order| {
      assert order[..k] == order;
    } else {
      StainsParse(order, stains, k + 1);
      StainStep(order, stains, k);
    }
  }

  lemma StainStep(order: seq<string>, stains: map<string, string>, k: nat)
    requires Sorted(order) && k < |order|
    requires forall o :: o in order ==> o in stains && Word(o)
    ensures ParseMap(StainLines(order, stains)[k..], StainFields(order[..k], stains))
         == ParseMap(StainLines(order, stains)[k + 1..], StainFields(order[..k + 1], stains))
  {
    var lines := StainLines(order, stains);
    StainNext(order, stains, k);
    assert lines[k..] == [lines[k]] + lines[k + 1..];
    StainParses(order[k], stains, lines[k + 1..], StainFields(order[..k], stains));
  }

  lemma StainNext(order: seq<string>, stains: map<string, string>, k: nat)
    requires Sorted(order) && k < |order| && forall o :: o in order ==> o in stains
    ensures order[k] in order && order[k] !in order[..k]
    ensures StainFields(order[..k], stains)[order[k] := Text(stains[order[k]])] == StainFields(order[..k + 1], stains)
  {
    forall i | 0 <= i < k ensures order[i] != order[k] {
      Trichotomy(order[i], order[k]);
    }
    PrefixGrows(order, k);
  }

  lemma StainsRead(order: seq<string>, stains: map<string, string>)
    requires Enumerates(order, stains.Keys)
    ensures ToStains(StainFields(order, stains)) == Some(stains)
  {
    assert ToStains(StainFields(order, stains)).value == stains;
  }

  lemma OwnerWord(owner: string)
    requires AgentId(owner)
    ensures Word(owner)
  {
    forall i | 0 <= i < |owner| ensures !IsSpace(owner[i]) && owner[i] != ':' {
      if i < 4 { assert owner[..4][i] == "agt_"[i]; }
    }
    assert owner[..4][0] == 'a';
  }
}
