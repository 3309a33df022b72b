/** When the printed form of a memory determines it, and with it its version. */
module MemoryCanonical {
  import opened Options
  import opened Texts
  import opened Lines
  import opened MemoryRecords
  import opened MemoryFormat
  import opened MemoryDocument
  import opened MemorySplit
  import opened MemoryRoundTrip
  import opened MemoryFront
  import opened MemoryPrinted
  import opened MemoryUnprintable

  predicate PlainIds(source: Source) {
    match source
    case Message(space, message) => Atom(space) && Atom(message)
    case DeletedMessage(space, message, _) => Atom(space) && Atom(message)
    case Manual(_, _) => true
  }

  /** What the printer relies on: a type that is no number and not `null`, atoms for ids, a body without CRLF. */
  predicate Representable(m: Doc) {
    && PlainType(m.kind)
    && (forall i :: 0 <= i < |m.sources| ==> PlainIds(m.sources[i]))
    && NoCrlf(m.content) && (m.content != "" ==> m.content[|m.content| - 1] != '\r')
  }

  lemma PlainIdsExact(source: Source, clock: Clock)
    requires ValidSource(source, clock)
    ensures PlainIds(source) <==> PlainSource(source)
  {
    match source
    case Message(_, _) =>
    case DeletedMessage(_, _, deletedAt) => IsoBare(deletedAt);
    case Manual(actor, capturedAt) =>
      IsoBare(capturedAt);
      ActorsBare();
  }

  lemma BodyNoCrlf(content: string)
    ensures NoCrlf(content + "\n") <==> NoCrlf(content) && (content != "" ==> content[|content| - 1] != '\r')
  {
    var s := content + "\n";
    if NoCrlf(s) {
      forall i | 0 <= i < |content| - 1 ensures !(content[i] == '\r' && content[i + 1] == '\n') {
        assert s[i] == content[i] && s[i + 1] == content[i + 1];
      }
      if content != "" { assert s[|content| - 1] == content[|content| - 1] && s[|content|] == '\n'; }
    } else {
      var i :| 0 <= i < |s| - 1 && s[i] == '\r' && s[i + 1] == '\n';
      assert s[i] == content[i];
      if i + 1 < |content| { assert s[i + 1] == content[i + 1]; }
    }
  }

  /** A valid memory survives printing and parsing if and only if it is representable. */
  lemma RoundTrip(m: Doc, clock: Clock)
    requires Valid(m, clock) && AgentId(m.agentId)
    ensures Parse(Canonical(m), m.agentId, clock) == Some(Parsed(m, false)) <==> Representable(m)
  {
    var order := Arrange(m.stains.Keys);
    forall i | 0 <= i < |m.sources| ensures PlainIds(m.sources[i]) <==> PlainSource(m.sources[i]) {
      PlainIdsExact(m.sources[i], clock);
    }
    BodyNoCrlf(m.content);
    BodyExact(m.content);
    if PlainSources(m.sources) {
      ParsePrinted(m, order, clock);
      assert m.(content := BodySeen(m.content)) == m <==> BodySeen(m.content) == m.content;
    } else {
      UnplainLost(m, order, clock, false);
    }
  }

  /** Representable memories with the same document are the same, so a hash of the document identifies the memory. */
  lemma DocumentIdentifies(a: Doc, b: Doc, clock: Clock)
    requires Valid(a, clock) && Valid(b, clock) && AgentId(a.agentId) && a.agentId == b.agentId
    requires Representable(a) && Representable(b)
    ensures Canonical(a) == Canonical(b) <==> a == b
  {
    RoundTrip(a, clock);
    RoundTrip(b, clock);
  }

  /** Whatever was parsed, legacy documents included, is valid, and survives being written anew exactly if representable. */
  lemma ReadBack(raw: string, agentId: string, clock: Clock)
    requires AgentId(agentId) && Parse(raw, agentId, clock).Some?
    ensures var p := Parse(raw, agentId, clock).value;
      && Valid(p.memory, clock) && p.memory.agentId == agentId
      && (p.legacy ==> p.memory.sources == [Manual("legacy", p.memory.createdAt)])
      && (Parse(Canonical(p.memory), agentId, clock) == Some(Parsed(p.memory, false)) <==> Representable(p.memory))
  {
    var p := Parse(raw, agentId, clock).value;
    assert Valid(p.memory, clock) && p.memory.agentId == agentId;
    RoundTrip(p.memory, clock);
  }

  /** What is written is read back, and written again as the same text. */
  method Rewrite(m: Doc, clock: Clock) returns (first: string, second: string)
    requires Valid(m, clock) && AgentId(m.agentId) && Representable(m)
    ensures first == Canonical(m) && second == first
  {
    first := SerializeMemoryDocument(m);
    var parsed := ParseMemoryDocument(first, m.agentId, clock);
    RoundTrip(m, clock);
    second := SerializeMemoryDocument(parsed.value.memory);
  }

  lemma ReturnSeen()
    ensures BodySeen("\r") == ""
  {
    assert "\r" + "\n" == "\r\n";
    assert "\r\n"[2..] == "";
    assert Normalize("\r\n") == "\n";
  }

  /** A body that is a lone CR has no CRLF, and is lost all the same: it joins with the final line break. */
  lemma TrailingReturnIsLost(m: Doc, clock: Clock)
    requires Valid(m, clock) && AgentId(m.agentId) && Representable(m) && m.content == ""
    ensures var other := m.(content := "\r");
      Valid(other, clock) && Parse(Canonical(other), m.agentId, clock) == Some(Parsed(m, false))
  {
    var other := m.(content := "\r");
    forall i | 0 <= i < |m.sources| ensures PlainSource(m.sources[i]) { PlainIdsExact(m.sources[i], clock); }
    ParsePrinted(other, Arrange(m.stains.Keys), clock);
    ReturnSeen();
    assert other.(content := "") == m;
  }
}
