/** A Dream operation's record once it has been printed and read back, as a later attempt sees it. */
module MemoryReadBack {
  import opened Options
  import opened Lines
  import opened MemoryRecords
  import opened MemoryDocument
  import opened MemorySplit
  import opened MemoryRoundTrip
  import opened MemoryFront
  import opened MemoryPrinted
  import opened MemoryCanonical
  import opened MemoryDream
  import opened Texts

  /** `toISOString` */
  type Shown = Instant -> string

  function AsDoc(record: Stored, shown: Shown): Doc {
    Memory(record.agentId, record.sources, record.kind, record.description, record.status, record.stains,
           shown(record.createdAt), shown(record.updatedAt), record.content)
  }

  /** The record as its document says, with its times as they were. */
  function Reread(record: Stored, doc: Doc): Stored {
    Memory(doc.agentId, doc.sources, doc.kind, doc.description, doc.status, doc.stains, record.createdAt, record.updatedAt,
           doc.content)
  }

  /** The content survives: no CRLF in it, and no CR at its end. */
  predicate KeepsContent(content: string) {
    NoCrlf(content) && (content != "" ==> content[|content| - 1] != '\r')
  }

  /** A later attempt reads the record from its document, and finds the operation reached. */
  ghost predicate FoundReached(record: Stored, item: Planned, shown: Shown, clock: Clock) {
    var parsed := Parse(Canonical(AsDoc(record, shown)), record.agentId, clock);
    parsed.Some? && Reached(Some(Reread(record, parsed.value.memory)), item)
  }

  /** The operation sets no content, or one that survives. */
  predicate ContentSurvives(change: Change)
    requires change.Update? || change.Archive?
  {
    change.Archive? || change.patch.content == None || KeepsContent(change.patch.content.value)
  }

  /** Printing and reading back changes a record with plain source ids only in its content. */
  lemma Rereads(record: Stored, shown: Shown, clock: Clock)
    requires Valid(AsDoc(record, shown), clock) && AgentId(record.agentId) && PlainSources(record.sources)
    ensures var parsed := Parse(Canonical(AsDoc(record, shown)), record.agentId, clock);
      && (parsed.Some? <==> PlainType(record.kind))
      && (parsed.Some? ==> Reread(record, parsed.value.memory) == record.(content := BodySeen(record.content)))
  {
    var doc := AsDoc(record, shown);
    ParsePrinted(doc, Arrange(doc.stains.Keys), clock);
    assert Reread(record, doc.(content := BodySeen(doc.content))) == record.(content := BodySeen(record.content));
  }

  lemma ReachedButContent(item: Planned, frozen: Records, now: Instant, content: string)
    requires IsPlanned(item, frozen)
    ensures var change := item.operation.change;
      var record := Patched(frozen[KeyOf(item.operation)], change, now);
      Reached(Some(record.(content := content)), item) <==>
        (change.Archive? || change.patch.content == None || content == record.content)
  {
    WrittenIsReached(item, frozen, now);
  }

  /**
   * What an operation has written, with plain source ids, a later attempt finds reached exactly when its type can be
   * read back and its content survives; otherwise the operation looks neither frozen nor reached.
   */
  lemma WrittenReadBack(item: Planned, frozen: Records, now: Instant, shown: Shown, clock: Clock)
    requires IsPlanned(item, frozen)
    requires var doc := AsDoc(Patched(frozen[KeyOf(item.operation)], item.operation.change, now), shown);
      Valid(doc, clock) && AgentId(doc.agentId) && PlainSources(doc.sources)
    ensures var record := Patched(frozen[KeyOf(item.operation)], item.operation.change, now);
      FoundReached(record, item, shown, clock) <==> PlainType(record.kind) && ContentSurvives(item.operation.change)
  {
    var record := Patched(frozen[KeyOf(item.operation)], item.operation.change, now);
    Rereads(record, shown, clock);
    ReachedButContent(item, frozen, now, BodySeen(record.content));
    BodyExact(record.content);
    BodyNoCrlf(record.content);
  }
}
