/** A memory as the vault stores it; `Time` is how instants are written down. */
module MemoryRecords {
  import opened Options

  type Agent = string
  type Slug = string

  datatype Source =
    | Message(spaceId: string, messageId: string)
    | DeletedMessage(spaceId: string, messageId: string, deletedAt: string)
    | Manual(actor: string, capturedAt: string)

  datatype Status = Active | Archived

  datatype Memory<Time> = Memory(
    agentId: Agent, sources: seq<Source>, kind: string, description: string, status: Status,
    stains: map<string, string>, createdAt: Time, updatedAt: Time, content: string)

  /** Milliseconds. */
  type Instant = int

  type Stored = Memory<Instant>

  /** A content hash, as a free constructor: two memories have the same version only if they are the same. */
  datatype Version = Sha256(memory: Stored)

  datatype Draft = Draft(kind: string, description: string, content: Option<string>,
                         stains: Option<map<string, string>>, sources: seq<Source>)

  datatype Patch = Patch(kind: Option<string>, description: Option<string>, status: Option<Status>,
                         content: Option<string>, stains: Option<map<string, string>>, sources: Option<seq<Source>>)

  const EMPTY_PATCH := Patch(None, None, None, None, None, None)

  datatype Change = Create(value: Draft) | Update(ifMatch: Version, patch: Patch)
    | Archive(ifMatch: Version, patch: Patch) | Delete(ifMatch: Version)

  datatype Operation = Operation(operationId: string, agentId: Agent, slug: Slug, change: Change)

  type Key = (Agent, Slug)
  type Records = map<Key, Stored>

  function KeyOf(op: Operation): Key { (op.agentId, op.slug) }

  function OrElse<T>(value: Option<T>, other: T): T {
    match value case Some(v) => v case None => other
  }

  /** Strictly after the previous update, and not before now. */
  function NextTimestamp(previous: Instant, now: Instant): (at: Instant)
    ensures at > previous && at >= now
    ensures at == now || at == previous + 1
  {
    if now > previous + 1 then now else previous + 1
  }

  function Created(op: Operation, now: Instant): Stored
    requires op.change.Create?
  {
    var v := op.change.value;
    Memory(op.agentId, v.sources, v.kind, v.description, Active, OrElse(v.stains, map[]), now, now, OrElse(v.content, ""))
  }

  /** An archive is an update whose status is `archived` whatever its patch says. */
  function Patched(current: Stored, change: Change, now: Instant): Stored
    requires change.Update? || change.Archive?
  {
    var p := change.patch;
    current.(
      kind := OrElse(p.kind, current.kind),
      description := OrElse(p.description, current.description),
      status := if change.Archive? then Archived else OrElse(p.status, current.status),
      stains := OrElse(p.stains, current.stains),
      sources := OrElse(p.sources, current.sources),
      content := OrElse(p.content, current.content),
      updatedAt := NextTimestamp(current.updatedAt, now))
  }

  /** What one operation makes of the records, or `None` when it is refused: slug taken, missing, or changed. */
  function Effect(records: Records, op: Operation, now: Instant): Option<Records> {
    var key := KeyOf(op);
    match op.change
    case Create(_) => if key in records then None else Some(records[key := Created(op, now)])
    case Delete(ifMatch) =>
      if key !in records || Sha256(records[key]) != ifMatch then None else Some(records - {key})
    case _ =>
      if key !in records || Sha256(records[key]) != op.change.ifMatch then None
      else Some(records[key := Patched(records[key], op.change, now)])
  }

  // -------------------------------------------------- what operations come to

  /** A field: as it was asked for, or as it was. */
  predicate Asked<T(==)>(asked: Option<T>, before: T, after: T) {
    match asked
    case Some(value) => after == value
    case None => after == before
  }

  /** Another record of the same memory: what the change names is so, and what it does not name is as it was. */
  ghost predicate Revised(before: Stored, after: Stored, change: Change, now: Instant)
    requires change.Update? || change.Archive?
  {
    && after.agentId == before.agentId && after.createdAt == before.createdAt
    && Asked(change.patch.kind, before.kind, after.kind)
    && Asked(change.patch.description, before.description, after.description)
    && Asked(change.patch.content, before.content, after.content)
    && Asked(change.patch.stains, before.stains, after.stains)
    && Asked(change.patch.sources, before.sources, after.sources)
    && (if change.Archive? then after.status == Archived else Asked(change.patch.status, before.status, after.status))
    && after.updatedAt >= now && after.updatedAt > before.updatedAt
    && (after.updatedAt == now || after.updatedAt == before.updatedAt + 1)
  }

  /** A new record: the draft's, active, created and updated now; without contents or stains it has none. */
  ghost predicate Drafted(after: Stored, agent: Agent, draft: Draft, now: Instant) {
    && after.agentId == agent && after.status == Active && after.createdAt == now && after.updatedAt == now
    && after.kind == draft.kind && after.description == draft.description && after.sources == draft.sources
    && Asked(draft.content, "", after.content) && Asked(draft.stains, map[], after.stains)
  }

  /** What the operation demands: a free slug, or a record at the version it names. */
  ghost predicate Accepts(records: Records, op: Operation) {
    if op.change.Create? then KeyOf(op) !in records
    else KeyOf(op) in records && op.change.ifMatch == Sha256(records[KeyOf(op)])
  }

  /** The records after an operation: its own created, revised or gone, all others as before. */
  ghost predicate Outcome(before: Records, op: Operation, now: Instant, after: Records) {
    var key := KeyOf(op);
    && Accepts(before, op)
    && after.Keys == (if op.change.Delete? then before.Keys - {key} else before.Keys + {key})
    && (forall k :: k in before && k != key ==> after[k] == before[k])
    && match op.change
       case Create(draft) => Drafted(after[key], op.agentId, draft, now)
       case Delete(_) => true
       case _ => Revised(before[key], after[key], op.change, now)
  }

  lemma OutcomeUnique(before: Records, op: Operation, now: Instant, a: Records, b: Records)
    requires Outcome(before, op, now, a) && Outcome(before, op, now, b)
    ensures a == b
  {
    var key := KeyOf(op);
    if !op.change.Delete? { assert a[key] == b[key]; }
    forall k | k in a ensures k in b && a[k] == b[k] {
      if k != key { assert k in before; }
    }
  }

  /** That is what an operation comes to, neither more nor less; it is refused when its demand is not met. */
  lemma EffectIsOutcome(records: Records, op: Operation, now: Instant, after: Records)
    ensures Effect(records, op, now) == Some(after) <==> Outcome(records, op, now, after)
    ensures Effect(records, op, now) == None <==> !Accepts(records, op)
  {
    if Accepts(records, op) {
      var effect := Effect(records, op, now).value;
      assert Outcome(records, op, now, effect);
      if Outcome(records, op, now, after) { OutcomeUnique(records, op, now, after, effect); }
    }
  }

  /** Asking for what is there already changes only the time of the update. */
  lemma OwnFields(records: Records, op: Operation, now: Instant, m: Stored, after: Records)
    requires op.change.Update? && Accepts(records, op) && m == records[KeyOf(op)]
    requires op.change.patch == Patch(Some(m.kind), Some(m.description), Some(m.status), Some(m.content), Some(m.stains),
                                      Some(m.sources))
    ensures Effect(records, op, now) == Some(after) <==> after == records[KeyOf(op) := m.(updatedAt := NextTimestamp(m.updatedAt, now))]
  {
    EffectIsOutcome(records, op, now, records[KeyOf(op) := m.(updatedAt := NextTimestamp(m.updatedAt, now))]);
  }

  /** An operation that takes effect changes its own record, and only that. */
  lemma EffectIsLocal(records: Records, op: Operation, now: Instant)
    requires Effect(records, op, now).Some?
    ensures var r := Effect(records, op, now).value;
      && (forall k :: k != KeyOf(op) ==> (k in r <==> k in records) && (k in r ==> r[k] == records[k]))
      && ((KeyOf(op) in r) != (KeyOf(op) in records) || (KeyOf(op) in r && r[KeyOf(op)] != records[KeyOf(op)]))
  {
    var r, key := Effect(records, op, now).value, KeyOf(op);
    if op.change.Update? || op.change.Archive? {
      assert r[key].updatedAt > records[key].updatedAt;
    }
  }

  /** An operation conditioned on a version never applies twice: having gone through, it is refused. */
  lemma AppliesOnce(records: Records, op: Operation, again: Operation, now: Instant, later: Instant)
    requires Effect(records, op, now).Some? && !op.change.Create? && !again.change.Create?
    requires KeyOf(again) == KeyOf(op) && again.change.ifMatch == op.change.ifMatch
    ensures Effect(Effect(records, op, now).value, again, later).None?
  {
    EffectIsLocal(records, op, now);
  }

  // ------------------------------------------------------ source references

  /** `sourceRefKey`: what identifies a source when sources are merged or compared. */
  function SourceKey(source: Source): string {
    match source
    case Message(space, message) => "message:" + space + ":" + message
    case DeletedMessage(space, message, _) => "deleted-message:" + space + ":" + message
    case Manual(actor, capturedAt) => "manual:" + actor + ":" + capturedAt
  }

  function SourceKeys(sources: seq<Source>): seq<string> {
    seq(|sources|, i requires 0 <= i < |sources| => SourceKey(sources[i]))
  }

  /** `sameSources`: the same keys, in any order. */
  predicate SameSources(a: seq<Source>, b: seq<Source>) {
    multiset(SourceKeys(a)) == multiset(SourceKeys(b))
  }
}
