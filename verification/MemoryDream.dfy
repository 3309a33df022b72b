/**
 * The Dream job: a plan of conditional operations carried through one batch, with a receipt for each
 * operation that has taken effect, so that the job can be run again after a crash.
 */
module MemoryDream {
  import opened Options
  import opened MemoryRecords

  /** An operation of the plan; `merge` when its proposal is a merge. */
  datatype Planned = Planned(proposalId: string, operation: Operation, merge: bool)

  datatype JobStatus = Queued | Running | Applying | Succeeded | Failed | Cancelled

  datatype Receipt = Receipt(proposalId: string, operationId: string, slug: Slug, noop: bool)

  datatype Job = Job(status: JobStatus, receipts: seq<Receipt>)

  // --------------------------------------------------------- what is reached

  predicate Matches<T(==)>(wanted: Option<T>, actual: T) { wanted.Some? ==> wanted.value == actual }

  /** `operationReached`: the record already is as the operation would leave it. */
  predicate Reached(current: Option<Stored>, item: Planned) {
    current.Some? &&
    match item.operation.change
    case Archive(_, _) => current.value.status == Archived
    case Update(_, patch) =>
      && (item.merge ==> current.value.status == Active)
      && (patch.sources.Some? ==> SameSources(current.value.sources, patch.sources.value))
      && Matches(patch.kind, current.value.kind) && Matches(patch.description, current.value.description)
      && Matches(patch.content, current.value.content) && Matches(patch.status, current.value.status)
      && Matches(patch.stains, current.value.stains)
    case _ => false
  }

  function Current(records: Records, item: Planned): Option<Stored> {
    if KeyOf(item.operation) in records then Some(records[KeyOf(item.operation)]) else None
  }

  predicate Reflected(records: Records, item: Planned) { Reached(Current(records, item), item) }

  /**
   * A plan as `planDreamOperations` makes it for frozen memories: each operation updates or archives one of
   * them, on the condition of its frozen version; no slug twice; merge targets are active.
   */
  ghost predicate IsPlan(plan: seq<Planned>, frozen: Records) {
    && (forall i :: 0 <= i < |plan| ==> IsPlanned(plan[i], frozen))
    && (forall i, j :: 0 <= i < j < |plan| ==> KeyOf(plan[i].operation) != KeyOf(plan[j].operation))
    && (forall i, j :: 0 <= i < j < |plan| ==> plan[i].operation.operationId != plan[j].operation.operationId)
  }

  ghost predicate IsPlanned(item: Planned, frozen: Records) {
    var change, key := item.operation.change, KeyOf(item.operation);
    && (change.Update? || change.Archive?) && key in frozen && change.ifMatch == Sha256(frozen[key])
    && change.patch.status.None?
    && (item.merge && change.Update? ==> frozen[key].status == Active)
  }

  /** A record that the plan's own operation left behind. */
  ghost predicate WrittenBy(record: Stored, item: Planned, frozen: Records)
    requires IsPlanned(item, frozen)
  {
    exists now :: record == Patched(frozen[KeyOf(item.operation)], item.operation.change, now)
  }

  /** No outside edits: a planned record is as frozen, or as its operation wrote it once because it was needed. */
  ghost predicate Partway(records: Records, plan: seq<Planned>, frozen: Records)
    requires IsPlan(plan, frozen)
  {
    forall i :: 0 <= i < |plan| ==> Half(records, plan[i], frozen)
  }

  ghost predicate Half(records: Records, item: Planned, frozen: Records)
    requires IsPlanned(item, frozen)
  {
    var key := KeyOf(item.operation);
    && key in records
    && (records[key] == frozen[key]
        || (!Reached(Some(frozen[key]), item) && WrittenBy(records[key], item, frozen)))
  }

  /** Every receipt tells the truth: its operation is reflected in the vault. */
  ghost predicate ReceiptsTrue(receipts: seq<Receipt>, records: Records, plan: seq<Planned>) {
    forall i :: 0 <= i < |plan| && HasReceipt(receipts, plan[i]) ==> Reflected(records, plan[i])
  }

  predicate HasReceipt(receipts: seq<Receipt>, item: Planned) {
    exists r :: r in receipts && r.operationId == item.operation.operationId
  }

  ghost predicate AllReflected(records: Records, plan: seq<Planned>) {
    forall i :: 0 <= i < |plan| ==> Reflected(records, plan[i])
  }

  /** What an operation writes, it reaches. */
  lemma WrittenIsReached(item: Planned, frozen: Records, now: Instant)
    requires IsPlanned(item, frozen)
    ensures Reached(Some(Patched(frozen[KeyOf(item.operation)], item.operation.change, now)), item)
  {
  }

  /** Outside their frozen state, planned records are reflected. */
  lemma HalfReflected(records: Records, item: Planned, frozen: Records)
    requires IsPlanned(item, frozen) && Half(records, item, frozen)
    requires records[KeyOf(item.operation)] != frozen[KeyOf(item.operation)]
    ensures Reflected(records, item)
  {
    var now :| records[KeyOf(item.operation)] == Patched(frozen[KeyOf(item.operation)], item.operation.change, now);
    WrittenIsReached(item, frozen, now);
  }

  /** On a frozen record the operation is not refused, and leaves the record half done in the other way. */
  lemma ApplyHalf(records: Records, item: Planned, frozen: Records, now: Instant)
    requires IsPlanned(item, frozen)
    requires KeyOf(item.operation) in records && records[KeyOf(item.operation)] == frozen[KeyOf(item.operation)]
    requires !Reflected(records, item)
    ensures var r := Effect(records, item.operation, now);
      r.Some? && Half(r.value, item, frozen) && Reflected(r.value, item)
  {
    WrittenIsReached(item, frozen, now);
  }

  // ------------------------------------------------------- end states agree

  ghost predicate SameButTime(a: Stored, b: Stored) {
    a == b.(updatedAt := a.updatedAt)
  }

  /** The state an uninterrupted run leaves: untouched where nothing was needed, otherwise the operation's result. */
  ghost predicate Uninterrupted(records: Records, plan: seq<Planned>, frozen: Records)
    requires IsPlan(plan, frozen)
  {
    forall i :: 0 <= i < |plan| ==>
      var key := KeyOf(plan[i].operation);
      key in records &&
      if Reached(Some(frozen[key]), plan[i]) then records[key] == frozen[key]
      else WrittenBy(records[key], plan[i], frozen)
  }

  /** However the job got there, a vault with every operation reflected is that of an uninterrupted run. */
  lemma ReflectedIsUninterrupted(records: Records, plan: seq<Planned>, frozen: Records)
    requires IsPlan(plan, frozen) && Partway(records, plan, frozen) && AllReflected(records, plan)
    ensures Uninterrupted(records, plan, frozen)
  {
    forall i | 0 <= i < |plan| ensures
      var key := KeyOf(plan[i].operation);
      key in records &&
      if Reached(Some(frozen[key]), plan[i]) then records[key] == frozen[key]
      else WrittenBy(records[key], plan[i], frozen)
    {
      assert Half(records, plan[i], frozen) && Reflected(records, plan[i]);
    }
  }

  /** Two such vaults agree on every planned record, up to the time of the update. */
  lemma UninterruptedAgree(a: Records, b: Records, plan: seq<Planned>, frozen: Records, i: nat)
    requires IsPlan(plan, frozen) && i < |plan|
    requires Uninterrupted(a, plan, frozen) && Uninterrupted(b, plan, frozen)
    ensures SameButTime(a[KeyOf(plan[i].operation)], b[KeyOf(plan[i].operation)])
  {
    var key := KeyOf(plan[i].operation);
    if !Reached(Some(frozen[key]), plan[i]) {
      var s :| a[key] == Patched(frozen[key], plan[i].operation.change, s);
      var t :| b[key] == Patched(frozen[key], plan[i].operation.change, t);
    }
  }
}
