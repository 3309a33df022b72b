/** The Dream job as it runs: every I/O call may go through, throw, or be cut short by a crash. */
module MemoryDreamJob {
  import opened MemoryRecords
  import opened MemoryBatch
  import opened MemoryDream

  /** How a step of an attempt ends: `Refused` is the conflict with a memory changed from outside. */
  datatype Step = Went | Threw | Refused | Crashed

  /** The plan's indices, each at most once. */
  ghost predicate Picks(pending: seq<nat>, plan: seq<Planned>) {
    && (forall k :: 0 <= k < |pending| ==> pending[k] < |plan|)
    && (forall k, l :: 0 <= k < l < |pending| ==> pending[k] != pending[l])
  }

  /** Receipts beyond the `known` ones are true. */
  ghost predicate Backed(receipts: seq<Receipt>, known: set<nat>, records: Records, plan: seq<Planned>) {
    forall i :: 0 <= i < |plan| && HasReceipt(receipts, plan[i]) ==> i in known || Reflected(records, plan[i])
  }

  /** Records outside the picked items are the same. */
  ghost predicate OnlyPicked(before: Records, after: Records, pending: seq<nat>, plan: seq<Planned>)
    requires Picks(pending, plan)
  {
    forall key :: (forall k :: 0 <= k < |pending| ==> KeyOf(plan[pending[k]].operation) != key) ==>
      At(after, key) == At(before, key)
  }

  /** The picked items are still as frozen, and not reached. */
  ghost predicate Untouched(records: Records, pending: seq<nat>, plan: seq<Planned>, frozen: Records)
    requires Picks(pending, plan)
  {
    forall k :: 0 <= k < |pending| ==>
      var key := KeyOf(plan[pending[k]].operation);
      At(records, key) == At(frozen, key) && !Reflected(records, plan[pending[k]])
  }

  function ReceiptFor(item: Planned, noop: bool): Receipt {
    Receipt(item.proposalId, item.operation.operationId, item.operation.slug, noop)
  }

  lemma ReceiptAdded(receipts: seq<Receipt>, item: Planned, noop: bool, other: Planned)
    ensures HasReceipt(receipts + [ReceiptFor(item, noop)], other)
      <==> HasReceipt(receipts, other) || other.operation.operationId == item.operation.operationId
  {
    var more := receipts + [ReceiptFor(item, noop)];
    if HasReceipt(receipts, other) {
      var r :| r in receipts && r.operationId == other.operation.operationId;
      assert r in more;
    }
    if other.operation.operationId == item.operation.operationId {
      assert ReceiptFor(item, noop) in more;
    }
  }

  /** Adding the receipt of a reflected item keeps the receipts backed. */
  lemma BackedAdd(receipts: seq<Receipt>, known: set<nat>, records: Records, plan: seq<Planned>, frozen: Records,
        i: nat, noop: bool)
    requires IsPlan(plan, frozen) && i < |plan| && Reflected(records, plan[i])
    requires Backed(receipts, known, records, plan)
    ensures Backed(receipts + [ReceiptFor(plan[i], noop)], known, records, plan)
  {
    forall j | 0 <= j < |plan| && HasReceipt(receipts + [ReceiptFor(plan[i], noop)], plan[j])
      ensures j in known || Reflected(records, plan[j])
    {
      ReceiptAdded(receipts, plan[i], noop, plan[j]);
    }
  }

  /** `onRolledBack`: receipts of the rolled back operations are taken out again. */
  function Withdraw(receipts: seq<Receipt>, items: seq<Planned>): (left: seq<Receipt>)
    ensures forall other :: HasReceipt(left, other) <==>
      HasReceipt(receipts, other) && forall k :: 0 <= k < |items| ==>
        items[k].operation.operationId != other.operation.operationId
  {
    if receipts == [] then []
    else
      var last := receipts[|receipts| - 1];
      var left := Withdraw(receipts[..|receipts| - 1], items);
      if exists k :: 0 <= k < |items| && items[k].operation.operationId == last.operationId then left else left + [last]
  }

  function Chosen(pending: seq<nat>, plan: seq<Planned>): seq<Planned>
    requires forall k :: 0 <= k < |pending| ==> pending[k] < |plan|
  {
    seq(|pending|, k requires 0 <= k < |pending| => plan[pending[k]])
  }

  /** The withdrawn receipts were the only ones allowed to be untrue, so what is left is backed. */
  lemma BackedWithdraw(receipts: seq<Receipt>, known: set<nat>, loose: seq<nat>, records: Records, plan: seq<Planned>)
    requires forall k :: 0 <= k < |loose| ==> loose[k] < |plan|
    requires Backed(receipts, known + Indices(loose), records, plan)
    ensures Backed(Withdraw(receipts, Chosen(loose, plan)), known, records, plan)
  {
    var items := Chosen(loose, plan);
    forall i | 0 <= i < |plan| && HasReceipt(Withdraw(receipts, items), plan[i])
      ensures i in known || Reflected(records, plan[i])
    {
      forall k | 0 <= k < |loose| ensures loose[k] != i {
        assert items[k].operation.operationId != plan[i].operation.operationId;
      }
      assert i !in Indices(loose);
    }
  }

  function Indices(pending: seq<nat>): set<nat> { set k | 0 <= k < |pending| :: pending[k] }

  ghost function Below(n: nat): (r: set<nat>)
    ensures forall i: nat :: i in r <==> i < n
  {
    if n == 0 then {} else Below(n - 1) + {n - 1}
  }

  /** Writing one picked item leaves the vault partway, and only that item changed. */
  lemma ApplyPlanned(records: Records, plan: seq<Planned>, frozen: Records, i: nat, now: Instant)
    requires IsPlan(plan, frozen) && Partway(records, plan, frozen) && i < |plan|
    requires At(records, KeyOf(plan[i].operation)) == At(frozen, KeyOf(plan[i].operation)) && !Reflected(records, plan[i])
    ensures var r := Effect(records, plan[i].operation, now);
      r.Some? && Partway(r.value, plan, frozen) && Reflected(r.value, plan[i])
      && forall key :: key != KeyOf(plan[i].operation) ==> At(r.value, key) == At(records, key)
  {
    assert IsPlanned(plan[i], frozen) && Half(records, plan[i], frozen);
    ApplyHalf(records, plan[i], frozen, now);
    var r := Effect(records, plan[i].operation, now).value;
    forall j | 0 <= j < |plan| ensures Half(r, plan[j], frozen) {
      assert Half(records, plan[j], frozen);
    }
  }

  /** Undoing one planned item gives it its frozen record back; every other record stays. */
  lemma UndoPlanned(records: Records, plan: seq<Planned>, frozen: Records, i: nat)
    requires IsPlan(plan, frozen) && Partway(records, plan, frozen) && i < |plan|
    ensures var r := UndoOne(records, Applied(plan[i].operation, Current(frozen, plan[i]), 0));
      Partway(r, plan, frozen) && FrozenAt(r, plan[i], frozen)
      && forall key :: key != KeyOf(plan[i].operation) ==> At(r, key) == At(records, key)
  {
    assert IsPlanned(plan[i], frozen);
    var r := UndoOne(records, Applied(plan[i].operation, Current(frozen, plan[i]), 0));
    forall j | 0 <= j < |plan| ensures Half(r, plan[j], frozen) {
      assert Half(records, plan[j], frozen);
    }
  }

  /** A change to one item's record leaves the other receipts as true as they were. */
  lemma BackedElsewhere(receipts: seq<Receipt>, known: set<nat>, before: Records, after: Records, plan: seq<Planned>,
        frozen: Records, i: nat)
    requires IsPlan(plan, frozen) && i < |plan|
    requires Backed(receipts, known, before, plan)
    requires forall key :: key != KeyOf(plan[i].operation) ==> At(after, key) == At(before, key)
    requires i in known || Reflected(after, plan[i])
    ensures Backed(receipts, known, after, plan)
  {
    forall j | 0 <= j < |plan| && HasReceipt(receipts, plan[j]) ensures j in known || Reflected(after, plan[j]) {
      if j != i {
        assert At(after, KeyOf(plan[j].operation)) == At(before, KeyOf(plan[j].operation));
      }
    }
  }

  ghost predicate Done(records: Records, pending: seq<nat>, plan: seq<Planned>)
    requires forall k :: 0 <= k < |pending| ==> pending[k] < |plan|
  {
    forall k :: 0 <= k < |pending| ==> Reflected(records, plan[pending[k]])
  }

  /** The picked items have their frozen records. */
  ghost predicate AsFrozen(records: Records, picks: seq<nat>, plan: seq<Planned>, frozen: Records)
    requires forall k :: 0 <= k < |picks| ==> picks[k] < |plan|
  {
    forall k :: 0 <= k < |picks| ==> FrozenAt(records, plan[picks[k]], frozen)
  }

  ghost predicate FrozenAt(records: Records, item: Planned, frozen: Records) {
    At(records, KeyOf(item.operation)) == At(frozen, KeyOf(item.operation))
  }

  /** All picked items have their frozen records, but for at most one that a late failure wrote. */
  ghost predicate AllButOne(records: Records, pending: seq<nat>, plan: seq<Planned>, frozen: Records)
    requires forall k :: 0 <= k < |pending| ==> pending[k] < |plan|
  {
    exists j :: AllBut(records, pending, plan, frozen, j)
  }

  ghost predicate AllBut(records: Records, pending: seq<nat>, plan: seq<Planned>, frozen: Records, j: nat)
    requires forall k :: 0 <= k < |pending| ==> pending[k] < |plan|
  {
    forall k :: 0 <= k < |pending| && k != j ==> FrozenAt(records, plan[pending[k]], frozen)
  }

  /** The picks after the one that may have failed late. */
  function Beyond(pending: seq<nat>, n: nat): seq<nat> { if n < |pending| then pending[n + 1..] else [] }

  /** Putting one more item back keeps those put back before. */
  lemma OneBack(before: Records, after: Records, applied: seq<nat>, n: nat, plan: seq<Planned>, frozen: Records)
    requires IsPlan(plan, frozen) && Picks(applied, plan) && n < |applied|
    requires AsFrozen(before, applied[n + 1..], plan, frozen) && FrozenAt(after, plan[applied[n]], frozen)
    requires forall key :: key != KeyOf(plan[applied[n]].operation) ==> At(after, key) == At(before, key)
    ensures AsFrozen(after, applied[n..], plan, frozen)
  {
    forall k | 0 <= k < |applied| - n ensures FrozenAt(after, plan[applied[n..][k]], frozen) {
      assert applied[n..][k] == applied[n + k];
      if k > 0 {
        assert applied[n + 1..][k - 1] == applied[n + k];
        assert FrozenAt(before, plan[applied[n + 1..][k - 1]], frozen);
      }
    }
  }

  /** Undone up to `n` and untouched beyond it: all but the `n`-th are as frozen. */
  lemma BackAndBeyond(between: Records, after: Records, pending: seq<nat>, n: nat, plan: seq<Planned>, frozen: Records)
    requires IsPlan(plan, frozen) && Picks(pending, plan) && n <= |pending| && Picks(pending[..n], plan)
    requires AsFrozen(after, pending[..n], plan, frozen) && Picks(Beyond(pending, n), plan)
    requires AsFrozen(between, Beyond(pending, n), plan, frozen) && OnlyPicked(between, after, pending[..n], plan)
    ensures AllBut(after, pending, plan, frozen, n)
  {
    forall k | 0 <= k < |pending| && k != n ensures FrozenAt(after, plan[pending[k]], frozen) {
      if k < n {
        assert pending[..n][k] == pending[k];
      } else {
        assert Beyond(pending, n)[k - n - 1] == pending[k];
        assert FrozenAt(between, plan[Beyond(pending, n)[k - n - 1]], frozen);
        forall l | 0 <= l < n ensures KeyOf(plan[pending[..n][l]].operation) != KeyOf(plan[pending[k]].operation) {
          assert pending[..n][l] == pending[l];
        }
      }
    }
  }

  lemma UntouchedIsFrozen(records: Records, picks: seq<nat>, plan: seq<Planned>, frozen: Records)
    requires Picks(picks, plan) && Untouched(records, picks, plan, frozen)
    ensures AsFrozen(records, picks, plan, frozen)
  {
  }

  lemma BeyondShrinks(records: Records, pending: seq<nat>, n: nat, plan: seq<Planned>, frozen: Records)
    requires Picks(pending, plan) && n < |pending| && AsFrozen(records, pending[n + 1..], plan, frozen)
    ensures Picks(Beyond(pending, n + 1), plan) && AsFrozen(records, Beyond(pending, n + 1), plan, frozen)
  {
    if n + 1 < |pending| {
      var rest := pending[n + 2..];
      forall k | 0 <= k < |rest| ensures FrozenAt(records, plan[rest[k]], frozen) {
        assert rest[k] == pending[n + 1..][k + 1];
      }
    }
  }

  lemma UntouchedBeyond(records: Records, pending: seq<nat>, plan: seq<Planned>, frozen: Records)
    requires Picks(pending, plan) && Untouched(records, pending, plan, frozen) && Picks(Beyond(pending, 0), plan)
    ensures AsFrozen(records, Beyond(pending, 0), plan, frozen)
  {
    var rest := Beyond(pending, 0);
    forall k | 0 <= k < |rest| ensures FrozenAt(records, plan[rest[k]], frozen) {
      assert rest[k] == pending[k + 1];
    }
  }

  lemma BeyondPicks(pending: seq<nat>, n: nat, plan: seq<Planned>)
    requires Picks(pending, plan)
    ensures Picks(Beyond(pending, n), plan)
  {
  }

  /** A change to the next picked item disturbs neither those done nor those to come. */
  lemma OneMore(first: Records, before: Records, after: Records, pending: seq<nat>, n: nat, plan: seq<Planned>,
        frozen: Records)
    requires IsPlan(plan, frozen) && Picks(pending, plan) && n < |pending|
    requires Done(before, pending[..n], plan) && Untouched(before, pending[n..], plan, frozen)
    requires OnlyPicked(first, before, pending, plan)
    requires forall key :: key != KeyOf(plan[pending[n]].operation) ==> At(after, key) == At(before, key)
    ensures Done(after, pending[..n], plan) && Untouched(after, pending[n + 1..], plan, frozen)
    ensures OnlyPicked(first, after, pending, plan)
    ensures Reflected(after, plan[pending[n]]) ==> Done(after, pending[..n + 1], plan)
  {
    forall k | 0 <= k < n ensures Reflected(after, plan[pending[k]]) {
      assert pending[..n][k] == pending[k];
      assert At(after, KeyOf(plan[pending[k]].operation)) == At(before, KeyOf(plan[pending[k]].operation));
    }
    var rest := pending[n + 1..];
    forall k | 0 <= k < |rest|
      ensures At(after, KeyOf(plan[rest[k]].operation)) == At(frozen, KeyOf(plan[rest[k]].operation))
      ensures !Reflected(after, plan[rest[k]])
    {
      assert pending[n..][k + 1] == rest[k] == pending[n + 1 + k];
      assert At(after, KeyOf(plan[rest[k]].operation)) == At(before, KeyOf(plan[rest[k]].operation));
    }
  }

  /** None of the picked items has a receipt. */
  ghost predicate Unreceipted(receipts: seq<Receipt>, pending: seq<nat>, plan: seq<Planned>)
    requires forall k :: 0 <= k < |pending| ==> pending[k] < |plan|
  {
    forall k :: 0 <= k < |pending| ==> !HasReceipt(receipts, plan[pending[k]])
  }

  /** The first `n` items each have a receipt, are done, or are picked. */
  ghost predicate Accounted(receipts: seq<Receipt>, records: Records, pending: seq<nat>, plan: seq<Planned>, n: nat)
    requires n <= |plan|
  {
    forall i :: 0 <= i < n ==> HasReceipt(receipts, plan[i]) || Reflected(records, plan[i]) || i in pending
  }

  /** A needed item joins the picked ones. */
  lemma PickOne(receipts: seq<Receipt>, records: Records, pending: seq<nat>, plan: seq<Planned>, frozen: Records,
        n: nat)
    requires Picks(pending, plan) && Untouched(records, pending, plan, frozen) && n < |plan|
    requires Unreceipted(receipts, pending, plan) && !HasReceipt(receipts, plan[n])
    requires forall k :: 0 <= k < |pending| ==> pending[k] < n
    requires Untouched(records, [n], plan, frozen)
    ensures var more := pending + [n];
      && Picks(more, plan) && Untouched(records, more, plan, frozen) && Unreceipted(receipts, more, plan)
      && forall i :: i in more <==> i in pending || i == n
  {
    assert Untouched(records, [n], plan, frozen) ==> plan[[n][0]] == plan[n];
  }

  /** How many calls threw, and how many were cut short by a crash. */
  datatype Faults = Faults(threw: nat, crashed: nat) {
    function Total(): nat { threw + crashed }

    ghost predicate Within(later: Faults) { threw <= later.threw && crashed <= later.crashed }
  }

  /** A step goes through exactly when none of its calls failed, and crashes exactly when one of them did. */
  ghost predicate Counted(step: Step, before: Faults, after: Faults) {
    && step != Refused && before.Within(after)
    && (step == Went <==> before == after) && (step == Crashed <==> before.crashed != after.crashed)
  }

  /** The memory is no longer what the operation was planned on, and not what it would leave either. */
  ghost predicate Changed(records: Records, item: Planned)
    requires item.operation.change.Update? || item.operation.change.Archive?
  {
    var current, change := Current(records, item), item.operation.change;
    && !Reflected(records, item)
    && (current.Some? && Sha256(current.value) == change.ifMatch ==>
          item.merge && change.Update? && current.value.status != Active)
  }

  /** Without outside edits nothing is changed from outside, and what is not reflected is as frozen. */
  lemma Unchanged(records: Records, plan: seq<Planned>, frozen: Records, i: nat)
    requires IsPlan(plan, frozen) && Partway(records, plan, frozen) && i < |plan|
    ensures !Changed(records, plan[i])
    ensures Reflected(records, plan[i]) || Untouched(records, [i], plan, frozen)
  {
    assert IsPlanned(plan[i], frozen) && Half(records, plan[i], frozen);
    if !Reflected(records, plan[i]) && records[KeyOf(plan[i].operation)] != frozen[KeyOf(plan[i].operation)] {
      HalfReflected(records, plan[i], frozen);
    }
  }

  class DreamJob {
    const plan: seq<Planned>
    const frozen: Records
    var records: Records
    var marker: bool
    var job: Job    // as the store holds it in memory
    var disk: Job   // as a restart would find it
    ghost var faults: Faults

    ghost predicate Valid()
      reads this
    {
      IsPlan(plan, frozen) && Partway(records, plan, frozen)
    }

    ghost predicate Sound()
      reads this
    {
      ReceiptsTrue(job.receipts, records, plan) && ReceiptsTrue(disk.receipts, records, plan)
    }

    ghost predicate AllBacked(known: set<nat>)
      reads this
    {
      Backed(job.receipts, known, records, plan) && Backed(disk.receipts, known, records, plan)
    }

    /** `store.update`: in memory at once, on disk whenever the debounce gets to it. */
    method Store(next: Job)
      modifies this`job, this`disk
      ensures job == next && (disk == old(disk) || disk == next)
    {
      job := next;
      var written := *;
      if written { disk := job; }
    }

    method Flush() returns (step: Step)
      modifies this`disk, this`faults
      ensures step == Went ==> disk == job
      ensures disk == old(disk) || disk == job
      ensures Counted(step, old(faults), faults)
    {
      var written, how := *, *;
      if written { disk := job; }
      step := if how == 0 && written then Went else if how == 1 then Threw else Crashed;
      Count(step);
    }

    ghost method Count(step: Step)
      requires step != Refused
      modifies this`faults
      ensures Counted(step, old(faults), faults)
    {
      if step == Threw { faults := faults.(threw := faults.threw + 1); }
      if step == Crashed { faults := faults.(crashed := faults.crashed + 1); }
    }

    method Io() returns (step: Step)
      modifies this`faults
      ensures Counted(step, old(faults), faults)
    {
      var how := *;
      step := if how == 0 then Went else if how == 1 then Threw else Crashed;
      Count(step);
    }

    /** One item of the plan without a receipt: done already and receipted, needed, or changed from outside. */
    method Settle(i: nat, ghost known: set<nat>) returns (step: Step, needed: bool)
      requires IsPlan(plan, frozen) && AllBacked(known) && i < |plan|
      modifies this`job, this`disk, this`faults
      ensures AllBacked(known)
      ensures job.status == old(job.status) && (disk.status == old(disk.status) || disk.status == job.status)
      ensures step == Went && !needed ==>
        Reflected(records, plan[i])
        && disk == job == old(job).(receipts := old(job.receipts) + [ReceiptFor(plan[i], true)])
      ensures step == Went && needed ==>
        !Reflected(records, plan[i]) && !Changed(records, plan[i]) && job == old(job) && disk == old(disk)
      ensures step == Refused ==> Changed(records, plan[i]) && job == old(job) && disk == old(disk)
      ensures Counted(if step == Refused then Went else step, old(faults), faults)
    {
      var item := plan[i];
      needed := false;
      step := Io();
      if step != Went { return; }
      var current := Current(records, item);
      if Reached(current, item) {
        BackedAdd(job.receipts, known, records, plan, frozen, i, true);
        Store(job.(receipts := job.receipts + [ReceiptFor(item, true)]));
        step := Flush();
        return;
      }
      if item.merge && item.operation.change.Update? && (current.None? || current.value.status != Active) {
        return Refused, false;
      }
      if current.None? || Sha256(current.value) != item.operation.change.ifMatch { return Refused, false; }
      needed := true;
    }

    /** The planning loop: what has a receipt or is done is skipped, what is as frozen is picked. */
    method Plan(ghost known: set<nat>) returns (step: Step, pending: seq<nat>)
      requires Valid() && AllBacked(known)
      modifies this`job, this`disk, this`faults
      ensures Counted(step, old(faults), faults)
      ensures job.status == old(job.status) && (disk.status == old(disk.status) || disk.status == job.status)
      ensures AllBacked(known)
      ensures Picks(pending, plan) && Untouched(records, pending, plan, frozen)
      ensures Unreceipted(old(job.receipts), pending, plan)
      ensures step == Went ==> Accounted(old(job.receipts), records, pending, plan, |plan|)
    {
      var complete := job.receipts;
      pending := [];
      for n := 0 to |plan|
        invariant faults == old(faults)
        invariant job.status == old(job.status) && (disk.status == old(disk.status) || disk.status == job.status)
        invariant AllBacked(known)
        invariant Picks(pending, plan) && Untouched(records, pending, plan, frozen)
        invariant Unreceipted(complete, pending, plan) && forall k :: 0 <= k < |pending| ==> pending[k] < n
        invariant Accounted(complete, records, pending, plan, n)
      {
        if !HasReceipt(complete, plan[n]) {
          var needed;
          step, needed := Settle(n, known);
          Unchanged(records, plan, frozen, n);
          if step != Went { return; }
          if needed {
            PickOne(complete, records, pending, plan, frozen, n);
            pending := pending + [n];
          }
        }
      }
      step := Went;
    }

    /** One operation of the batch; on failure its write may have gone through all the same. */
    method ApplyOne(i: nat, ghost known: set<nat>) returns (step: Step)
      requires Valid() && AllBacked(known) && i < |plan|
      requires At(records, KeyOf(plan[i].operation)) == At(frozen, KeyOf(plan[i].operation)) && !Reflected(records, plan[i])
      modifies this`records, this`faults
      ensures Counted(step, old(faults), faults)
      ensures Valid() && AllBacked(known)
      ensures step == Went ==> Reflected(records, plan[i])
      ensures forall key :: key != KeyOf(plan[i].operation) ==> At(records, key) == At(old(records), key)
    {
      step := Io();
      var written := *;
      if step == Went || written {
        var now: Instant := *;
        ApplyPlanned(records, plan, frozen, i, now);
        ghost var before := records;
        records := Effect(records, plan[i].operation, now).value;
        BackedElsewhere(job.receipts, known, before, records, plan, frozen, i);
        BackedElsewhere(disk.receipts, known, before, records, plan, frozen, i);
      }
    }

    /** One turn of the apply loop, with its `onApplied`: the receipt goes to the store after the write. */
    method ApplyNext(i: nat, ghost known: set<nat>) returns (step: Step, through: bool)
      requires Valid() && AllBacked(known) && i < |plan|
      requires At(records, KeyOf(plan[i].operation)) == At(frozen, KeyOf(plan[i].operation)) && !Reflected(records, plan[i])
      modifies this`records, this`job, this`disk, this`faults
      ensures Valid() && AllBacked(known)
      ensures job.status == old(job.status) && (disk.status == old(disk.status) || disk.status == job.status)
      ensures forall key :: key != KeyOf(plan[i].operation) ==> At(records, key) == At(old(records), key)
      ensures (step == Went ==> through) && (through ==> Reflected(records, plan[i]))
      ensures job.receipts == old(job.receipts) + if through then [ReceiptFor(plan[i], false)] else []
      ensures Counted(step, old(faults), faults) && (step == Went ==> disk == job)
    {
      through := false;
      step := ApplyOne(i, known);
      if step != Went { return; }
      through := true;
      BackedAdd(job.receipts, known, records, plan, frozen, i, false);
      Store(job.(receipts := job.receipts + [ReceiptFor(plan[i], false)]));
      step := Flush();
    }

    /** The apply loop of the batch; `n` operations went through. */
    method ApplyEach(pending: seq<nat>, ghost known: set<nat>) returns (step: Step, n: nat)
      requires Valid() && AllBacked(known) && Picks(pending, plan) && Untouched(records, pending, plan, frozen)
      modifies this`records, this`job, this`disk, this`faults
      ensures Valid() && AllBacked(known) && OnlyPicked(old(records), records, pending, plan)
      ensures job.status == old(job.status) && (disk.status == old(disk.status) || disk.status == job.status)
      ensures n <= |pending| && (step == Went ==> n == |pending|)
      ensures Counted(step, old(faults), faults)
      ensures Done(records, pending[..n], plan)
      ensures Picks(Beyond(pending, n), plan) && AsFrozen(records, Beyond(pending, n), plan, frozen)
    {
      n := 0;
      while n < |pending|
        invariant n <= |pending| && faults == old(faults)
        invariant Valid() && AllBacked(known)
        invariant OnlyPicked(old(records), records, pending, plan)
        invariant job.status == old(job.status) && (disk.status == old(disk.status) || disk.status == job.status)
        invariant Done(records, pending[..n], plan) && Untouched(records, pending[n..], plan, frozen)
      {
        ghost var before := records;
        var through;
        step, through := ApplyNext(pending[n], known);
        OneMore(old(records), before, records, pending, n, plan, frozen);
        BeyondPicks(pending, n, plan);
        BeyondPicks(pending, n + 1, plan);
        UntouchedIsFrozen(records, pending[n + 1..], plan, frozen);
        BeyondShrinks(records, pending, n, plan, frozen);
        if through { n := n + 1; }
        if step != Went { return; }
      }
      step := Went;
    }

    /** The undo loop, in reverse; the receipts of what is undone are untrue from here on. */
    method UndoEach(applied: seq<nat>, ghost known: set<nat>) returns (step: Step)
      requires Valid() && AllBacked(known) && Picks(applied, plan) && Indices(applied) <= known
      modifies this`records, this`faults
      ensures Counted(step, old(faults), faults)
      ensures Valid() && AllBacked(known) && OnlyPicked(old(records), records, applied, plan)
      ensures step == Went ==> AsFrozen(records, applied, plan, frozen)
    {
      var n: nat := |applied|;
      while n > 0
        invariant n <= |applied| && faults == old(faults)
        invariant Valid() && AllBacked(known) && OnlyPicked(old(records), records, applied, plan)
        invariant AsFrozen(records, applied[n..], plan, frozen)
      {
        n := n - 1;
        step := Io();
        var written := *;
        if step == Went || written {
          var i := applied[n];
          assert i in Indices(applied);
          UndoPlanned(records, plan, frozen, i);
          ghost var before := records;
          records := UndoOne(records, Applied(plan[i].operation, Current(frozen, plan[i]), 0));
          OneBack(before, records, applied, n, plan, frozen);
          BackedElsewhere(job.receipts, known, before, records, plan, frozen, i);
          BackedElsewhere(disk.receipts, known, before, records, plan, frozen, i);
        }
        if step != Went { return; }
      }
      assert applied[0..] == applied;
      step := Went;
    }

    /** Undo, then the marker, then the receipts; complete only once the withdrawal is on disk. */
    method Rollback(applied: seq<nat>, marked: bool, ghost known: set<nat>) returns (step: Step)
      requires Valid() && AllBacked(known) && Picks(applied, plan)
      modifies this`records, this`marker, this`job, this`disk, this`faults
      ensures Valid() && OnlyPicked(old(records), records, applied, plan)
      ensures job.status == old(job.status) && (disk.status == old(disk.status) || disk.status == job.status)
      ensures Counted(step, old(faults), faults)
      ensures step == Went ==>
        (marked ==> !marker) && disk == job && job.receipts == Withdraw(old(job.receipts), Chosen(applied, plan))
      ensures step == Went || applied == [] ==> AllBacked(known)
      ensures step == Went || applied == [] ==> AsFrozen(records, applied, plan, frozen)
    {
      ghost var loose := known + Indices(applied);
      step := UndoEach(applied, loose);
      if step != Went { return; }
      if marked { step := ClearMarker(); }
      if step != Went { return; }
      BackedWithdraw(job.receipts, known, applied, records, plan);
      Store(job.(receipts := Withdraw(job.receipts, Chosen(applied, plan))));
      step := Flush();
    }

    method ClearMarker() returns (step: Step)
      modifies this`marker, this`faults
      ensures Counted(step, old(faults), faults) && (step == Went ==> !marker)
    {
      var removed := *;
      step := Io();
      if step == Went || removed { marker := false; }
    }

    method SetMarker() returns (step: Step)
      modifies this`marker, this`faults
      ensures Counted(step, old(faults), faults) && (step == Went ==> marker)
    {
      var written := *;
      step := Io();
      if step == Went || written { marker := true; }
    }

    /** Marker, apply loop, and marker again; `n` operations went through when it throws. */
    method Attempt(pending: seq<nat>, ghost known: set<nat>) returns (step: Step, n: nat, marked: bool)
      requires Valid() && AllBacked(known) && Picks(pending, plan) && Untouched(records, pending, plan, frozen)
      modifies this`records, this`marker, this`job, this`disk, this`faults
      ensures Valid() && AllBacked(known) && OnlyPicked(old(records), records, pending, plan)
      ensures job.status == old(job.status) && (disk.status == old(disk.status) || disk.status == job.status)
      ensures Counted(step, old(faults), faults)
      ensures n <= |pending| && (step == Went ==> Done(records, pending, plan) && !marker)
      ensures Picks(Beyond(pending, n), plan) && AsFrozen(records, Beyond(pending, n), plan, frozen)
    {
      n := 0;
      BeyondPicks(pending, n, plan);
      UntouchedBeyond(records, pending, plan, frozen);
      step := SetMarker();
      marked := step == Went;
      if !marked { return; }
      step, n := ApplyEach(pending, known);
      if step == Went {
        assert pending[..n] == pending;
        step := ClearMarker();
      }
    }

    /**
     * `applyBatch` with its callbacks. `interrupted`: operations had to be rolled back, and the rollback did
     * not get as far as having their receipts withdrawn on disk.
     */
    method ApplyBatch(pending: seq<nat>, ghost known: set<nat>) returns (step: Step, ghost interrupted: bool)
      requires Valid() && AllBacked(known) && Picks(pending, plan) && Untouched(records, pending, plan, frozen)
      modifies this`records, this`marker, this`job, this`disk, this`faults
      ensures Valid() && OnlyPicked(old(records), records, pending, plan)
      ensures job.status == old(job.status) && (disk.status == old(disk.status) || disk.status == job.status)
      ensures Counted(step, old(faults), faults)
      ensures interrupted ==> faults.Total() >= old(faults).Total() + 2
      ensures step == Went ==> Done(records, pending, plan) && !interrupted
      ensures !interrupted ==> AllBacked(known)
      // all or nothing, up to one late write
      ensures step == Threw && !interrupted ==> AllButOne(records, pending, plan, frozen)
    {
      interrupted := false;
      step := Io();
      if step != Went {
        UntouchedIsFrozen(records, pending, plan, frozen);
        assert AllBut(records, pending, plan, frozen, 0);
        return;
      }
      var n: nat, marked;
      step, n, marked := Attempt(pending, known);
      if step != Threw { return; }
      var undone := RollbackFrom(pending, n, marked, known);
      interrupted := n > 0 && undone != Went;
      if undone == Crashed { step := Crashed; }
    }

    /** The rollback of the first `n` picks. */
    method RollbackFrom(pending: seq<nat>, n: nat, marked: bool, ghost known: set<nat>) returns (step: Step)
      requires Valid() && AllBacked(known) && Picks(pending, plan) && n <= |pending|
      requires Picks(Beyond(pending, n), plan) && AsFrozen(records, Beyond(pending, n), plan, frozen)
      modifies this`records, this`marker, this`job, this`disk, this`faults
      ensures Valid() && OnlyPicked(old(records), records, pending, plan)
      ensures job.status == old(job.status) && (disk.status == old(disk.status) || disk.status == job.status)
      ensures Counted(step, old(faults), faults)
      ensures step == Went || n == 0 ==> AllBacked(known) && AllButOne(records, pending, plan, frozen)
    {
      PicksPrefix(pending, n, plan);
      step := Rollback(pending[..n], marked, known);
      OnlyPickedTwice(old(records), old(records), records, pending, n, plan);
      if step == Went || n == 0 { BackAndBeyond(old(records), records, pending, n, plan, frozen); }
    }

    /** The `applying` part of an attempt. */
    method ApplyPlan(ghost known: set<nat>) returns (step: Step, ghost interrupted: bool)
      requires Valid() && AllBacked(known)
      modifies this`records, this`marker, this`job, this`disk, this`faults
      ensures Valid()
      ensures job.status == JobStatus.Applying && (disk.status == old(disk.status) || disk.status == job.status)
      ensures Counted(step, old(faults), faults)
      ensures interrupted ==> faults.Total() >= old(faults).Total() + 2
      ensures step == Went ==> !interrupted && !marker
      ensures step == Went ==> (AllReflected(records, plan) <==> ReceiptsTrue(old(job.receipts), old(records), plan))
      ensures !interrupted ==> AllBacked(known)
    {
      interrupted := false;
      Store(job.(status := JobStatus.Applying));
      ghost var receipts, before := job.receipts, records;
      var pending;
      step, pending := Plan(known);
      if step != Went { return; }
      step, interrupted := Carry(pending, known);
      if step == Went { Finished(receipts, before, records, pending, plan, frozen); }
    }

    /** From `queued` to the end of one attempt, or to a crash. */
    method Run() returns (ghost interrupted: bool, ghost aborted: bool)
      requires Valid()
      modifies this`records, this`marker, this`job, this`disk, this`faults
      ensures Valid()
      ensures old(job.status) != Queued ==>
        !interrupted && records == old(records) && job == old(job) && disk == old(disk) && marker == old(marker)
      // succeeded: everything planned is reflected exactly when the receipts this attempt trusted were true
      ensures old(job.status) == Queued && job.status == Succeeded ==>
        !marker && (AllReflected(records, plan) <==> ReceiptsTrue(old(job.receipts), old(records), plan))
      // it succeeds exactly when no call failed and nobody aborted it
      ensures old(faults).Within(faults)
      ensures old(job.status) == Queued ==> (job.status == Succeeded <==> faults == old(faults) && !aborted)
      // under way only after a crash; otherwise cancelled if it was aborted and failed if it was not
      ensures old(job.status) == Queued && job.status != Succeeded ==>
        if faults.crashed != old(faults).crashed then job.status in {Running, JobStatus.Applying}
        else job.status == if aborted then Cancelled else Failed
      // an interrupted rollback takes a second failing call
      ensures interrupted ==> faults.Total() >= old(faults).Total() + 2
      ensures old(Sound()) && !interrupted ==> Sound()
      ensures disk.status == Succeeded && old(disk.status) != Succeeded ==> job.status == Succeeded
    {
      interrupted, aborted := false, false;
      if job.status != Queued { return; }
      ghost var known := Below(|plan|);
      if Sound() { known := {}; }
      Store(job.(status := Running));
      var step := Io();
      var cancelled := *;
      aborted := cancelled;
      if step == Went && cancelled { step := Threw; }
      if step == Went { step := Flush(); }
      if step == Went { step, interrupted := ApplyPlan(known); }
      if step == Went { Store(job.(status := Succeeded)); }
      if step in {Threw, Refused} { Store(job.(status := if cancelled then Cancelled else Failed)); }
    }

    /** The batch, when anything is pending, and then `finalizeBatch`. */
    method Carry(pending: seq<nat>, ghost known: set<nat>) returns (step: Step, ghost interrupted: bool)
      requires Valid() && AllBacked(known) && Picks(pending, plan) && Untouched(records, pending, plan, frozen)
      modifies this`records, this`marker, this`job, this`disk, this`faults
      ensures Valid() && OnlyPicked(old(records), records, pending, plan)
      ensures job.status == old(job.status) && (disk.status == old(disk.status) || disk.status == job.status)
      ensures Counted(step, old(faults), faults)
      ensures interrupted ==> faults.Total() >= old(faults).Total() + 2
      ensures step == Went ==> Done(records, pending, plan) && !interrupted && !marker
      ensures !interrupted ==> AllBacked(known)
    {
      interrupted := false;
      step := Went;
      if pending != [] { step, interrupted := ApplyBatch(pending, known); }
      if step == Went && marker { step := ClearMarker(); }
    }

    /** `start` after a crash: the job as the disk has it, back in the queue if it was under way. */
    method Restart()
      modifies this`job
      ensures job.receipts == disk.receipts
      ensures job.status == if disk.status in {Running, JobStatus.Applying} then Queued else disk.status
    {
      job := if disk.status in {Running, JobStatus.Applying} then disk.(status := Queued) else disk;
    }

    /** `retry`: only a failed or cancelled job goes back to the queue. */
    method Retry()
      modifies this`job, this`disk
      ensures job.receipts == old(job.receipts)
      ensures job.status == if old(job.status) in {Failed, Cancelled} then Queued else old(job.status)
      ensures disk == old(disk) || disk == job
    {
      if job.status in {Failed, Cancelled} { Store(job.(status := Queued)); }
    }

    /**
     * Any number of attempts, crashes, restarts and retries. As long as no rollback is interrupted, a job that
     * has succeeded has every planned operation reflected and the vault in the state of one uninterrupted run.
     */
    method Maintain(rounds: nat) returns (ghost interrupted: bool)
      requires Valid() && Sound()
      requires job.status != Succeeded && disk.status != Succeeded
      modifies this`records, this`marker, this`job, this`disk, this`faults
      ensures Valid()
      ensures !interrupted ==> Sound()
      ensures job.status == Succeeded && !interrupted ==>
        AllReflected(records, plan) && Uninterrupted(records, plan, frozen)
    {
      interrupted := false;
      for n := 0 to rounds
        invariant Valid()
        invariant !interrupted ==> Sound()
        invariant disk.status == Succeeded ==> job.status == Succeeded
        invariant job.status == Succeeded && !interrupted ==> AllReflected(records, plan)
      {
        var event := *;
        if event == 0 {
          ghost var cut, aborted := Run();
          interrupted := interrupted || cut;
        } else if event == 1 {
          Restart();
        } else {
          Retry();
        }
      }
      if job.status == Succeeded && !interrupted { ReflectedIsUninterrupted(records, plan, frozen); }
    }
  }

  /**
   * How an interrupted rollback does harm: a needed operation is applied and its receipt stored, another one
   * fails, the write is undone, and the process stops there. The receipt is untrue, and the next attempt,
   * having nothing else to do, succeeds without the operation.
   */
  lemma InterruptedRollbackLosesWork(item: Planned, records: Records, frozen: Records, now: Instant)
    requires IsPlan([item], frozen) && Partway(records, [item], frozen) && !Reflected(records, item)
    requires At(records, KeyOf(item.operation)) == At(frozen, KeyOf(item.operation))
    ensures var applied := Effect(records, item.operation, now);
      applied.Some? && Reflected(applied.value, item)
      && var undone := UndoOne(applied.value, Applied(item.operation, Current(frozen, item), now));
         !ReceiptsTrue([ReceiptFor(item, false)], undone, [item]) && undone == records
  {
    assert IsPlanned([item][0], frozen);
    ApplyHalf(records, item, frozen, now);
    assert Current(frozen, item) == Current(records, item);
    var receipts := [ReceiptFor(item, false)];
    assert receipts[0] in receipts;
    assert HasReceipt(receipts, [item][0]);
  }

  lemma PicksPrefix(pending: seq<nat>, n: nat, plan: seq<Planned>)
    requires Picks(pending, plan) && n <= |pending|
    ensures Picks(pending[..n], plan)
  {
  }

  lemma OnlyPickedTwice(first: Records, between: Records, after: Records, pending: seq<nat>, n: nat, plan: seq<Planned>)
    requires Picks(pending, plan) && n <= |pending| && Picks(pending[..n], plan)
    requires OnlyPicked(first, between, pending, plan) && OnlyPicked(between, after, pending[..n], plan)
    ensures OnlyPicked(first, after, pending, plan)
  {
  }

  /** At the end everything without an old receipt is reflected, and the rest is as it was. */
  lemma Finished(receipts: seq<Receipt>, before: Records, after: Records, pending: seq<nat>, plan: seq<Planned>,
        frozen: Records)
    requires IsPlan(plan, frozen) && Picks(pending, plan)
    requires OnlyPicked(before, after, pending, plan) && Done(after, pending, plan)
    requires Unreceipted(receipts, pending, plan) && Accounted(receipts, before, pending, plan, |plan|)
    ensures AllReflected(after, plan) <==> ReceiptsTrue(receipts, before, plan)
  {
    forall i | 0 <= i < |plan| && i !in pending ensures Reflected(after, plan[i]) <==> Reflected(before, plan[i]) {
      forall k | 0 <= k < |pending| ensures KeyOf(plan[pending[k]].operation) != KeyOf(plan[i].operation) {
        assert pending[k] in pending;
      }
      assert At(after, KeyOf(plan[i].operation)) == At(before, KeyOf(plan[i].operation));
    }
  }
}
