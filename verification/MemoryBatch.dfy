/**
 * Batches of memory operations: before-images, durable markers per Agent, and rollback in reverse.
 *
 * Every I/O call may fail. A call that changes a file may also fail late, after the change has reached
 * the directory (the rename or unlink went through, the directory sync after it did not).
 */
module MemoryBatch {
  import opened Options
  import opened MemoryRecords

  datatype Batch = Batch(agentId: Agent, operations: seq<Operation>)

  /** An operation that went through, with the before-image taken for it and the instant it was given. */
  datatype Applied = Applied(operation: Operation, before: Option<Stored>, at: Instant)

  // ------------------------------------------------------- replay and undo

  /** The operations in sequence, or `None` if one is refused. */
  function Replay(records: Records, items: seq<Applied>): Option<Records> {
    if items == [] then Some(records)
    else
      var n := |items| - 1;
      match Replay(records, items[..n])
      case None => None
      case Some(r) => Effect(r, items[n].operation, items[n].at)
  }

  /** The same, step by step: each operation creates, revises or deletes its record as it says, and touches no other. */
  ghost predicate Stepwise(before: Records, items: seq<Applied>, after: Records) {
    if items == [] then after == before
    else
      var n := |items| - 1;
      exists middle :: Stepwise(before, items[..n], middle) && Outcome(middle, items[n].operation, items[n].at, after)
  }

  lemma {:induction false} ReplayIsStepwise(before: Records, items: seq<Applied>, after: Records)
    ensures Replay(before, items) == Some(after) <==> Stepwise(before, items, after)
    decreases |items|
  {
    if items != [] {
      var n := |items| - 1;
      if Replay(before, items[..n]).Some? {
        var r := Replay(before, items[..n]).value;
        ReplayIsStepwise(before, items[..n], r);
        EffectIsOutcome(r, items[n].operation, items[n].at, after);
      }
      if Stepwise(before, items, after) {
        var middle :| Stepwise(before, items[..n], middle) && Outcome(middle, items[n].operation, items[n].at, after);
        ReplayIsStepwise(before, items[..n], middle);
        EffectIsOutcome(middle, items[n].operation, items[n].at, after);
      }
    }
  }

  /** One rollback step: a created file is unlinked, any other gets its before-image back. */
  function UndoOne(records: Records, item: Applied): Records {
    var key := KeyOf(item.operation);
    if item.operation.change.Create? || item.before.None? then records - {key}
    else records[key := item.before.value]
  }

  function UndoAll(records: Records, items: seq<Applied>): Records
    decreases |items|
  {
    if items == [] then records
    else UndoAll(UndoOne(records, items[|items| - 1]), items[..|items| - 1])
  }

  ghost function At(records: Records, key: Key): Option<Stored> {
    if key in records then Some(records[key]) else None
  }

  /** Every before-image has the version its operation was conditioned on. */
  ghost predicate ImagesMatch(items: seq<Applied>) {
    forall i :: 0 <= i < |items| && !items[i].operation.change.Create? ==>
      items[i].before.Some? && Sha256(items[i].before.value) == items[i].operation.change.ifMatch
  }

  ghost predicate Touches(items: seq<Applied>, key: Key) {
    exists i :: 0 <= i < |items| && KeyOf(items[i].operation) == key
  }

  /** Undoing one operation right after it gives back exactly the records it found. */
  lemma UndoOneInverts(records: Records, item: Applied)
    requires Effect(records, item.operation, item.at).Some?
    requires ImagesMatch([item])
    ensures UndoOne(Effect(records, item.operation, item.at).value, item) == records
  {
    var key := KeyOf(item.operation);
    assert [item][0] == item;
    if item.operation.change.Create? {
      assert records == records - {key};
    } else {
      assert records[key] == item.before.value;
    }
  }

  /** Rolling back in reverse restores the records, whatever the operations did to each other's slugs. */
  lemma {:induction false} UndoAllInverts(records: Records, items: seq<Applied>)
    requires Replay(records, items).Some? && ImagesMatch(items)
    ensures UndoAll(Replay(records, items).value, items) == records
  {
    if items != [] {
      var n := |items| - 1;
      var r := Replay(records, items[..n]).value;
      assert ImagesMatch([items[n]]);
      UndoOneInverts(r, items[n]);
      UndoAllInverts(records, items[..n]);
    }
  }

  ghost predicate AgreeExcept(a: Records, b: Records, key: Key) {
    forall k :: k != key ==> At(a, k) == At(b, k)
  }

  lemma UndoOneAt(records: Records, item: Applied, k: Key)
    ensures At(UndoOne(records, item), k) ==
            if k != KeyOf(item.operation) then At(records, k)
            else if item.operation.change.Create? then None else item.before
  {
  }

  /** A stray change to one record survives the rollback exactly when no undone operation was on that record. */
  lemma {:induction false} UndoAllStray(a: Records, b: Records, items: seq<Applied>, key: Key)
    requires AgreeExcept(a, b, key)
    ensures AgreeExcept(UndoAll(a, items), UndoAll(b, items), key)
    ensures Touches(items, key) ==> UndoAll(a, items) == UndoAll(b, items)
    ensures !Touches(items, key) ==> At(UndoAll(a, items), key) == At(a, key)
    ensures a == b ==> UndoAll(a, items) == UndoAll(b, items)
    decreases |items|
  {
    if items != [] {
      var n := |items| - 1;
      var x, y := UndoOne(a, items[n]), UndoOne(b, items[n]);
      forall k ensures At(x, k) == At(y, k) || k == key {
        UndoOneAt(a, items[n], k);
        UndoOneAt(b, items[n], k);
      }
      UndoOneAt(a, items[n], key);
      UndoOneAt(b, items[n], key);
      if KeyOf(items[n].operation) == key {
        SameRecords(x, y);
      }
      UndoAllStray(x, y, items[..n], key);
      if Touches(items, key) && KeyOf(items[n].operation) != key {
        var i :| 0 <= i < |items| && KeyOf(items[i].operation) == key;
        assert KeyOf(items[..n][i].operation) == key;
      }
      if Touches(items[..n], key) {
        var i :| 0 <= i < n && KeyOf(items[..n][i].operation) == key;
        assert KeyOf(items[i].operation) == key;
      }
    }
  }

  lemma SameRecords(a: Records, b: Records)
    requires forall k :: At(a, k) == At(b, k)
    ensures a == b
  {
    forall k ensures k in a <==> k in b { assert At(a, k) == At(b, k); }
    forall k | k in a ensures a[k] == b[k] { assert At(a, k) == At(b, k); }
  }

  // ------------------------------------------------------------ the batch

  /** The memory an operation is conditioned on is gone or has another version. */
  ghost predicate Stale(records: Records, op: Operation) {
    !op.change.Create? && (KeyOf(op) !in records || Sha256(records[KeyOf(op)]) != op.change.ifMatch)
  }

  /** What an operation that is not accepted is refused with. */
  function Refusal(records: Records, op: Operation): Error {
    if op.change.Create? || KeyOf(op) in records then Conflict else NotFound
  }

  ghost predicate RefusedStale(records: Records, operations: seq<Operation>, error: Error) {
    exists i :: 0 <= i < |operations| && Stale(records, operations[i]) && error == Refusal(records, operations[i])
  }

  /** The first operation after those that went through is refused on the records they left. */
  ghost predicate RefusedNext(records: Records, operations: seq<Operation>, applied: seq<Applied>) {
    && |applied| < |operations| && OperationsOf(applied) == operations[..|applied|]
    && Replay(records, applied).Some? && !Accepts(Replay(records, applied).value, operations[|applied|])
  }

  datatype Error = Invalid | NotFound | Conflict | Broken

  datatype Phase = Preparing | Marking | Applying | Committing

  /**
   * What happened inside a batch. `applied` went through; `stray` failed late, its change made but not
   * recorded; `strayMarker` is the same for a marker; `committed` lost their marker before the failure.
   */
  datatype Log = Log(phase: Phase, applied: seq<Applied>, stray: Option<Applied>,
                     marked: set<Agent>, strayMarker: set<Agent>, committed: set<Agent>, rolledBack: bool)

  function Operations(batches: seq<Batch>): seq<Operation> {
    if batches == [] then [] else Operations(batches[..|batches| - 1]) + batches[|batches| - 1].operations
  }

  function Agents(batches: seq<Batch>): set<Agent> { set b | b in batches :: b.agentId }

  predicate WellFormed(batches: seq<Batch>) {
    && batches != []
    && forall b :: b in batches ==>
         b.operations != [] && forall op :: op in b.operations ==> op.agentId == b.agentId
  }

  function OperationsOf(items: seq<Applied>): seq<Operation> {
    seq(|items|, i requires 0 <= i < |items| => items[i].operation)
  }

  /** A late failure the rollback did not happen to overwrite. */
  ghost predicate Leaks(log: Log) {
    log.stray.Some? && !Touches(log.applied, KeyOf(log.stray.value.operation))
  }

  /** Back to the old records, up to the one record a late failure may have left changed. */
  ghost predicate Restored(before: Records, after: Records, log: Log) {
    if Leaks(log) then AgreeExcept(after, before, KeyOf(log.stray.value.operation)) && after != before
    else after == before
  }

  /** The records in the middle of the batch: everything applied so far, and the stray change if there is one. */
  ghost predicate InFlight(before: Records, now: Records, log: Log) {
    && ImagesMatch(log.applied)
    && Replay(before, log.applied).Some?
    && var r := Replay(before, log.applied).value;
       if log.stray.Some? then Effect(r, log.stray.value.operation, log.stray.value.at) == Some(now) else r == now
  }

  /** A complete undo restores the old records, unless a late failure leaks. */
  lemma UndoRestores(before: Records, now: Records, log: Log)
    requires InFlight(before, now, log)
    ensures Restored(before, UndoAll(now, log.applied), log)
  {
    var r := Replay(before, log.applied).value;
    UndoAllInverts(before, log.applied);
    if log.stray.Some? {
      var key := KeyOf(log.stray.value.operation);
      EffectIsLocal(r, log.stray.value.operation, log.stray.value.at);
      assert AgreeExcept(now, r, key);
      UndoAllStray(now, r, log.applied, key);
      UndoAllStray(r, now, log.applied, key);
      if Leaks(log) {
        assert At(UndoAll(now, log.applied), key) == At(now, key);
        assert At(before, key) == At(r, key);
        assert At(now, key) != At(r, key);
      }
    }
  }

  /** After a complete rollback the vault is as before if and only if no late failure leaked. */
  lemma RollbackExact(before: Records, now: Records, log: Log)
    requires InFlight(before, now, log)
    ensures UndoAll(now, log.applied) == before <==> !Leaks(log)
  {
    UndoRestores(before, now, log);
  }

  /** A leak does happen: deleting one memory, with the directory sync failing after the unlink. */
  lemma RollbackCanLeak(memory: Stored)
    ensures exists before, now, log :: InFlight(before, now, log) && Leaks(log) && UndoAll(now, log.applied) != before
  {
    var before: Records := map[("agt_a", "note") := memory];
    var op := Operation("mop_1", "agt_a", "note", Delete(Sha256(memory)));
    var log := Log(Applying, [], Some(Applied(op, Some(memory), 0)), {"agt_a"}, {}, {}, false);
    var now := before - {("agt_a", "note")};
    assert Effect(before, op, 0) == Some(now);
    assert InFlight(before, now, log) && Leaks(log);
    assert UndoAll(now, []) == now && ("agt_a", "note") !in now;
  }

  class Vault {
    var records: Records
    var markers: set<Agent>
    ghost var faults: nat   // calls that failed

    constructor (records: Records)
      ensures this.records == records && markers == {} && faults == 0
    {
      this.records := records;
      markers := {};
      faults := 0;
    }

    /** A call that goes through or fails. */
    method Call() returns (ok: bool)
      modifies this`faults
      ensures faults == old(faults) + if ok then 0 else 1
    {
      ok := *;
      if !ok { faults := faults + 1; }
    }

    /** A call that changes a file and then syncs its directory, and may fail at either. */
    method Change() returns (written: bool, ok: bool)
      modifies this`faults
      ensures ok ==> written
      ensures faults == old(faults) + if ok then 0 else 1
    {
      written := *;
      var synced := *;
      ok := written && synced;
      if !ok { faults := faults + 1; }
    }

    method ReadCanonical(key: Key) returns (r: Result<Stored, Error>)
      modifies this`faults
      ensures old(faults) <= faults <= old(faults) + 1
      ensures r == if key !in records then Err(NotFound) else if faults == old(faults) then Ok(records[key]) else Err(Broken)
    {
      if key !in records { return Err(NotFound); }
      var readable := Call();
      return if readable then Ok(records[key]) else Err(Broken);
    }

    /** One operation. On failure `late` tells whether its change reached the vault all the same. */
    method ApplyValidatedOperation(op: Operation) returns (r: Result<Instant, Error>, ghost at: Instant,
          ghost late: bool)
      modifies this`records, this`faults
      ensures r.Ok? ==> r.value == at && Effect(old(records), op, at) == Some(records)
      ensures r.Err? && late ==> Effect(old(records), op, at) == Some(records)
      ensures r.Err? && !late ==> records == old(records)
      // what that comes to, and when it is refused
      ensures r.Ok? || late ==> Outcome(old(records), op, at, records)
      ensures !Accepts(old(records), op) ==>
        r == Err(Refusal(old(records), op)) && !late
      ensures old(faults) <= faults <= old(faults) + 1
      ensures r.Ok? <==> Accepts(old(records), op) && faults == old(faults)
      ensures faults != old(faults) ==> r == Err(Broken)
    {
      var now: Instant := *;
      EffectIsOutcome(records, op, now, OrElse(Effect(records, op, now), records));
      at, late := now, false;
      match Effect(records, op, now)
      case None =>
        r := Err(Refusal(records, op));
      case Some(next) =>
        var written, ok := Change();
        if written { records := next; }
        late := written && !ok;
        r := if ok then Ok(now) else Err(Broken);
    }

    method WriteMarker(agent: Agent) returns (ok: bool)
      modifies this`markers, this`faults
      ensures ok ==> markers == old(markers) + {agent}
      ensures markers == old(markers) || markers == old(markers) + {agent}
      ensures faults == old(faults) + if ok then 0 else 1
    {
      var written;
      written, ok := Change();
      if written { markers := markers + {agent}; }
    }

    method RemoveMarker(agent: Agent) returns (ok: bool)
      modifies this`markers, this`faults
      ensures ok ==> markers == old(markers) - {agent}
      ensures markers == old(markers) || markers == old(markers) - {agent}
      ensures faults == old(faults) + if ok then 0 else 1
    {
      var removed;
      removed, ok := Change();
      if removed { markers := markers - {agent}; }
    }

    method Undo(item: Applied) returns (ok: bool)
      modifies this`records, this`faults
      ensures ok ==> records == UndoOne(old(records), item)
      ensures records == old(records) || records == UndoOne(old(records), item)
      ensures faults == old(faults) + if ok then 0 else 1
    {
      var written;
      written, ok := Change();
      if written { records := UndoOne(records, item); }
    }

    /** The before-image of every operation, read before anything is written. */
    method Prepare(operations: seq<Operation>) returns (r: Result<seq<Option<Stored>>, Error>)
      modifies this`faults
      ensures old(faults) <= faults <= old(faults) + 1
      ensures r.Ok? <==> faults == old(faults) && forall i :: 0 <= i < |operations| ==> !Stale(records, operations[i])
      ensures r.Err? && faults == old(faults) ==> RefusedStale(records, operations, r.error)
      ensures r.Ok? ==> |r.value| == |operations|
      ensures r.Ok? ==> forall i :: 0 <= i < |operations| && !operations[i].change.Create? ==>
        r.value[i].Some? && KeyOf(operations[i]) in records && r.value[i].value == records[KeyOf(operations[i])]
        && Sha256(r.value[i].value) == operations[i].change.ifMatch
    {
      var images: seq<Option<Stored>> := [];
      for i := 0 to |operations|
        invariant |images| == i && faults == old(faults)
        invariant forall j :: 0 <= j < i ==> !Stale(records, operations[j])
        invariant forall j :: 0 <= j < i && !operations[j].change.Create? ==>
          images[j].Some? && KeyOf(operations[j]) in records && images[j].value == records[KeyOf(operations[j])]
          && Sha256(images[j].value) == operations[j].change.ifMatch
      {
        var op := operations[i];
        if op.change.Create? {
          images := images + [None];
        } else {
          var current := ReadCanonical(KeyOf(op));
          if current.Err? { return Err(current.error); }
          if Sha256(current.value) != op.change.ifMatch { return Err(Conflict); }
          images := images + [Some(current.value)];
        }
      }
      return Ok(images);
    }

    method MarkAll(batches: seq<Batch>) returns (ok: bool, marked: set<Agent>, ghost stray: set<Agent>)
      modifies this`markers, this`faults
      ensures faults == old(faults) + if ok then 0 else 1
      ensures marked <= Agents(batches) && stray <= Agents(batches)
      ensures markers == old(markers) + marked + stray
      ensures ok ==> marked == Agents(batches) && stray == {}
    {
      ok, marked, stray := true, {}, {};
      for i := 0 to |batches|
        invariant ok && faults == old(faults)
        invariant marked == Agents(batches[..i]) && markers == old(markers) + marked
      {
        ghost var before := markers;
        ok := WriteMarker(batches[i].agentId);
        if !ok {
          stray := markers - before;
          return;
        }
        marked := marked + {batches[i].agentId};
        assert batches[..i + 1] == batches[..i] + [batches[i]];
      }
      assert batches[..|batches|] == batches;
    }

    /** Applies the operations in order until one fails, remembering each one that went through. */
    method ApplyAll(operations: seq<Operation>, images: seq<Option<Stored>>)
      returns (failure: Option<Error>, applied: seq<Applied>, ghost stray: Option<Applied>)
      requires |images| == |operations|
      requires forall i :: 0 <= i < |operations| && !operations[i].change.Create? ==>
        images[i].Some? && Sha256(images[i].value) == operations[i].change.ifMatch
      modifies this`records, this`faults
      ensures old(faults) <= faults <= old(faults) + 1
      ensures faults != old(faults) ==> failure == Some(Broken)
      ensures faults == old(faults) && failure.Some? ==>
        RefusedNext(old(records), operations, applied) && stray.None?
        && failure.value == Refusal(Replay(old(records), applied).value, operations[|applied|])
      ensures InFlight(old(records), records, Log(Applying, applied, stray, {}, {}, {}, false))
      ensures failure.None? ==> stray.None? && OperationsOf(applied) == operations
    {
      failure, applied, stray := None, [], None;
      for i := 0 to |operations|
        invariant failure.None? && stray.None? && faults == old(faults)
        invariant |applied| == i && OperationsOf(applied) == operations[..i]
        invariant ImagesMatch(applied) && Replay(old(records), applied) == Some(records)
      {
        var result, at, late := ApplyValidatedOperation(operations[i]);
        if result.Err? {
          failure := Some(result.error);
          if late { stray := Some(Applied(operations[i], images[i], at)); }
          return;
        }
        ReplayStep(old(records), applied, Applied(operations[i], images[i], result.value));
        applied := applied + [Applied(operations[i], images[i], result.value)];
        var ok := Call();
        if !ok { return Some(Broken), applied, None; }
      }
    }

    /** Rescans each marked Agent and takes its marker away. */
    method ReleaseMarkers(agents: set<Agent>) returns (ok: bool, ghost released: set<Agent>)
      modifies this`markers, this`faults
      ensures faults == old(faults) + if ok then 0 else 1
      ensures released <= agents && markers == old(markers) - released
      ensures ok ==> released == agents
    {
      ok, released := true, {};
      var left := agents;
      while left != {}
        invariant ok && faults == old(faults)
        invariant left <= agents && released == agents - left && markers == old(markers) - released
      {
        var agent :| agent in left;
        ok := Call();
        if !ok { return; }
        ghost var before := markers;
        ok := RemoveMarker(agent);
        if !ok {
          if markers != before { released := released + {agent}; }
          return;
        }
        left := left - {agent};
        released := released + {agent};
      }
    }

    /** Undo in reverse, then the markers, then the caller's callback; the first failure ends it. */
    method Rollback(applied: seq<Applied>, marked: set<Agent>) returns (ok: bool, ghost undone: bool,
          ghost released: set<Agent>)
      modifies this`records, this`markers, this`faults
      ensures faults == old(faults) + if ok then 0 else 1
      ensures undone ==> records == UndoAll(old(records), applied)
      ensures applied == [] ==> undone
      ensures !undone ==> markers == old(markers) && released == {}
      ensures released <= marked && markers == old(markers) - released
      ensures ok ==> undone && released == marked
    {
      undone, released := false, {};
      var n: nat := |applied|;
      assert applied[..n] == applied;
      while n > 0
        invariant n <= |applied| && markers == old(markers) && faults == old(faults)
        invariant UndoAll(records, applied[..n]) == UndoAll(old(records), applied)
      {
        assert applied[..n][..n - 1] == applied[..n - 1];
        ok := Undo(applied[n - 1]);
        if !ok { return; }
        n := n - 1;
      }
      undone := true;
      ok, released := ReleaseMarkers(marked);
      if ok { ok := Call(); }
    }

    /** `finalizeBatch`: clears a marker an earlier batch had to leave, and touches no record. */
    method FinalizeBatch(agent: Agent) returns (r: Result<bool, Error>)
      modifies this`markers, this`faults
      ensures faults == old(faults) + if r.Ok? then 0 else 1
      ensures r == Ok(false) ==> agent !in old(markers) && markers == old(markers)
      ensures r == Ok(true) ==> agent in old(markers) && markers == old(markers) - {agent}
      ensures markers == old(markers) || markers == old(markers) - {agent}
    {
      if agent !in markers { return Ok(false); }
      var ok, released := ReleaseMarkers({agent});
      assert released == {} || released == {agent};
      return if ok then Ok(true) else Err(Broken);
    }

    /**
     * `applyBatchesHeld`: all the operations or none.
     */
    method ApplyBatchesHeld(batches: seq<Batch>) returns (r: Result<seq<Applied>, Error>, ghost log: Log,
          ghost atFailure: nat)
      modifies this`records, this`markers, this`faults
      // success: all operations in sequence, and none of the Agents left marked
      ensures r.Ok? ==> OperationsOf(r.value) == Operations(batches) && Replay(old(records), r.value) == Some(records)
      ensures r.Ok? ==> Stepwise(old(records), r.value, records)
      ensures r.Ok? ==> markers == old(markers) - Agents(batches)
      // refused before anything was written
      ensures !WellFormed(batches) ==> r == Err(Invalid) && log.phase == Preparing
      ensures r.Err? && log.phase == Preparing ==> records == old(records) && markers == old(markers)
      ensures r.Ok? ==> faults == old(faults)
      ensures r.Ok? ==> forall i :: 0 <= i < |Operations(batches)| ==> !Stale(old(records), Operations(batches)[i])
      // without a failing call only a stale or refused operation stops it
      ensures r.Err? && faults == old(faults) && WellFormed(batches) ==>
        if log.phase == Preparing then RefusedStale(old(records), Operations(batches), r.error)
        else log.phase == Applying && RefusedNext(old(records), Operations(batches), log.applied)
             && r.error == Refusal(Replay(old(records), log.applied).value, Operations(batches)[|log.applied|])
      // nothing is written before every Agent is marked, and nothing released before everything is applied
      ensures r.Err? && log.phase != Applying && log.phase != Committing ==> records == old(records)
      ensures r.Err? && (log.phase == Applying || log.phase == Committing) ==> log.marked == Agents(batches)
      ensures r.Err? && log.phase == Committing ==> OperationsOf(log.applied) == Operations(batches) && log.stray.None?
      // the rollback is complete exactly when none of its calls fails
      ensures old(faults) <= atFailure <= old(faults) + 1
      ensures r.Err? && log.phase != Preparing ==> (log.rolledBack <==> faults == atFailure)
      // rolled back: every record as before, up to a leaking late failure
      ensures r.Err? && log.rolledBack ==> Restored(old(records), records, log)
      ensures r.Err? && log.rolledBack ==> markers == old(markers) + log.strayMarker - log.marked
      // rollback itself failed: each marked Agent is restored or still marked, unless the failed commit had released it
      ensures r.Err? ==> log.marked <= Agents(batches) && (log.phase != Committing ==> log.committed == {})
      ensures r.Err? && !log.rolledBack ==>
        Restored(old(records), records, log) || log.marked - log.committed <= markers
    {
      log := Log(Preparing, [], None, {}, {}, {}, true);
      atFailure := faults;
      if !WellFormed(batches) { return Err(Invalid), log, atFailure; }
      var operations := Operations(batches);
      var prepared := Prepare(operations);
      if prepared.Err? { return Err(prepared.error), log, faults; }
      ghost var before := records;
      var applied: seq<Applied> := [];
      var ok, marked, strayMarker := MarkAll(batches);
      var failure := Broken;
      log := Log(Marking, [], None, marked, strayMarker, {}, false);
      if ok {
        ghost var stray;
        var result;
        result, applied, stray := ApplyAll(operations, prepared.value);
        log := Log(Applying, applied, stray, marked, {}, {}, false);
        if result.Some? {
          failure := result.value;
        } else {
          ghost var committed;
          ok, committed := ReleaseMarkers(marked);
          log := Log(Committing, applied, None, marked, {}, committed, false);
          if ok {
            ReplayIsStepwise(before, applied, records);
            return Ok(applied), log, faults;
          }
        }
      }
      UndoRestores(before, records, log);
      atFailure := faults;
      ghost var undone, released;
      ok, undone, released := Rollback(applied, marked);
      log := log.(rolledBack := ok);
      return Err(failure), log, atFailure;
    }
  }

  lemma ReplayStep(records: Records, items: seq<Applied>, item: Applied)
    requires Replay(records, items).Some? && ImagesMatch(items) && ImagesMatch([item])
    ensures Replay(records, items + [item]) == Effect(Replay(records, items).value, item.operation, item.at)
    ensures ImagesMatch(items + [item])
    ensures OperationsOf(items + [item]) == OperationsOf(items) + [item.operation]
  {
    assert (items + [item])[..|items|] == items;
    assert [item][0] == item;
  }
}
