/**
 * A Dream attempt as single I/O calls: planning, the batch with its marker and receipts, the rollback. Each call goes
 * through, or fails before or after its effect; the process may stop between any two.
 */
module MemoryCrashes {
  import opened Options
  import opened MemoryRecords
  import opened MemoryBatch
  import opened MemoryDream
  import opened MemoryDreamJob

  datatype Fate = Done | Early | Late

  datatype Stage = Idle | Planning(next: nat) | Marking | Writing | Noting | Clearing | Undoing(left: nat) | Withdrawing

  /**
   * The vault, the marker and the job as they are stored; what the attempt picked and applied so far. `start` are the
   * records it began with, `stray` a write that failed after its effect, `rolledBack` a rollback carried through.
   */
  datatype State = State(records: Records, marker: bool, job: Job, stage: Stage, pending: seq<Planned>,
                         applied: seq<Applied>, start: Records, stray: Option<Applied>, rolledBack: bool)

  datatype Action = Begin | PlanNext | Mark(fate: Fate) | Write(at: Instant, fate: Fate) | Note(fate: Fate)
    | Clear(fate: Fate) | Undo(fate: Fate) | Release(fate: Fate) | Revoke(fate: Fate) | Crash | Requeue

  function Init(records: Records): State {
    State(records, false, Job(Queued, []), Idle, [], [], records, None, false)
  }

  predicate Enabled(plan: seq<Planned>, s: State, a: Action) {
    match a
    case Begin => s.stage == Idle && s.job.status == Queued
    case PlanNext => s.stage.Planning? && s.stage.next <= |plan|
    case Mark(_) => s.stage == Stage.Marking
    case Write(_, _) => s.stage == Writing && |s.applied| < |s.pending|
    case Note(_) => s.stage == Noting && 0 < |s.applied| <= |s.pending|
    case Clear(_) => s.stage == Clearing
    case Undo(_) => s.stage.Undoing? && 0 < s.stage.left <= |s.applied|
    case Release(_) => s.stage == Undoing(0)
    case Revoke(_) => s.stage == Withdrawing && |s.applied| <= |s.pending|
    case Crash => true
    case Requeue => s.stage == Idle && s.job.status in {Failed, Cancelled}
  }

  // ------------------------------------------------------------------- steps

  function Fails(s: State): State { s.(stage := Idle, job := s.job.(status := Failed)) }

  function RollsBack(s: State): State { s.(stage := Undoing(|s.applied|)) }

  /** The planning loop: what has a receipt or is done is skipped, what is as its operation demands is picked. */
  function PlanStep(plan: seq<Planned>, s: State): State
    requires Enabled(plan, s, PlanNext)
  {
    var n := s.stage.next;
    if n == |plan| then s.(stage := if s.pending == [] then Clearing else Stage.Marking)
    else
      var item, on := plan[n], s.(stage := Planning(n + 1));
      if HasReceipt(s.job.receipts, item) then on
      else if Reflected(s.records, item) then
        on.(job := s.job.(receipts := s.job.receipts + [ReceiptFor(item, true)]))
      else if Demanded(s.records, item) then on.(pending := s.pending + [item])
      else Fails(s)
  }

  /** The record the operation is conditioned on is there, still active when it is to be merged into. */
  predicate Demanded(records: Records, item: Planned) {
    var op := item.operation;
    && !op.change.Create? && KeyOf(op) in records && Sha256(records[KeyOf(op)]) == op.change.ifMatch
    && (item.merge && op.change.Update? ==> records[KeyOf(op)].status == Active)
  }

  function Image(op: Operation): Option<Stored> {
    if op.change.Create? then None else Some(op.change.ifMatch.memory)
  }

  function Written(s: State, at: Instant, fate: Fate): State
    requires s.stage == Writing && |s.applied| < |s.pending|
  {
    var op := s.pending[|s.applied|].operation;
    var item := Applied(op, Image(op), at);
    match Effect(s.records, op, at)
    case None => RollsBack(s)
    case Some(next) =>
      match fate
      case Done => s.(records := next, applied := s.applied + [item], stage := Noting)
      case Early => RollsBack(s)
      case Late => RollsBack(s.(records := next, stray := Some(item)))
  }

  function Noted(s: State, fate: Fate): State
    requires 0 < |s.applied| <= |s.pending|
  {
    var receipt := ReceiptFor(s.pending[|s.applied| - 1], false);
    var next := if fate == Early then s else s.(job := s.job.(receipts := s.job.receipts + [receipt]));
    if fate != Done then RollsBack(next)
    else next.(stage := if |s.applied| == |s.pending| then Clearing else Writing)
  }

  function Cleared(s: State, fate: Fate): State {
    var next := s.(marker := s.marker && fate == Early);
    if fate == Done then next.(stage := Idle, job := s.job.(status := Succeeded))
    else if s.pending == [] then Fails(next)
    else RollsBack(next)
  }

  function Next(plan: seq<Planned>, s: State, a: Action): State
    requires Enabled(plan, s, a)
  {
    match a
    case Begin =>
      s.(job := s.job.(status := JobStatus.Applying), stage := Planning(0), pending := [], applied := [], start := s.records,
         stray := None, rolledBack := false)
    case PlanNext => PlanStep(plan, s)
    case Mark(fate) => s.(marker := s.marker || fate != Early, stage := if fate == Done then Writing else Withdrawing)
    case Write(at, fate) => Written(s, at, fate)
    case Note(fate) => Noted(s, fate)
    case Clear(fate) => Cleared(s, fate)
    case Undo(fate) =>
      var next := if fate == Early then s else s.(records := UndoOne(s.records, s.applied[s.stage.left - 1]));
      if fate == Done then next.(stage := Undoing(s.stage.left - 1)) else Fails(next)
    case Release(fate) =>
      var next := s.(marker := s.marker && fate == Early);
      if fate == Done then next.(stage := Withdrawing) else Fails(next)
    case Revoke(fate) =>
      var receipts := Withdraw(s.job.receipts, s.pending[..|s.applied|]);
      var next := if fate == Early then s else s.(job := s.job.(receipts := receipts));
      Fails(next.(rolledBack := fate == Done))
    case Crash =>
      s.(stage := Idle, job := if s.job.status == JobStatus.Applying then s.job.(status := Queued) else s.job)
    case Requeue => s.(job := s.job.(status := Queued))
  }

  ghost predicate Run(plan: seq<Planned>, s: State, actions: seq<Action>, t: State) {
    if actions == [] then s == t
    else
      var n := |actions| - 1;
      exists u :: Run(plan, s, actions[..n], u) && Enabled(plan, u, actions[n]) && t == Next(plan, u, actions[n])
  }

  // --------------------------------------------------- rollback, in every run

  function LogOf(s: State): Log { Log(Phase.Applying, s.applied, s.stray, {}, {}, {}, s.rolledBack) }

  /** What the records are at each stage, from the first write to the end of a rollback. */
  ghost predicate Tracked(s: State) {
    match s.stage
    case Planning(_) => s.applied == [] && s.stray == None && s.records == s.start
    case Marking => s.applied == [] && s.stray == None && s.records == s.start
    case Writing => s.stray == None && InFlight(s.start, s.records, LogOf(s))
    case Noting => s.stray == None && InFlight(s.start, s.records, LogOf(s))
    case Clearing => s.stray == None && InFlight(s.start, s.records, LogOf(s))
    case Undoing(left) => left <= |s.applied| && Unwound(s.start, s.records, s.applied[..left], LogOf(s))
    case Withdrawing => Restored(s.start, s.records, LogOf(s))
    case Idle => s.rolledBack ==> Restored(s.start, s.records, LogOf(s))
  }

  /** Undoing what is left restores the records, up to a leaking late write. */
  ghost predicate Unwound(start: Records, records: Records, left: seq<Applied>, log: Log) {
    Restored(start, UndoAll(records, left), log)
  }

  ghost predicate Inv(s: State) { Tracked(s) && (s.stage != Idle ==> !s.rolledBack) }

  lemma RollsBackTracked(s: State)
    requires InFlight(s.start, s.records, LogOf(s)) && !s.rolledBack
    ensures Inv(RollsBack(s))
  {
    UndoRestores(s.start, s.records, LogOf(s));
    assert s.applied[..|s.applied|] == s.applied;
    assert LogOf(RollsBack(s)) == LogOf(s);
  }

  lemma WrittenKept(s: State, at: Instant, fate: Fate)
    requires Inv(s) && s.stage == Writing && |s.applied| < |s.pending|
    ensures Inv(Written(s, at, fate))
  {
    var op := s.pending[|s.applied|].operation;
    var item := Applied(op, Image(op), at);
    var t := Written(s, at, fate);
    var next := Effect(s.records, op, at);
    if next.Some? && fate == Done {
      ReplayStep(s.start, s.applied, item);
      assert InFlight(t.start, t.records, LogOf(t));
    } else if next.Some? && fate == Late {
      RollsBackTracked(s.(records := next.value, stray := Some(item)));
    } else {
      RollsBackTracked(s);
    }
  }

  lemma UndoKept(s: State, fate: Fate)
    requires Inv(s) && s.stage.Undoing? && 0 < s.stage.left <= |s.applied|
    ensures fate == Done ==> Inv(s.(records := UndoOne(s.records, s.applied[s.stage.left - 1]), stage := Undoing(s.stage.left - 1)))
  {
    var n := s.stage.left;
    assert s.applied[..n][..n - 1] == s.applied[..n - 1] && s.applied[..n][n - 1] == s.applied[n - 1];
  }

  lemma NotedKept(s: State, fate: Fate)
    requires Inv(s) && s.stage == Noting && 0 < |s.applied| <= |s.pending|
    ensures Inv(Noted(s, fate))
  {
    var noted := Noted(s, Done);
    assert LogOf(noted) == LogOf(s);
    if fate == Early { RollsBackTracked(s); } else { RollsBackTracked(noted.(stage := Noting)); }
  }

  lemma ClearedKept(s: State, fate: Fate)
    requires Inv(s) && s.stage == Clearing
    ensures Inv(Cleared(s, fate))
  {
    var next := s.(marker := s.marker && fate == Early);
    assert LogOf(next) == LogOf(s);
    RollsBackTracked(next);
  }

  lemma PlanStepKept(plan: seq<Planned>, s: State)
    requires Inv(s) && Enabled(plan, s, PlanNext)
    ensures Inv(PlanStep(plan, s))
  {
    assert Replay(s.start, []) == Some(s.start);
  }

  lemma MarkKept(s: State, fate: Fate)
    requires Inv(s) && s.stage == Stage.Marking
    ensures Inv(s.(marker := s.marker || fate != Early, stage := if fate == Done then Writing else Withdrawing))
  {
    assert Replay(s.start, []) == Some(s.start);
  }

  lemma ReleaseKept(s: State, fate: Fate)
    requires Inv(s) && s.stage == Undoing(0)
    ensures Inv(s.(marker := s.marker && fate == Early, stage := Withdrawing))
  {
    assert s.applied[..0] == [];
  }

  lemma InvKept(plan: seq<Planned>, s: State, a: Action)
    requires Inv(s) && Enabled(plan, s, a)
    ensures Inv(Next(plan, s, a))
  {
    match a
    case PlanNext => PlanStepKept(plan, s);
    case Mark(fate) => MarkKept(s, fate);
    case Write(at, fate) => WrittenKept(s, at, fate);
    case Note(fate) => NotedKept(s, fate);
    case Clear(fate) => ClearedKept(s, fate);
    case Undo(fate) => UndoKept(s, fate);
    case Release(fate) => ReleaseKept(s, fate);
    case _ =>
  }

  lemma {:induction false} RunInv(plan: seq<Planned>, s: State, actions: seq<Action>, t: State, records: Records)
    requires s == Init(records) && Run(plan, s, actions, t)
    ensures Inv(t)
  {
    if actions != [] {
      var n := |actions| - 1;
      var u :| Run(plan, s, actions[..n], u) && Enabled(plan, u, actions[n]) && t == Next(plan, u, actions[n]);
      RunInv(plan, s, actions[..n], u, records);
      InvKept(plan, u, actions[n]);
    }
  }

  /** In every run: a rollback carried through gives back the records the attempt began with, unless a late write leaks. */
  lemma RolledBackExact(plan: seq<Planned>, records: Records, actions: seq<Action>, t: State)
    requires Run(plan, Init(records), actions, t) && t.rolledBack
    ensures t.records == t.start <==> !Leaks(LogOf(t))
  {
    RunInv(plan, Init(records), actions, t, records);
  }

  /** The marker stands while operations are written, and is gone, as the receipts are, after what takes them back. */
  ghost predicate Tidy(s: State) {
    && (s.stage != Idle ==> s.job.status == JobStatus.Applying)
    && (s.stage in {Writing, Noting} ==> s.marker)
    && (s.stage == Withdrawing && s.applied != [] ==> !s.marker)
    && (s.job.status == Succeeded ==> !s.marker)
    && (s.rolledBack ==> Withdrawn(s))
  }

  ghost predicate Withdrawn(s: State) {
    && |s.applied| <= |s.pending| && (s.applied != [] ==> !s.marker)
    && forall k :: 0 <= k < |s.applied| ==> !HasReceipt(s.job.receipts, s.pending[k])
  }

  lemma TidyKept(plan: seq<Planned>, s: State, a: Action)
    requires Inv(s) && Tidy(s) && Enabled(plan, s, a)
    ensures Tidy(Next(plan, s, a))
  {
    if a == Revoke(Done) {
      var items, t := s.pending[..|s.applied|], Next(plan, s, a);
      forall k | 0 <= k < |s.applied| ensures !HasReceipt(t.job.receipts, t.pending[k]) {
        assert items[k] == s.pending[k];
      }
    }
  }

  /** In every run: a rollback carried through leaves no receipt of what it took back and no marker, nor does success. */
  lemma {:induction false} RunTidy(plan: seq<Planned>, records: Records, actions: seq<Action>, t: State)
    requires Run(plan, Init(records), actions, t)
    ensures t.stage in {Writing, Noting} ==> t.marker
    ensures t.rolledBack ==> Withdrawn(t)
    ensures t.job.status == Succeeded ==> !t.marker
    ensures Tidy(t)
  {
    if actions != [] {
      var n := |actions| - 1;
      var u :| Run(plan, Init(records), actions[..n], u) && Enabled(plan, u, actions[n]) && t == Next(plan, u, actions[n]);
      RunTidy(plan, records, actions[..n], u);
      RunInv(plan, Init(records), actions[..n], u, records);
      TidyKept(plan, u, actions[n]);
    }
  }

  // ------------------------------------------------ receipts, in every run

  /** The first `n` operations each have a receipt or are picked. */
  ghost predicate Covered(plan: seq<Planned>, s: State, n: nat) {
    forall i :: 0 <= i < |plan| && i < n ==> HasReceipt(s.job.receipts, plan[i]) || plan[i] in s.pending
  }

  /** The first `n` picked operations have their receipts. */
  ghost predicate Receipted(s: State, n: nat) {
    forall k :: 0 <= k < |s.pending| && k < n ==> HasReceipt(s.job.receipts, s.pending[k])
  }

  /** What an attempt picks was needed when it began: not there yet, and on a record as the operation demands it. */
  ghost predicate Needed(s: State) {
    forall k :: 0 <= k < |s.pending| ==> Demanded(s.start, s.pending[k]) && !Reflected(s.start, s.pending[k])
  }

  ghost predicate AllReceipted(plan: seq<Planned>, s: State) {
    forall i :: 0 <= i < |plan| ==> HasReceipt(s.job.receipts, plan[i])
  }

  ghost predicate Thorough(plan: seq<Planned>, s: State) {
    && |s.applied| <= |s.pending| && (s.job.status == Succeeded ==> AllReceipted(plan, s))
    && match s.stage
       case Planning(n) => n <= |plan| && Covered(plan, s, n) && Needed(s)
       case Marking => Covered(plan, s, |plan|) && Needed(s)
       case Writing => Covered(plan, s, |plan|) && Needed(s) && Receipted(s, |s.applied|)
       case Noting => Covered(plan, s, |plan|) && Needed(s) && s.applied != [] && Receipted(s, |s.applied| - 1)
       case Clearing => Covered(plan, s, |plan|) && Needed(s) && Receipted(s, |s.pending|)
       case _ => true
  }

  /** A receipt more takes none away. */
  lemma OneReceipt(plan: seq<Planned>, s: State, item: Planned, noop: bool, n: nat, k: nat)
    requires Covered(plan, s, n) && Receipted(s, k)
    ensures var t := s.(job := s.job.(receipts := s.job.receipts + [ReceiptFor(item, noop)]));
      Covered(plan, t, n) && Receipted(t, k) && HasReceipt(t.job.receipts, item)
  {
    forall other ensures HasReceipt(s.job.receipts, other) ==>
        HasReceipt(s.job.receipts + [ReceiptFor(item, noop)], other) {
      ReceiptAdded(s.job.receipts, item, noop, other);
    }
    ReceiptAdded(s.job.receipts, item, noop, item);
  }

  lemma PlanThorough(plan: seq<Planned>, s: State)
    requires Inv(s) && Tidy(s) && Thorough(plan, s) && Enabled(plan, s, PlanNext)
    ensures Thorough(plan, PlanStep(plan, s))
  {
    var n := s.stage.next;
    if n < |plan| && Reflected(s.records, plan[n]) { OneReceipt(plan, s, plan[n], true, n, 0); }
  }

  lemma NoteThorough(plan: seq<Planned>, s: State, fate: Fate)
    requires Thorough(plan, s) && Enabled(plan, s, Note(fate))
    ensures Thorough(plan, Noted(s, fate))
  {
    OneReceipt(plan, s, s.pending[|s.applied| - 1], false, |plan|, |s.applied| - 1);
  }

  lemma ClearThorough(plan: seq<Planned>, s: State, fate: Fate)
    requires Tidy(s) && Thorough(plan, s) && Enabled(plan, s, Clear(fate))
    ensures Thorough(plan, Cleared(s, fate))
  {
    forall i | 0 <= i < |plan| ensures HasReceipt(s.job.receipts, plan[i]) {
      if plan[i] in s.pending {
        var k :| 0 <= k < |s.pending| && s.pending[k] == plan[i];
      }
    }
  }

  /** A job that has succeeded stays as it is. */
  lemma SuccessStays(plan: seq<Planned>, s: State, a: Action)
    requires Tidy(s) && s.job.status == Succeeded && Enabled(plan, s, a)
    ensures Next(plan, s, a).job == s.job
  {
  }

  lemma ThoroughKept(plan: seq<Planned>, s: State, a: Action)
    requires Inv(s) && Tidy(s) && Thorough(plan, s) && Enabled(plan, s, a)
    ensures Thorough(plan, Next(plan, s, a))
  {
    match a
    case PlanNext => PlanThorough(plan, s);
    case Note(fate) => NoteThorough(plan, s, fate);
    case Clear(fate) => ClearThorough(plan, s, fate);
    case Crash => assert s.job.status == Succeeded ==> Next(plan, s, a).job == s.job;
    case _ =>
  }

  /**
   * In every run: nothing is written that was there when the attempt began, or on a record the operation does not demand;
   * a job that has succeeded has a receipt for every operation.
   */
  lemma {:induction false} SucceedsReceipted(plan: seq<Planned>, records: Records, actions: seq<Action>, t: State)
    requires Run(plan, Init(records), actions, t)
    ensures t.stage in {Writing, Noting, Clearing} ==> Needed(t)
    ensures t.job.status == Succeeded ==> AllReceipted(plan, t)
    ensures Thorough(plan, t)
  {
    RunTidy(plan, records, actions, t);
    if actions != [] {
      var n := |actions| - 1;
      var u :| Run(plan, Init(records), actions[..n], u) && Enabled(plan, u, actions[n]) && t == Next(plan, u, actions[n]);
      SucceedsReceipted(plan, records, actions[..n], u);
      RunTidy(plan, records, actions[..n], u);
      RunInv(plan, Init(records), actions[..n], u, records);
      ThoroughKept(plan, u, actions[n]);
    }
  }

  // -------------------------------------------------------- two runs that fail

  lemma Do(plan: seq<Planned>, s: State, actions: seq<Action>, t: State, a: Action) returns (more: seq<Action>, u: State)
    requires Run(plan, s, actions, t) && Enabled(plan, t, a)
    ensures more == actions + [a] && u == Next(plan, t, a) && Run(plan, s, more, u)
  {
    more, u := actions + [a], Next(plan, t, a);
    assert more[..|actions|] == actions;
  }

  lemma ToMark(plan: seq<Planned>, records: Records) returns (actions: seq<Action>, u: State)
    requires |plan| == 1 && Demanded(records, plan[0]) && !Reflected(records, plan[0])
    ensures Run(plan, Init(records), actions, u)
    ensures u == State(records, false, Job(JobStatus.Applying, []), Planning(1), plan, [], records, None, false)
  {
    actions, u := Do(plan, Init(records), [], Init(records), Begin);
    assert u == State(records, false, Job(JobStatus.Applying, []), Planning(0), [], [], records, None, false);
    assert !HasReceipt([], plan[0]);
    assert [] + [plan[0]] == plan;
    actions, u := Do(plan, Init(records), actions, u, PlanNext);
  }

  /** With one operation that is needed, up to its write. */
  lemma ToWrite(plan: seq<Planned>, records: Records) returns (actions: seq<Action>, u: State)
    requires |plan| == 1 && Demanded(records, plan[0]) && !Reflected(records, plan[0])
    ensures Run(plan, Init(records), actions, u)
    ensures u == State(records, true, Job(JobStatus.Applying, []), Writing, plan, [], records, None, false)
  {
    actions, u := ToMark(plan, records);
    actions, u := Do(plan, Init(records), actions, u, PlanNext);
    actions, u := Do(plan, Init(records), actions, u, Mark(Done));
  }

  /** A late write that leaks is within reach: the rollback goes through, and the record stays changed. */
  lemma LateWriteLeaks(item: Planned, records: Records, at: Instant) returns (actions: seq<Action>, t: State)
    requires Demanded(records, item) && !Reflected(records, item)
    ensures Run([item], Init(records), actions, t) && t.rolledBack && t.start == records && t.records != records
  {
    var plan := [item];
    actions, t := ToWrite(plan, records);
    EffectIsLocal(records, item.operation, at);
    actions, t := Do(plan, Init(records), actions, t, Write(at, Late));
    assert t.stage == Undoing(0) && t.records != records;
    actions, t := Do(plan, Init(records), actions, t, Release(Done));
    actions, t := Do(plan, Init(records), actions, t, Revoke(Done));
  }

  lemma WritesOnce(item: Planned, records: Records, at: Instant) returns (actions: seq<Action>, t: State)
    requires Demanded(records, item) && !Reflected(records, item)
    ensures var undo := Applied(item.operation, Image(item.operation), at);
      && Run([item], Init(records), actions, t) && t.stage == Noting && t.start == records && t.pending == [item]
      && t.applied == [undo] && UndoOne(t.records, undo) == records && t.job == Job(JobStatus.Applying, [])
  {
    var plan, undo := [item], Applied(item.operation, Image(item.operation), at);
    actions, t := ToWrite(plan, records);
    assert ImagesMatch([undo]);
    UndoOneInverts(records, undo);
    actions, t := Do(plan, Init(records), actions, t, Write(at, Done));
  }

  /** The write and its receipt go through, the marker does not go away, and the write is undone. */
  lemma UndoneWithReceipt(item: Planned, records: Records, at: Instant) returns (actions: seq<Action>, t: State)
    requires Demanded(records, item) && !Reflected(records, item)
    ensures Run([item], Init(records), actions, t)
    ensures t.records == records && t.stage == Undoing(0) && t.job == Job(JobStatus.Applying, [ReceiptFor(item, false)])
  {
    actions, t := WritesOnce(item, records, at);
    var undo := t.applied[0];
    actions, t := Do([item], Init(records), actions, t, Note(Done));
    assert t.stage == Clearing && t.applied == [undo] && t.job.receipts == [ReceiptFor(item, false)];
    actions, t := Do([item], Init(records), actions, t, Clear(Early));
    assert t.stage == Undoing(1) && t.applied == [undo];
    actions, t := Do([item], Init(records), actions, t, Undo(Done));
  }

  /**
   * And so is a job that succeeds without its work: stopped after the undo, before the receipts are withdrawn, it is
   * begun again, and the receipt says that nothing is left to do.
   */
  lemma InterruptedRollbackSucceeds(item: Planned, records: Records, at: Instant) returns (actions: seq<Action>, t: State)
    requires Demanded(records, item) && !Reflected(records, item)
    ensures Run([item], Init(records), actions, t)
    ensures t.job.status == Succeeded && t.records == records && !Reflected(t.records, item)
  {
    var plan := [item];
    actions, t := UndoneWithReceipt(item, records, at);
    actions, t := Do(plan, Init(records), actions, t, Crash);
    actions, t := Do(plan, Init(records), actions, t, Begin);
    assert ReceiptFor(item, false) in t.job.receipts;
    assert HasReceipt(t.job.receipts, plan[0]);
    actions, t := Do(plan, Init(records), actions, t, PlanNext);
    actions, t := Do(plan, Init(records), actions, t, PlanNext);
    actions, t := Do(plan, Init(records), actions, t, Clear(Done));
  }
}
