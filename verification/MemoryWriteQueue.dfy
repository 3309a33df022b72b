/**
 * The per-Agent write queue and its exclusive sections.
 *
 * The promises of the queue are a state machine: one action per promise reaction that matters.
 * A task is created by `enqueue`, passes the admission gate, is chained behind its Agent's tail, runs,
 * finishes, and is finally dropped from the bookkeeping of its epoch. An exclusive section closes the
 * current epoch, waits for it, drains the tails, runs, and releases the gate it put up.
 */
module MemoryWriteQueue {
  import opened Options

  type Agent = string
  type TaskId = nat

  datatype Phase =
    | Gated                   // waiting for the admission promise it captured
    | Chained                 // behind the tail it found, or free to start
    | Running
    | Finished(failed: bool)  // the task settled; the bookkeeping has not yet run
    | Settled                 // dropped from the epoch's pending set

  datatype Task = Task(agent: Agent, epoch: nat, gate: nat, phase: Phase,
                       previous: Option<TaskId>, tracker: nat, tailDropped: bool)

  datatype Section = Queued | Closing(closedEpoch: nat) | Draining(closedEpoch: nat) | Ready(closedEpoch: nat)
    | Exclusive(closedEpoch: nat) | Released

  /** One pending set, and the epoch it was made for. */
  datatype Tracker = Tracker(epoch: nat, pending: set<TaskId>)

  /**
   * `admission` counts the blocks chained onto the admission promise, `released` those released, so a gate
   * captured at `g` is open once `released >= g`. `pendingByEpoch` maps an epoch to one of the `trackers`.
   */
  datatype State = State(
    tasks: seq<Task>, sections: seq<Section>,
    epoch: nat, admission: nat, released: nat,
    tails: map<Agent, TaskId>, pendingByEpoch: map<nat, nat>, trackers: seq<Tracker>)

  datatype Action =
    | Enqueue(agent: Agent)
    | WithExclusive
    | PassGate(task: TaskId)
    | Start(task: TaskId)
    | Finish(task: TaskId, failed: bool)
    | Settle(task: TaskId)
    | DropTail(task: TaskId)
    | Begin(section: nat)
    | Close(section: nat)
    | Drain(section: nat)
    | Enter(section: nat)
    | Leave(section: nat)

  const EMPTY := State([], [], 0, 0, 0, map[], map[], [])

  predicate IsFinished(t: Task) { t.phase.Finished? || t.phase.Settled? }

  predicate HasStarted(t: Task) { t.phase.Running? || IsFinished(t) }

  // -------------------------------------------------------------- the steps

  /** `track`: the epoch's pending set, a new one if the epoch has none. */
  function Track(s: State, id: TaskId): (State, nat) {
    if s.epoch in s.pendingByEpoch && s.pendingByEpoch[s.epoch] < |s.trackers| then
      var k := s.pendingByEpoch[s.epoch];
      (s.(trackers := s.trackers[k := s.trackers[k].(pending := s.trackers[k].pending + {id})]), k)
    else
      (s.(trackers := s.trackers + [Tracker(s.epoch, {id})], pendingByEpoch := s.pendingByEpoch[s.epoch := |s.trackers|]),
       |s.trackers|)
  }

  predicate Enabled(s: State, a: Action) {
    match a
    case Enqueue(_) => true
    case WithExclusive => true
    case PassGate(t) =>
      // reactions registered on one promise run in the order of their registration
      && t < |s.tasks| && s.tasks[t].phase.Gated? && s.tasks[t].gate <= s.released
      && (forall u :: 0 <= u < t && s.tasks[u].gate == s.tasks[t].gate ==> !s.tasks[u].phase.Gated?)
    case Start(t) =>
      && t < |s.tasks| && s.tasks[t].phase.Chained?
      && (s.tasks[t].previous.Some? ==>
           s.tasks[t].previous.value < |s.tasks| && IsFinished(s.tasks[s.tasks[t].previous.value]))
    case Finish(t, _) => t < |s.tasks| && s.tasks[t].phase.Running?
    case Settle(t) => t < |s.tasks| && s.tasks[t].phase.Finished? && s.tasks[t].tracker < |s.trackers|
    case DropTail(t) => t < |s.tasks| && IsFinished(s.tasks[t]) && !s.tasks[t].tailDropped
    case Begin(x) => x < |s.sections| && s.sections[x].Queued? && (x > 0 ==> s.sections[x - 1].Released?)
    case Close(x) =>
      && x < |s.sections| && s.sections[x].Closing?
      && (s.sections[x].closedEpoch in s.pendingByEpoch ==>
           s.pendingByEpoch[s.sections[x].closedEpoch] < |s.trackers|
           && s.trackers[s.pendingByEpoch[s.sections[x].closedEpoch]].pending == {})
    case Drain(x) => x < |s.sections| && s.sections[x].Draining? && s.tails == map[]
    case Enter(x) => x < |s.sections| && s.sections[x].Ready?
    case Leave(x) => x < |s.sections| && s.sections[x].Exclusive?
  }

  function WithTask(s: State, t: TaskId, task: Task): State
    requires t < |s.tasks|
  {
    s.(tasks := s.tasks[t := task])
  }

  function WithSection(s: State, x: nat, section: Section): State
    requires x < |s.sections|
  {
    s.(sections := s.sections[x := section])
  }

  function Next(s: State, a: Action): State
    requires Enabled(s, a)
  {
    match a
    case Enqueue(agent) =>
      var (tracked, tracker) := Track(s, |s.tasks|);
      tracked.(tasks := s.tasks + [Task(agent, s.epoch, s.admission, Gated, None, tracker, false)])
    case WithExclusive => s.(sections := s.sections + [Queued])
    case PassGate(t) =>
      var task := s.tasks[t];
      var previous := if task.agent in s.tails then Some(s.tails[task.agent]) else None;
      WithTask(s, t, task.(phase := Chained, previous := previous)).(tails := s.tails[task.agent := t])
    case Start(t) => WithTask(s, t, s.tasks[t].(phase := Running))
    case Finish(t, failed) => WithTask(s, t, s.tasks[t].(phase := Finished(failed)))
    case Settle(t) =>
      var task := s.tasks[t];
      var left := s.trackers[task.tracker].pending - {t};
      WithTask(s, t, task.(phase := Settled)).(
        trackers := s.trackers[task.tracker := s.trackers[task.tracker].(pending := left)],
        pendingByEpoch := if left == {} then s.pendingByEpoch - {task.epoch} else s.pendingByEpoch)
    case DropTail(t) =>
      var task := s.tasks[t];
      WithTask(s, t, task.(tailDropped := true)).(
        tails := if task.agent in s.tails && s.tails[task.agent] == t then s.tails - {task.agent} else s.tails)
    case Begin(x) =>
      WithSection(s, x, Closing(s.epoch)).(epoch := s.epoch + 1, admission := s.admission + 1)
    case Close(x) => WithSection(s, x, Draining(s.sections[x].closedEpoch))
    case Drain(x) => WithSection(s, x, Ready(s.sections[x].closedEpoch))
    case Enter(x) => WithSection(s, x, Exclusive(s.sections[x].closedEpoch))
    case Leave(x) => WithSection(s, x, Released).(released := s.released + 1)
  }

  // ---------------------------------------------------------- the invariant

  /** Sections run one after the other; at most one is under way, and it closed the epoch of its own number. */
  ghost predicate SectionsInOrder(s: State) {
    && s.epoch == s.admission && s.released <= s.epoch <= s.released + 1 && s.epoch <= |s.sections|
    && (forall x :: 0 <= x < s.released ==> s.sections[x].Released?)
    && (forall x :: s.epoch <= x < |s.sections| ==> s.sections[x].Queued?)
    && (s.released < s.epoch ==>
         var current := s.sections[s.released];
         (current.Closing? || current.Draining? || current.Ready? || current.Exclusive?) && current.closedEpoch == s.released)
  }

  /** Gates follow the order of enqueueing, and a task past its gate found it open. */
  ghost predicate GatesInOrder(s: State) {
    && (forall t :: 0 <= t < |s.tasks| ==> s.tasks[t].gate == s.tasks[t].epoch <= s.epoch)
    && (forall t, u :: 0 <= t < u < |s.tasks| ==> s.tasks[t].epoch <= s.tasks[u].epoch)
    && (forall t :: 0 <= t < |s.tasks| && !s.tasks[t].phase.Gated? ==> s.tasks[t].gate <= s.released)
  }

  /** The pending set of an epoch holds exactly its tasks that have not settled. */
  ghost predicate PendingExact(s: State) {
    && (forall e :: e in s.pendingByEpoch ==>
         var k := s.pendingByEpoch[e]; k < |s.trackers| && s.trackers[k].epoch == e && s.trackers[k].pending != {})
    && (forall k :: 0 <= k < |s.trackers| ==> TracksOnly(s, k))
    && (forall t :: 0 <= t < |s.tasks| ==> IsTracked(s, t))
  }

  /** A tracker holds only tasks that are its own and have not settled. */
  ghost predicate TracksOnly(s: State, k: nat)
    requires k < |s.trackers|
  {
    forall t :: t in s.trackers[k].pending ==> t < |s.tasks| && s.tasks[t].tracker == k && !s.tasks[t].phase.Settled?
  }

  /** A task belongs to a tracker of its epoch, the one on record for as long as the task has not settled. */
  ghost predicate IsTracked(s: State, t: TaskId)
    requires t < |s.tasks|
  {
    var task := s.tasks[t];
    && task.tracker < |s.trackers| && s.trackers[task.tracker].epoch == task.epoch
    && (!task.phase.Settled? ==>
         t in s.trackers[task.tracker].pending
         && task.epoch in s.pendingByEpoch && s.pendingByEpoch[task.epoch] == task.tracker)
  }

  /** Every task of a closed epoch the current section no longer waits for has settled. */
  ghost predicate ClosedSettled(s: State)
    requires SectionsInOrder(s)
  {
    && (forall t :: 0 <= t < |s.tasks| && s.tasks[t].epoch < s.released ==> s.tasks[t].phase.Settled?)
    && (s.released < s.epoch && !s.sections[s.released].Closing? ==>
         forall t :: 0 <= t < |s.tasks| && s.tasks[t].epoch == s.released ==> s.tasks[t].phase.Settled?)
  }

  /** One Agent's tasks pass the gate in the order of enqueueing. */
  ghost predicate PassedInOrder(s: State) {
    forall t, u :: 0 <= t < u < |s.tasks| && s.tasks[t].agent == s.tasks[u].agent && !s.tasks[u].phase.Gated? ==>
      !s.tasks[t].phase.Gated?
  }

  /** A task past its gate waits, through its predecessor, for every earlier task of its Agent that is not finished. */
  ghost predicate Linked(s: State) {
    && (forall u :: 0 <= u < |s.tasks| && s.tasks[u].previous.Some? ==>
         s.tasks[u].previous.value < u && s.tasks[s.tasks[u].previous.value].agent == s.tasks[u].agent
         && !s.tasks[s.tasks[u].previous.value].phase.Gated?)
    && (forall t, u ::
         0 <= t < u < |s.tasks| && s.tasks[t].agent == s.tasks[u].agent && !s.tasks[u].phase.Gated? && !IsFinished(s.tasks[t])
         ==> s.tasks[u].previous.Some? && t <= s.tasks[u].previous.value)
  }

  /** An Agent's tail is its last task past the gate; with no tail, all its tasks past the gate are finished. */
  ghost predicate TailsExact(s: State) {
    && (forall a :: a in s.tails ==>
         s.tails[a] < |s.tasks| && s.tasks[s.tails[a]].agent == a
         && !s.tasks[s.tails[a]].phase.Gated? && !s.tasks[s.tails[a]].tailDropped)
    && (forall t :: 0 <= t < |s.tasks| && !s.tasks[t].phase.Gated? ==>
         if s.tasks[t].agent in s.tails then t <= s.tails[s.tasks[t].agent] else IsFinished(s.tasks[t]))
    && (forall t :: 0 <= t < |s.tasks| && s.tasks[t].tailDropped ==> IsFinished(s.tasks[t]))
  }

  /** One Agent's tasks start in the order of enqueueing, each after all earlier ones have finished. */
  ghost predicate AgentOrder(s: State) {
    forall t, u :: 0 <= t < u < |s.tasks| && s.tasks[t].agent == s.tasks[u].agent && HasStarted(s.tasks[u]) ==>
      IsFinished(s.tasks[t])
  }

  ghost predicate Inv(s: State) {
    && SectionsInOrder(s) && GatesInOrder(s) && PendingExact(s) && ClosedSettled(s)
    && PassedInOrder(s) && Linked(s) && TailsExact(s) && AgentOrder(s)
  }

  lemma SectionsKept(s: State, a: Action)
    requires SectionsInOrder(s) && Enabled(s, a)
    ensures SectionsInOrder(Next(s, a))
  {
  }

  lemma GatesFrame(s: State, a: Action)
    requires Enabled(s, a) && !a.Enqueue?
    ensures var r := Next(s, a); |r.tasks| == |s.tasks| && s.epoch <= r.epoch && s.released <= r.released
    ensures var r := Next(s, a); forall t :: 0 <= t < |s.tasks| ==>
      r.tasks[t].gate == s.tasks[t].gate && r.tasks[t].epoch == s.tasks[t].epoch
      && (s.tasks[t].phase.Gated? && !r.tasks[t].phase.Gated? ==> s.tasks[t].gate <= s.released)
  {
  }

  lemma GatesKept(s: State, a: Action)
    requires SectionsInOrder(s) && GatesInOrder(s) && Enabled(s, a)
    ensures GatesInOrder(Next(s, a))
  {
    if a.Enqueue? {
      assert forall t :: 0 <= t < |s.tasks| ==> Next(s, a).tasks[t] == s.tasks[t];
    } else {
      GatesFrame(s, a);
    }
  }

  ghost predicate IsLive(s: State, e: nat, t: TaskId) {
    t < |s.tasks| && s.tasks[t].epoch == e && !s.tasks[t].phase.Settled?
  }

  lemma PendingOf(s: State, e: nat)
    requires PendingExact(s)
    ensures e in s.pendingByEpoch <==> exists t :: IsLive(s, e, t)
    ensures e in s.pendingByEpoch ==>
      s.pendingByEpoch[e] < |s.trackers| && forall t :: t in s.trackers[s.pendingByEpoch[e]].pending <==> IsLive(s, e, t)
  {
    if e in s.pendingByEpoch {
      var k := s.pendingByEpoch[e];
      assert TracksOnly(s, k);
      forall t | t in s.trackers[k].pending ensures IsLive(s, e, t) {
        assert IsTracked(s, t);
      }
      forall t | IsLive(s, e, t) ensures t in s.trackers[k].pending {
        assert IsTracked(s, t);
      }
      var t :| t in s.trackers[k].pending;
      assert IsLive(s, e, t);
    }
    forall t | IsLive(s, e, t) ensures e in s.pendingByEpoch {
      assert IsTracked(s, t);
    }
  }

  /** Steps that neither enqueue nor settle leave the pending sets alone. */
  lemma PendingFrame(s: State, r: State)
    requires PendingExact(s) && r.trackers == s.trackers && r.pendingByEpoch == s.pendingByEpoch
    requires |r.tasks| == |s.tasks|
    requires forall t :: 0 <= t < |s.tasks| ==>
      r.tasks[t].tracker == s.tasks[t].tracker && r.tasks[t].epoch == s.tasks[t].epoch
      && (r.tasks[t].phase.Settled? <==> s.tasks[t].phase.Settled?)
    ensures PendingExact(r)
  {
    forall k | 0 <= k < |r.trackers| ensures TracksOnly(r, k) {
      assert TracksOnly(s, k);
    }
    forall t | 0 <= t < |r.tasks| ensures IsTracked(r, t) {
      assert IsTracked(s, t);
    }
  }

  lemma PendingEnqueue(s: State, agent: Agent)
    requires PendingExact(s)
    ensures PendingExact(Next(s, Enqueue(agent)))
  {
    var r := Next(s, Enqueue(agent));
    forall k | 0 <= k < |r.trackers| ensures TracksOnly(r, k) {
      if k < |s.trackers| { assert TracksOnly(s, k); }
    }
    forall t | 0 <= t < |r.tasks| ensures IsTracked(r, t) {
      if t < |s.tasks| { assert IsTracked(s, t); }
    }
  }

  lemma PendingSettle(s: State, id: TaskId)
    requires PendingExact(s) && Enabled(s, Settle(id))
    ensures PendingExact(Next(s, Settle(id)))
  {
    var r, k := Next(s, Settle(id)), s.tasks[id].tracker;
    assert IsTracked(s, id);
    forall k | 0 <= k < |r.trackers| ensures TracksOnly(r, k) {
      assert TracksOnly(s, k);
    }
    forall t | 0 <= t < |r.tasks| ensures IsTracked(r, t) {
      assert IsTracked(s, t);
    }
  }

  lemma PendingKept(s: State, a: Action)
    requires PendingExact(s) && Enabled(s, a)
    ensures PendingExact(Next(s, a))
  {
    if a.Enqueue? {
      PendingEnqueue(s, a.agent);
    } else if a.Settle? {
      PendingSettle(s, a.task);
    } else {
      PendingFrame(s, Next(s, a));
    }
  }

  lemma ClosedKept(s: State, a: Action)
    requires SectionsInOrder(s) && GatesInOrder(s) && PendingExact(s) && ClosedSettled(s) && Enabled(s, a)
    ensures SectionsInOrder(Next(s, a)) && ClosedSettled(Next(s, a))
  {
    SectionsKept(s, a);
    if a.Close? {
      PendingOf(s, s.sections[a.section].closedEpoch);
      forall t | 0 <= t < |s.tasks| && s.tasks[t].epoch == s.sections[a.section].closedEpoch
        ensures s.tasks[t].phase.Settled?
      {
        assert !IsLive(s, s.tasks[t].epoch, t);
      }
    }
  }

  lemma PassedKept(s: State, a: Action)
    requires SectionsInOrder(s) && GatesInOrder(s) && ClosedSettled(s) && PassedInOrder(s) && Enabled(s, a)
    ensures PassedInOrder(Next(s, a))
  {
  }

  /** A step that only lets tasks finish: same links, same tasks past the gate. */
  ghost predicate OnlyFinishes(s: State, r: State) {
    && |r.tasks| == |s.tasks|
    && forall t :: 0 <= t < |s.tasks| ==>
      && r.tasks[t].agent == s.tasks[t].agent && r.tasks[t].previous == s.tasks[t].previous
      && r.tasks[t].phase.Gated? == s.tasks[t].phase.Gated?
      && (IsFinished(s.tasks[t]) ==> IsFinished(r.tasks[t]))
  }

  lemma StepFinishes(s: State, a: Action)
    requires Enabled(s, a) && !a.PassGate? && !a.Enqueue?
    ensures OnlyFinishes(s, Next(s, a))
  {
  }

  lemma LinkedFrame(s: State, r: State)
    requires Linked(s) && OnlyFinishes(s, r)
    ensures Linked(r)
  {
  }

  lemma LinkedEnqueue(s: State, agent: Agent)
    requires Linked(s)
    ensures Linked(Next(s, Enqueue(agent)))
  {
    var r := Next(s, Enqueue(agent));
    assert forall t :: 0 <= t < |s.tasks| ==> r.tasks[t] == s.tasks[t];
  }

  lemma TailsEnqueue(s: State, agent: Agent)
    requires TailsExact(s)
    ensures TailsExact(Next(s, Enqueue(agent)))
  {
    var r := Next(s, Enqueue(agent));
    assert forall t :: 0 <= t < |s.tasks| ==> r.tasks[t] == s.tasks[t];
  }

  lemma LinkedPass(s: State, id: TaskId)
    requires Inv(s) && Enabled(s, PassGate(id))
    ensures Linked(Next(s, PassGate(id)))
  {
    var r := Next(s, PassGate(id));
    forall t, u | 0 <= t < u < |r.tasks| && r.tasks[t].agent == r.tasks[u].agent
                  && !r.tasks[u].phase.Gated? && !IsFinished(r.tasks[t])
      ensures r.tasks[u].previous.Some? && t <= r.tasks[u].previous.value
    {
      if u == id {
        PassedEarlier(s, id, t);
      }
    }
    forall u | 0 <= u < |r.tasks| && r.tasks[u].previous.Some?
      ensures r.tasks[u].previous.value < u && r.tasks[r.tasks[u].previous.value].agent == r.tasks[u].agent
      ensures !r.tasks[r.tasks[u].previous.value].phase.Gated?
    {
      if u == id {
        TailBelow(s, id);
      }
    }
  }

  /** When a task passes its gate, every earlier task of its Agent has passed. */
  lemma PassedEarlier(s: State, id: TaskId, t: TaskId)
    requires SectionsInOrder(s) && GatesInOrder(s) && ClosedSettled(s) && Enabled(s, PassGate(id))
    requires t < id && s.tasks[t].agent == s.tasks[id].agent
    ensures !s.tasks[t].phase.Gated?
  {
    if s.tasks[t].epoch < s.tasks[id].epoch {
      assert s.tasks[t].epoch < s.released;
    }
  }

  /** Its Agent's tail, if any, is an earlier task. */
  lemma TailBelow(s: State, id: TaskId)
    requires PassedInOrder(s) && TailsExact(s) && Enabled(s, PassGate(id)) && s.tasks[id].agent in s.tails
    ensures s.tails[s.tasks[id].agent] < id
  {
  }

  lemma LinkedKept(s: State, a: Action)
    requires Inv(s) && Enabled(s, a)
    ensures Linked(Next(s, a))
  {
    if a.PassGate? {
      LinkedPass(s, a.task);
    } else if a.Enqueue? {
      LinkedEnqueue(s, a.agent);
    } else {
      StepFinishes(s, a);
      LinkedFrame(s, Next(s, a));
    }
  }

  lemma TailsPass(s: State, id: TaskId)
    requires Inv(s) && Enabled(s, PassGate(id))
    ensures TailsExact(Next(s, PassGate(id)))
  {
    var r := Next(s, PassGate(id));
    forall t | 0 <= t < |r.tasks| && !r.tasks[t].phase.Gated?
      ensures if r.tasks[t].agent in r.tails then t <= r.tails[r.tasks[t].agent] else IsFinished(r.tasks[t])
    {
      assert t != id ==> r.tasks[t] == s.tasks[t];
    }
  }

  lemma TailsDrop(s: State, id: TaskId)
    requires TailsExact(s) && AgentOrder(s) && Enabled(s, DropTail(id))
    ensures TailsExact(Next(s, DropTail(id)))
  {
    var r := Next(s, DropTail(id));
    forall t | 0 <= t < |r.tasks| && !r.tasks[t].phase.Gated?
      ensures if r.tasks[t].agent in r.tails then t <= r.tails[r.tasks[t].agent] else IsFinished(r.tasks[t])
    {
      if t < id && s.tasks[t].agent == s.tasks[id].agent {
        assert HasStarted(s.tasks[id]);
      }
    }
  }

  lemma TailsFrame(s: State, r: State)
    requires TailsExact(s) && OnlyFinishes(s, r) && r.tails == s.tails
    requires forall t :: 0 <= t < |s.tasks| ==> r.tasks[t].tailDropped == s.tasks[t].tailDropped
    ensures TailsExact(r)
  {
  }

  lemma TailsKept(s: State, a: Action)
    requires Inv(s) && Enabled(s, a)
    ensures TailsExact(Next(s, a))
  {
    if a.PassGate? {
      TailsPass(s, a.task);
    } else if a.DropTail? {
      TailsDrop(s, a.task);
    } else if a.Enqueue? {
      TailsEnqueue(s, a.agent);
    } else {
      StepFinishes(s, a);
      TailsFrame(s, Next(s, a));
    }
  }

  /** A task may start only when every earlier task of its Agent has finished. */
  lemma StartAfter(s: State, id: TaskId, t: TaskId)
    requires Linked(s) && AgentOrder(s) && Enabled(s, Start(id)) && t < id && s.tasks[t].agent == s.tasks[id].agent
    ensures IsFinished(s.tasks[t])
  {
    var p := s.tasks[id].previous;
    assert p.Some? ==> HasStarted(s.tasks[p.value]);
  }

  lemma OrderKept(s: State, a: Action)
    requires Linked(s) && AgentOrder(s) && Enabled(s, a)
    ensures AgentOrder(Next(s, a))
  {
    var r := Next(s, a);
    forall t, u | 0 <= t < u < |r.tasks| && r.tasks[t].agent == r.tasks[u].agent && HasStarted(r.tasks[u])
      ensures IsFinished(r.tasks[t])
    {
      StartedBefore(s, a, u);
      FinishedStays(s, a, t);
      FinishedStays(s, a, u);
      if a == Start(u) { StartAfter(s, u, t); }
    }
  }

  lemma StartedBefore(s: State, a: Action, u: TaskId)
    requires Enabled(s, a) && u < |Next(s, a).tasks| && HasStarted(Next(s, a).tasks[u])
    ensures u < |s.tasks| && (HasStarted(s.tasks[u]) || a == Start(u))
  {
  }

  lemma FinishedStays(s: State, a: Action, t: TaskId)
    requires Enabled(s, a) && t < |s.tasks|
    ensures t < |Next(s, a).tasks| && Next(s, a).tasks[t].agent == s.tasks[t].agent
    ensures IsFinished(s.tasks[t]) ==> IsFinished(Next(s, a).tasks[t])
  {
  }

  lemma InvKept(s: State, a: Action)
    requires Inv(s) && Enabled(s, a)
    ensures Inv(Next(s, a))
  {
    GatesKept(s, a);
    PendingKept(s, a);
    ClosedKept(s, a);
    PassedKept(s, a);
    LinkedKept(s, a);
    TailsKept(s, a);
    OrderKept(s, a);
  }

  // ------------------------------------------------------------- whole runs

  /** `states` is what some schedule makes of the empty queue, every action enabled when taken. */
  ghost predicate Runs(states: seq<State>, actions: seq<Action>) {
    && |states| == |actions| + 1 && states[0] == EMPTY
    && forall i :: 0 <= i < |actions| ==> Enabled(states[i], actions[i]) && states[i + 1] == Next(states[i], actions[i])
  }

  lemma {:induction false} RunInv(states: seq<State>, actions: seq<Action>, n: nat)
    requires Runs(states, actions) && n < |states|
    ensures Inv(states[n])
  {
    if n > 0 {
      RunInv(states, actions, n - 1);
      assert Enabled(states[n - 1], actions[n - 1]);
      InvKept(states[n - 1], actions[n - 1]);
    }
  }

  /** `s` can be reached under some schedule. */
  ghost predicate Reachable(s: State) {
    exists states, actions :: Runs(states, actions) && s == states[|actions|]
  }

  lemma ReachableInv(s: State)
    requires Reachable(s)
    ensures Inv(s)
  {
    var states, actions :| Runs(states, actions) && s == states[|actions|];
    RunInv(states, actions, |actions|);
  }

  /** Mutual exclusion over every schedule: an exclusive section runs alone. */
  lemma MutualExclusion(s: State, x: nat)
    requires Reachable(s) && x < |s.sections| && s.sections[x].Exclusive?
    ensures forall t :: 0 <= t < |s.tasks| ==> !s.tasks[t].phase.Running?
    ensures forall y :: 0 <= y < |s.sections| && y != x ==> s.sections[y].Released? || s.sections[y].Queued?
  {
    ReachableInv(s);
    assert x == s.released;
  }

  /** What an exclusive section finds: every task of the epochs closed so far has settled, the rest is gated. */
  lemma ExclusiveView(s: State, x: nat, t: TaskId)
    requires Reachable(s) && x < |s.sections| && s.sections[x].Exclusive? && t < |s.tasks|
    ensures if s.tasks[t].epoch <= x then s.tasks[t].phase.Settled? else s.tasks[t].phase.Gated?
  {
    ReachableInv(s);
    assert x == s.released;
  }

  /** Order over every schedule: one Agent's tasks run one at a time, in the order they were enqueued. */
  lemma AgentFifo(s: State, t: TaskId, u: TaskId)
    requires Reachable(s) && t < u < |s.tasks| && s.tasks[t].agent == s.tasks[u].agent
    ensures HasStarted(s.tasks[u]) ==> IsFinished(s.tasks[t])
    ensures !(s.tasks[t].phase.Running? && s.tasks[u].phase.Running?)
  {
    ReachableInv(s);
  }

  /** The epoch bookkeeping never drops a live task nor keeps a dead one. */
  lemma PendingMeansLive(s: State, e: nat)
    requires Reachable(s)
    ensures e in s.pendingByEpoch <==> exists t :: IsLive(s, e, t)
    ensures e in s.pendingByEpoch ==>
      s.pendingByEpoch[e] < |s.trackers| && forall t :: t in s.trackers[s.pendingByEpoch[e]].pending <==> IsLive(s, e, t)
  {
    ReachableInv(s);
    PendingOf(s, e);
  }

  // ---------------------------------------------------------------- progress

  /** A promise reaction of the queue itself, as opposed to a request or to a caller's task coming to its end. */
  predicate IsReaction(a: Action) {
    !a.Enqueue? && !a.WithExclusive? && !a.Finish? && !a.Leave?
  }

  /** No work is left: every task has settled and every section has been released. */
  ghost predicate Quiet(s: State) {
    && (forall t :: 0 <= t < |s.tasks| ==> s.tasks[t].phase.Settled?)
    && (forall x :: 0 <= x < |s.sections| ==> s.sections[x].Released?)
  }

  /** Nobody's task is running. */
  ghost predicate Idle(s: State) {
    && (forall t :: 0 <= t < |s.tasks| ==> !s.tasks[t].phase.Running?)
    && (forall x :: 0 <= x < |s.sections| ==> !s.sections[x].Exclusive?)
  }

  predicate IsChained(s: State, t: TaskId) { t < |s.tasks| && s.tasks[t].phase.Chained? }

  /** At an open gate. */
  predicate IsAdmitted(s: State, t: TaskId) {
    t < |s.tasks| && s.tasks[t].phase.Gated? && s.tasks[t].gate <= s.released
  }

  /** Between requests, with no caller's task running, some reaction can always be taken until all is quiet. */
  lemma Progress(s: State) returns (a: Action)
    requires Reachable(s) && Idle(s) && !Quiet(s)
    ensures IsReaction(a) && Enabled(s, a)
  {
    ReachableInv(s);
    if t :| 0 <= t < |s.tasks| && s.tasks[t].phase.Finished? {
      a := Settle(t);
      assert IsTracked(s, t);
    } else if t :| 0 <= t < |s.tasks| && IsChained(s, t) {
      a := StartProgress(s, t);
    } else if t :| 0 <= t < |s.tasks| && IsAdmitted(s, t) {
      a := GateProgress(s, t);
    } else {
      forall t | 0 <= t < |s.tasks|
        ensures s.tasks[t].phase.Settled? || (s.tasks[t].phase.Gated? && s.tasks[t].gate > s.released)
      {
        assert !IsChained(s, t) && !IsAdmitted(s, t);
      }
      a := SectionProgress(s);
    }
  }

  /** The first chained task can start. */
  lemma {:induction false} StartProgress(s: State, t: TaskId) returns (a: Action)
    requires Linked(s) && Idle(s) && IsChained(s, t)
    ensures IsReaction(a) && Enabled(s, a)
    decreases t
  {
    if u :| 0 <= u < t && IsChained(s, u) {
      a := StartProgress(s, u);
    } else {
      a := Start(t);
      assert s.tasks[t].previous.Some? ==> !IsChained(s, s.tasks[t].previous.value);
    }
  }

  /** The first task at an open gate can pass. */
  lemma {:induction false} GateProgress(s: State, t: TaskId) returns (a: Action)
    requires IsAdmitted(s, t)
    ensures IsReaction(a) && Enabled(s, a)
    decreases t
  {
    if u :| 0 <= u < t && IsAdmitted(s, u) {
      a := GateProgress(s, u);
    } else {
      a := PassGate(t);
      assert forall u :: 0 <= u < t && s.tasks[u].gate == s.tasks[t].gate ==> !IsAdmitted(s, u);
    }
  }

  /** With every task settled or held back by a gate, the section under way (or the next one) can move. */
  lemma SectionProgress(s: State) returns (a: Action)
    requires Inv(s) && Idle(s) && !Quiet(s)
    requires forall t :: 0 <= t < |s.tasks| ==>
      s.tasks[t].phase.Settled? || (s.tasks[t].phase.Gated? && s.tasks[t].gate > s.released)
    ensures IsReaction(a) && Enabled(s, a)
  {
    var x := s.released;
    if s.released == s.epoch {
      assert forall t :: 0 <= t < |s.tasks| ==> s.tasks[t].phase.Settled?;
      a := Begin(x);
    } else if s.sections[x].Closing? {
      a := Close(x);
      PendingOf(s, x);
    } else if s.sections[x].Draining? {
      if s.tails == map[] {
        a := Drain(x);
      } else {
        var agent :| agent in s.tails;
        a := DropTail(s.tails[agent]);
      }
    } else {
      a := Enter(x);
    }
  }

  // No reaction can go on for ever: each one uses up some of the work the requests brought in.

  ghost function TaskWork(t: Task): nat {
    (if t.phase.Gated? then 4 else if t.phase.Chained? then 3 else if t.phase.Running? then 2
     else if t.phase.Finished? then 1 else 0) + if t.tailDropped then 0 else 1
  }

  ghost function SectionWork(x: Section): nat {
    if x.Queued? then 5 else if x.Closing? then 4 else if x.Draining? then 3 else if x.Ready? then 2
    else if x.Exclusive? then 1 else 0
  }

  ghost function TasksWork(tasks: seq<Task>): nat {
    if tasks == [] then 0 else TaskWork(tasks[0]) + TasksWork(tasks[1..])
  }

  ghost function SectionsWork(sections: seq<Section>): nat {
    if sections == [] then 0 else SectionWork(sections[0]) + SectionsWork(sections[1..])
  }

  ghost function Work(s: State): nat { TasksWork(s.tasks) + SectionsWork(s.sections) }

  lemma {:induction false} TasksWorkUpdate(tasks: seq<Task>, t: nat, task: Task)
    requires t < |tasks|
    ensures TasksWork(tasks[t := task]) + TaskWork(tasks[t]) == TasksWork(tasks) + TaskWork(task)
  {
    if t == 0 {
      assert tasks[t := task][1..] == tasks[1..];
    } else {
      assert tasks[t := task][1..] == tasks[1..][t - 1 := task];
      TasksWorkUpdate(tasks[1..], t - 1, task);
    }
  }

  lemma {:induction false} SectionsWorkUpdate(sections: seq<Section>, x: nat, section: Section)
    requires x < |sections|
    ensures SectionsWork(sections[x := section]) + SectionWork(sections[x]) == SectionsWork(sections) + SectionWork(section)
  {
    if x == 0 {
      assert sections[x := section][1..] == sections[1..];
    } else {
      assert sections[x := section][1..] == sections[1..][x - 1 := section];
      SectionsWorkUpdate(sections[1..], x - 1, section);
    }
  }

  /** Every action other than a new request strictly reduces the work left. */
  lemma WorkDecreases(s: State, a: Action)
    requires Enabled(s, a) && !a.Enqueue? && !a.WithExclusive?
    ensures Work(Next(s, a)) < Work(s)
  {
    var r := Next(s, a);
    if a.Begin? || a.Close? || a.Drain? || a.Enter? || a.Leave? {
      SectionsWorkUpdate(s.sections, a.section, r.sections[a.section]);
    } else {
      TasksWorkUpdate(s.tasks, a.task, r.tasks[a.task]);
    }
  }
}
