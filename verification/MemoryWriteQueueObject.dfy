/** The queue as the object callers hold: its mutable bookkeeping, kept in step with the state machine. */
module MemoryWriteQueueObject {
  import opened Options
  import opened MemoryWriteQueue

  class WriteQueue {
    var tails: map<Agent, TaskId>
    var pendingByEpoch: map<nat, nat>
    var trackers: seq<Tracker>
    var admission: nat
    var released: nat
    var epoch: nat
    var tasks: seq<Task>
    var sections: seq<Section>

    ghost function View(): State
      reads this
    {
      State(tasks, sections, epoch, admission, released, tails, pendingByEpoch, trackers)
    }

    ghost predicate Valid()
      reads this
    {
      Inv(View())
    }

    constructor ()
      ensures Valid() && View() == EMPTY
    {
      tails, pendingByEpoch, trackers := map[], map[], [];
      admission, released, epoch := 0, 0, 0;
      tasks, sections := [], [];
    }

    /** `enqueue`: captures the gate and the epoch, and tracks the new task. */
    method EnqueueTask(agent: Agent) returns (id: TaskId)
      requires Valid()
      modifies this
      ensures Valid() && View() == Next(old(View()), Enqueue(agent))
      ensures id == |old(tasks)| && tasks[id].phase.Gated?
    {
      ghost var before := View();
      InvKept(before, Enqueue(agent));
      id := |tasks|;
      var gate, admittedEpoch := admission, epoch;
      var k;
      if admittedEpoch in pendingByEpoch {
        k := pendingByEpoch[admittedEpoch];
      } else {
        k := |trackers|;
        trackers := trackers + [Tracker(admittedEpoch, {})];
        pendingByEpoch := pendingByEpoch[admittedEpoch := k];
      }
      ghost var pending := trackers[k].pending;
      assert pending == {} ==> pending + {id} == {id};
      trackers := trackers[k := trackers[k].(pending := trackers[k].pending + {id})];
      tasks := tasks + [Task(agent, admittedEpoch, gate, Gated, None, k, false)];
      assert trackers == Next(before, Enqueue(agent)).trackers;
    }

    /** The gate's reaction: the task is chained behind its Agent's tail and becomes the tail. */
    method GateOpened(id: TaskId)
      requires Valid() && Enabled(View(), PassGate(id))
      modifies this
      ensures Valid() && View() == Next(old(View()), PassGate(id))
    {
      InvKept(View(), PassGate(id));
      var agent := tasks[id].agent;
      var previous := if agent in tails then Some(tails[agent]) else None;
      tasks := tasks[id := tasks[id].(phase := Chained, previous := previous)];
      tails := tails[agent := id];
    }

    /** `cleanup`: the settled task leaves its pending set, and an empty set leaves the record. */
    method Cleanup(id: TaskId)
      requires Valid() && Enabled(View(), MemoryWriteQueue.Settle(id))
      modifies this
      ensures Valid() && View() == Next(old(View()), MemoryWriteQueue.Settle(id))
    {
      InvKept(View(), MemoryWriteQueue.Settle(id));
      var k, epochNumber := tasks[id].tracker, tasks[id].epoch;
      trackers := trackers[k := trackers[k].(pending := trackers[k].pending - {id})];
      if trackers[k].pending == {} { pendingByEpoch := pendingByEpoch - {epochNumber}; }
      tasks := tasks[id := tasks[id].(phase := Settled)];
    }

    /** The tail's own cleanup: only the Agent's current tail is forgotten. */
    method TailSettled(id: TaskId)
      requires Valid() && Enabled(View(), DropTail(id))
      modifies this
      ensures Valid() && View() == Next(old(View()), DropTail(id))
    {
      InvKept(View(), DropTail(id));
      var agent := tasks[id].agent;
      if agent in tails && tails[agent] == id { tails := tails - {agent}; }
      tasks := tasks[id := tasks[id].(tailDropped := true)];
    }

    /** `withExclusive`: the section waits behind the ones requested before it. */
    method RequestExclusive() returns (x: nat)
      requires Valid()
      modifies this
      ensures Valid() && View() == Next(old(View()), WithExclusive)
      ensures x == |old(sections)|
    {
      InvKept(View(), WithExclusive);
      x := |sections|;
      sections := sections + [Queued];
    }

    /** `runExclusive`, up to its first wait: the epoch is closed and a block put up. */
    method BeginExclusive(x: nat)
      requires Valid() && Enabled(View(), Begin(x))
      modifies this
      ensures Valid() && View() == Next(old(View()), Begin(x))
      ensures epoch == old(epoch) + 1
    {
      InvKept(View(), Begin(x));
      var closedEpoch := epoch;
      epoch := epoch + 1;
      admission := admission + 1;
      sections := sections[x := Closing(closedEpoch)];
    }

    /** The `finally` of `runExclusive`: the block is released, whether the section's task failed or not. */
    method Release(x: nat)
      requires Valid() && Enabled(View(), Leave(x))
      modifies this
      ensures Valid() && View() == Next(old(View()), Leave(x))
    {
      InvKept(View(), Leave(x));
      released := released + 1;
      sections := sections[x := Released];
    }
  }
}
