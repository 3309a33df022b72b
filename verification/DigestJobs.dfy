/** Digest jobs of one scope (Agent, Account, session) over the message log, across failures, retries and restarts. */
module DigestJobs {

  datatype Status = Queued | Running | Applying | Succeeded | Failed | Cancelled

  /**
   * What a job is digested from: nothing read yet, the messages an attempt has read for the executor, or the messages
   * behind the proposals that are stored with the job. Those stay: no later attempt asks the executor again.
   */
  datatype Input = Unread | Read(messages: set<nat>) | Stored(messages: set<nat>)

  datatype Job = Job(incremental: bool, first: nat, last: nat, fingerprint: string, status: Status, input: Input)

  function Taken(job: Job): set<nat> { if job.input.Unread? then {} else job.input.messages }

  /** The visible messages by number, completed or not yet; the jobs in order; the scheduled runs in order. */
  datatype State = State(completed: set<nat>, pending: set<nat>, next: nat, jobs: seq<Job>, tail: seq<nat>)

  /** A job is enqueued over the whole window, or over a range of the caller's, which may also be incremental. */
  datatype Action = Arrive | Complete(n: nat) | Enqueue(job: Job, window: bool) | Start | Resolve | Store | Apply
    | Finish(outcome: Status) | Skip | Cancel(i: nat) | Retry(i: nat) | Restart

  ghost predicate Init(s: State) { s == State({}, {}, 0, [], []) }

  predicate Active(job: Job) { job.status in {Queued, Running, Applying} }

  predicate Digested(job: Job) { job.incremental && job.status == Succeeded }

  /** Below the watermark: some succeeded incremental job reaches this far. */
  ghost predicate Past(jobs: seq<Job>, n: nat) {
    exists i :: 0 <= i < |jobs| && Digested(jobs[i]) && n <= jobs[i].last
  }

  ghost predicate Covered(jobs: seq<Job>, n: nat) {
    exists i :: 0 <= i < |jobs| && Digested(jobs[i]) && n in Taken(jobs[i])
  }

  /** The incremental window: the completed messages above the watermark, from the first of them up to `last`. */
  ghost predicate Window(s: State, first: nat, last: nat) {
    && first <= last && first in s.completed && last in s.completed && !Past(s.jobs, first)
    && forall n :: n in s.completed && n <= last && !Past(s.jobs, n) ==> first <= n
  }

  function InRange(completed: set<nat>, first: nat, last: nat): set<nat> {
    set n | n in completed && first <= n <= last
  }

  predicate SameKey(a: Job, b: Job) {
    a.incremental == b.incremental && a.first == b.first && a.last == b.last && a.fingerprint == b.fingerprint
  }

  predicate HeadRuns(s: State) { s.tail != [] && s.tail[0] < |s.jobs| && s.jobs[s.tail[0]].status == Running }

  ghost predicate Enabled(s: State, a: Action) {
    match a
    case Arrive => true
    case Complete(n) => n in s.pending
    case Enqueue(job, window) =>
      && job.status == Queued && job.input == Unread
      && job.first in s.completed && job.last in s.completed && job.first <= job.last
      && (window ==> job.incremental && Window(s, job.first, job.last))
      && forall i :: 0 <= i < |s.jobs| ==> !Active(s.jobs[i]) && !SameKey(s.jobs[i], job)
    case Start => s.tail != [] && s.tail[0] < |s.jobs| && s.jobs[s.tail[0]].status == Queued
    case Resolve => HeadRuns(s) && s.jobs[s.tail[0]].input.Unread?
    case Store => HeadRuns(s) && s.jobs[s.tail[0]].input.Read?
    case Apply => HeadRuns(s) && s.jobs[s.tail[0]].input.Stored?
    case Finish(outcome) =>
      s.tail != [] && s.tail[0] < |s.jobs|
      && (s.jobs[s.tail[0]].status == Applying || (s.jobs[s.tail[0]].status == Running && outcome != Succeeded))
      && outcome in {Succeeded, Failed, Cancelled}
    case Skip => s.tail != [] && s.tail[0] < |s.jobs| && !Active(s.jobs[s.tail[0]])
    case Cancel(i) => i < |s.jobs| && s.jobs[i].status == Queued
    case Retry(i) => i < |s.jobs| && s.jobs[i].status in {Failed, Cancelled}
    case Restart => true
  }

  function Requeued(job: Job): Job {
    if job.status in {Running, Applying} then job.(status := Queued) else job
  }

  function RequeueAll(jobs: seq<Job>): seq<Job> {
    seq(|jobs|, i requires 0 <= i < |jobs| => Requeued(jobs[i]))
  }

  function QueuedIndices(jobs: seq<Job>): (r: seq<nat>)
    ensures forall k :: 0 <= k < |r| ==> r[k] < |jobs|
    ensures forall i :: 0 <= i < |jobs| ==> (i in r <==> jobs[i].status == Queued)
  {
    if jobs == [] then []
    else
      var n := |jobs| - 1;
      QueuedIndices(jobs[..n]) + if jobs[n].status == Queued then [n] else []
  }

  /** The completed messages in a job's range. */
  function RangeOf(s: State, job: Job): set<nat> { InRange(s.completed, job.first, job.last) }

  function SetHead(s: State, job: Job): State
    requires s.tail != [] && s.tail[0] < |s.jobs|
  {
    s.(jobs := s.jobs[s.tail[0] := job])
  }

  /** An attempt begins: what an earlier one has read is read again, unless its proposals are stored. */
  function Started(job: Job): Job {
    job.(status := Running, input := if job.input.Stored? then job.input else Unread)
  }

  ghost function Next(s: State, a: Action): State
    requires Enabled(s, a)
  {
    match a
    case Arrive => s.(pending := s.pending + {s.next}, next := s.next + 1)
    case Complete(n) => s.(pending := s.pending - {n}, completed := s.completed + {n})
    case Enqueue(job, _) => s.(jobs := s.jobs + [job], tail := s.tail + [|s.jobs|])
    case Start => SetHead(s, Started(s.jobs[s.tail[0]]))
    case Resolve => SetHead(s, s.jobs[s.tail[0]].(input := Read(RangeOf(s, s.jobs[s.tail[0]]))))
    case Store => SetHead(s, s.jobs[s.tail[0]].(input := Stored(s.jobs[s.tail[0]].input.messages)))
    case Apply => SetHead(s, s.jobs[s.tail[0]].(status := Applying))
    case Finish(outcome) =>
      s.(jobs := s.jobs[s.tail[0] := s.jobs[s.tail[0]].(status := outcome)], tail := s.tail[1..])
    case Skip => s.(tail := s.tail[1..])
    case Cancel(i) => s.(jobs := s.jobs[i := s.jobs[i].(status := Cancelled)])
    case Retry(i) => s.(jobs := s.jobs[i := s.jobs[i].(status := Queued)], tail := s.tail + [i])
    case Restart => s.(jobs := RequeueAll(s.jobs), tail := QueuedIndices(RequeueAll(s.jobs)))
  }

  // ------------------------------------------- one job at a time, in every run

  /** Whatever is retried: a job under way is at the head of the scheduled runs. */
  ghost predicate OneAtATime(s: State) {
    && (forall k :: 0 <= k < |s.tail| ==> s.tail[k] < |s.jobs|)
    && forall i :: 0 <= i < |s.jobs| && s.jobs[i].status in {Running, Applying} ==> s.tail != [] && s.tail[0] == i
  }

  lemma OneAtATimeRestart(s: State)
    requires OneAtATime(s)
    ensures OneAtATime(Next(s, Restart))
  {
    var t := Next(s, Restart);
    assert forall i :: 0 <= i < |t.jobs| ==> t.jobs[i] == Requeued(s.jobs[i]);
  }

  lemma OneAtATimeShift(s: State, a: Action)
    requires OneAtATime(s) && Enabled(s, a) && (a.Finish? || a.Skip?)
    ensures OneAtATime(Next(s, a))
  {
    var t := Next(s, a);
    forall k | 0 <= k < |t.tail| ensures t.tail[k] < |t.jobs| { assert t.tail[k] == s.tail[k + 1]; }
  }

  lemma OneAtATimeKept(s: State, a: Action)
    requires OneAtATime(s) && Enabled(s, a)
    ensures OneAtATime(Next(s, a))
  {
    if a.Restart? {
      OneAtATimeRestart(s);
    } else if a.Finish? || a.Skip? {
      OneAtATimeShift(s, a);
    }
  }

  // ----------------------------------------------------------------- every run

  /** What has been read lies in the range and is completed; nothing is applied without stored proposals. */
  ghost predicate JobRanged(s: State, job: Job) {
    && job.first <= job.last && job.first in s.completed && Taken(job) <= RangeOf(s, job)
    && (job.status in {Applying, Succeeded} ==> job.input.Stored?)
  }

  ghost predicate Ranged(s: State) {
    && s.completed !! s.pending && (forall n :: n in s.pending + s.completed ==> n < s.next)
    && forall i :: 0 <= i < |s.jobs| ==> JobRanged(s, s.jobs[i])
  }

  /** Every active job has a run scheduled. */
  ghost predicate Scheduled(s: State) {
    forall i :: 0 <= i < |s.jobs| && Active(s.jobs[i]) ==> i in s.tail
  }

  ghost predicate Sound(s: State) { OneAtATime(s) && Ranged(s) && Scheduled(s) }

  lemma RangedKept(s: State, a: Action)
    requires OneAtATime(s) && Ranged(s) && Enabled(s, a)
    ensures Ranged(Next(s, a))
  {
    var t := Next(s, a);
    forall i | 0 <= i < |t.jobs| ensures JobRanged(t, t.jobs[i]) {
      if i < |s.jobs| { assert JobRanged(s, s.jobs[i]); }
      if a.Restart? { assert t.jobs[i] == Requeued(s.jobs[i]); }
    }
  }

  lemma ScheduledKept(s: State, a: Action)
    requires Sound(s) && Enabled(s, a)
    ensures Scheduled(Next(s, a))
  {
    var t := Next(s, a);
    if a.Finish? || a.Skip? {
      forall i | 0 <= i < |t.jobs| && Active(t.jobs[i]) ensures i in t.tail {
        assert i in s.tail && i != s.tail[0];
      }
    }
  }

  lemma SoundKept(s: State, a: Action)
    requires Sound(s) && Enabled(s, a)
    ensures Sound(Next(s, a))
  {
    OneAtATimeKept(s, a);
    RangedKept(s, a);
    ScheduledKept(s, a);
  }

  // ---------------------------------------------------------- what a job takes

  /** The input of this attempt is settled: an earlier attempt's proposals, or what has been read already. */
  predicate Fixed(job: Job) { job.input.Stored? || (job.status == Running && job.input.Read?) }

  /** What a job is digested from if it goes on from here and succeeds. */
  function Takes(s: State, job: Job): set<nat> { if Fixed(job) then job.input.messages else RangeOf(s, job) }

  predicate Spans(job: Job, n: nat) { job.incremental && job.first <= n <= job.last }

  lemma TakenInRange(s: State, i: nat, n: nat)
    requires Ranged(s) && i < |s.jobs|
    ensures n in Taken(s.jobs[i]) ==> n in s.completed && s.jobs[i].first <= n <= s.jobs[i].last
  {
    assert n in Taken(s.jobs[i]) ==> n in InRange(s.completed, s.jobs[i].first, s.jobs[i].last);
  }

  lemma TakesInRange(s: State, i: nat, n: nat)
    requires Ranged(s) && i < |s.jobs|
    ensures n in Takes(s, s.jobs[i]) ==> n in s.completed && s.jobs[i].first <= n <= s.jobs[i].last
  {
    TakenInRange(s, i, n);
  }
}
