/** The service that keeps the jobs of one scope and runs them. */
module DigestService {
  import opened Options
  import opened DigestJobs

  datatype Error = InvalidRequest | NotFound | Conflict

  datatype Enqueued = Inserted(index: nat) | Duplicate(index: nat) | Nothing

  /** The highest end of a succeeded incremental range, or -1. */
  method Watermark(jobs: seq<Job>) returns (mark: int)
    ensures forall n: nat :: Past(jobs, n) <==> n <= mark
  {
    mark := -1;
    for i := 0 to |jobs|
      invariant mark >= 0 ==> exists k :: 0 <= k < i && Digested(jobs[k]) && jobs[k].last == mark
      invariant mark >= -1 && forall k :: 0 <= k < i && Digested(jobs[k]) ==> jobs[k].last <= mark
    {
      if Digested(jobs[i]) && jobs[i].last > mark { mark := jobs[i].last; }
    }
  }

  /** The least and the greatest of some numbers, if there are any. */
  method Ends(numbers: set<nat>) returns (ends: Option<(nat, nat)>)
    ensures ends == None <==> numbers == {}
    ensures ends.Some? ==> ends.value.0 in numbers && ends.value.1 in numbers
    ensures ends.Some? ==> forall n :: n in numbers ==> ends.value.0 <= n <= ends.value.1
  {
    if numbers == {} { return None; }
    var n :| n in numbers;
    var least, greatest, left := n, n, numbers - {n};
    while left != {}
      invariant left <= numbers && least in numbers && greatest in numbers
      invariant forall k :: k in numbers && k !in left ==> least <= k <= greatest
    {
      var k :| k in left;
      if k < least { least := k; }
      if k > greatest { greatest := k; }
      left := left - {k};
    }
    return Some((least, greatest));
  }

  /** A completed message above the watermark, and not beyond the requested end. */
  ghost predicate Wanted(completed: set<nat>, jobs: seq<Job>, to: Option<nat>, n: nat) {
    n in completed && !Past(jobs, n) && (to.Some? ==> n <= to.value)
  }

  /** From the first wanted message to the last. */
  ghost predicate Wants(completed: set<nat>, jobs: seq<Job>, to: Option<nat>, first: nat, last: nat) {
    && Wanted(completed, jobs, to, first) && Wanted(completed, jobs, to, last)
    && forall n: nat :: Wanted(completed, jobs, to, n) ==> first <= n <= last
  }

  ghost predicate NoneWanted(completed: set<nat>, jobs: seq<Job>, to: Option<nat>) {
    forall n: nat :: !Wanted(completed, jobs, to, n)
  }

  /** The requested end is not a completed message. */
  predicate Unknown(completed: set<nat>, to: Option<nat>) { completed != {} && to.Some? && to.value !in completed }

  ghost predicate Recorded(jobs: seq<Job>, job: Job) { exists i :: 0 <= i < |jobs| && SameKey(jobs[i], job) }

  ghost predicate Busy(jobs: seq<Job>) { exists i :: 0 <= i < |jobs| && Active(jobs[i]) }

  class Service {
    var completed: set<nat>
    var pending: set<nat>
    var next: nat
    var jobs: seq<Job>
    var tail: seq<nat>

    constructor ()
      ensures Init(Now())
    {
      completed, pending, next, jobs, tail := {}, {}, 0, [], [];
    }

    ghost function Now(): State
      reads this
    {
      State(completed, pending, next, jobs, tail)
    }

    /** `resolveIncrementalDigestRange`: from the first wanted message to the last; nothing when none is wanted. */
    method ResolveIncremental(to: Option<nat>) returns (r: Result<Option<(nat, nat)>, Error>)
      ensures r.Err? <==> Unknown(completed, to)
      ensures r.Err? ==> r.error == InvalidRequest
      ensures r.Ok? ==> (r.value == None <==> NoneWanted(completed, jobs, to))
      ensures r.Ok? && r.value.Some? ==> Wants(completed, jobs, to, r.value.value.0, r.value.value.1)
      ensures r.Ok? && r.value.Some? ==> Window(Now(), r.value.value.0, r.value.value.1)
    {
      if completed == {} { return Ok(None); }
      if to.Some? && to.value !in completed { return Err(InvalidRequest); }
      var mark := Watermark(jobs);
      var window := set n | n in completed && n > mark && (to.Some? ==> n <= to.value);
      var ends := Ends(window);
      forall n: nat ensures n in window <==> Wanted(completed, jobs, to, n) {
        assert Past(jobs, n) <==> n <= mark;
      }
      if ends.Some? {
        assert ends.value.0 in window && ends.value.1 in window;
        forall n | n in completed && n <= ends.value.1 && !Past(jobs, n) ensures ends.value.0 <= n {
          assert Wanted(completed, jobs, to, n);
        }
      }
      return Ok(ends);
    }

    method FindDuplicate(job: Job) returns (found: Option<nat>)
      ensures found.Some? ==> found.value < |jobs| && SameKey(jobs[found.value], job)
      ensures found.Some? ==> forall i :: 0 <= i < found.value ==> !SameKey(jobs[i], job)
      ensures found == None <==> !Recorded(jobs, job)
    {
      for i := 0 to |jobs|
        invariant forall k :: 0 <= k < i ==> !SameKey(jobs[k], job)
      {
        if SameKey(jobs[i], job) { return Some(i); }
      }
      return None;
    }

    method AnyActive() returns (active: bool)
      ensures active <==> Busy(jobs)
    {
      for i := 0 to |jobs|
        invariant forall k :: 0 <= k < i ==> !Active(jobs[k])
      {
        if Active(jobs[i]) { return true; }
      }
      return false;
    }

    /** `resolveDigestRange`: both ends must be given, known and completed, in order. */
    method ResolveRange(from: Option<nat>, to: Option<nat>) returns (r: Result<(nat, nat), Error>)
      ensures r.Ok? <==>
        from.Some? && to.Some? && from.value in completed && to.value in completed && from.value <= to.value
      ensures r.Ok? ==> r.value == (from.value, to.value)
      ensures r == Err(NotFound) <==>
        from.Some? && to.Some? && (from.value !in completed + pending || to.value !in completed + pending)
      ensures r != Err(Conflict)
    {
      if from == None || to == None { return Err(InvalidRequest); }
      if from.value !in completed + pending || to.value !in completed + pending { return Err(NotFound); }
      if from.value !in completed || to.value !in completed || from.value > to.value { return Err(InvalidRequest); }
      return Ok((from.value, to.value));
    }

    /** Puts the job on record and schedules it, unless it exists, or another one is active. */
    method Insert(job: Job, ghost window: bool) returns (r: Result<Enqueued, Error>)
      requires job.status == Queued && job.input == Unread
      requires job.first in completed && job.last in completed && job.first <= job.last
      requires window ==> job.incremental && Window(Now(), job.first, job.last)
      modifies this`jobs, this`tail
      ensures r.Ok? && r.value.Inserted? ==>
        Enabled(old(Now()), Enqueue(job, window)) && Now() == Next(old(Now()), Enqueue(job, window))
      ensures !(r.Ok? && r.value.Inserted?) ==> Now() == old(Now())
      ensures r.Ok? && r.value.Inserted? ==> r.value.index == |old(jobs)|
      ensures r.Ok? && r.value.Duplicate? <==> Recorded(old(jobs), job)
      ensures r.Ok? && r.value.Duplicate? ==> r.value.index < |jobs| && SameKey(jobs[r.value.index], job)
      ensures r.Err? <==> !Recorded(old(jobs), job) && Busy(old(jobs))
      ensures r.Err? ==> r.error == Conflict
      ensures r != Ok(Nothing)
    {
      var duplicate := FindDuplicate(job);
      if duplicate.Some? { return Ok(Duplicate(duplicate.value)); }
      var active := AnyActive();
      if active { return Err(Conflict); }
      assert Enabled(Now(), Enqueue(job, window));
      jobs, tail := jobs + [job], tail + [|jobs|];
      return Ok(Inserted(|jobs| - 1));
    }

    /** `enqueueIncremental`: one new job over the whole window, unless there is none, or it exists, or one is active. */
    method EnqueueIncremental(to: Option<nat>, fingerprint: string) returns (r: Result<Enqueued, Error>)
      modifies this`jobs, this`tail
      ensures r.Ok? && r.value.Inserted? ==> exists job: Job ::
                job.incremental && Enabled(old(Now()), Enqueue(job, true)) && Now() == Next(old(Now()), Enqueue(job, true))
      ensures !(r.Ok? && r.value.Inserted?) ==> Now() == old(Now())
      ensures r == Err(InvalidRequest) <==> Unknown(completed, to)
      ensures r == Ok(Nothing) <==> !Unknown(completed, to) && NoneWanted(completed, old(jobs), to)
      ensures r == Err(Conflict) ==> Busy(old(jobs))
      // inserted or found: a job with this fingerprint, incremental, from the first wanted message to the last
      ensures r.Ok? && r.value.Inserted? ==> r.value.index == |old(jobs)|
      ensures r.Ok? && !r.value.Nothing? ==>
        && r.value.index < |jobs| && jobs[r.value.index].incremental && jobs[r.value.index].fingerprint == fingerprint
        && Wants(completed, old(jobs), to, jobs[r.value.index].first, jobs[r.value.index].last)
    {
      var window := ResolveIncremental(to);
      if window.Err? { return Err(window.error); }
      if window.value == None { return Ok(Nothing); }
      r := Insert(Job(true, window.value.value.0, window.value.value.1, fingerprint, Queued, Unread), true);
    }

    /** `enqueue` with a range of the caller's, incremental or not. */
    method EnqueueRange(incremental: bool, from: Option<nat>, to: Option<nat>, fingerprint: string)
        returns (r: Result<Enqueued, Error>)
      modifies this`jobs, this`tail
      ensures r.Ok? ==>
        from.Some? && to.Some? && from.value in completed && to.value in completed && from.value <= to.value
      ensures r.Ok? && r.value.Inserted? ==>
        var job := Job(incremental, from.value, to.value, fingerprint, Queued, Unread);
        Enabled(old(Now()), Enqueue(job, false)) && Now() == Next(old(Now()), Enqueue(job, false))
      ensures !(r.Ok? && r.value.Inserted?) ==> Now() == old(Now())
      ensures r == Err(Conflict) ==> Busy(old(jobs))
      ensures r.Ok? && r.value.Duplicate? ==>
        r.value.index < |jobs| && SameKey(jobs[r.value.index], Job(incremental, from.value, to.value, fingerprint, Queued, Unread))
      ensures r.Ok? ==> r.value.Inserted? || r.value.Duplicate?
    {
      var range := ResolveRange(from, to);
      if range.Err? { return Err(range.error); }
      r := Insert(Job(incremental, range.value.0, range.value.1, fingerprint, Queued, Unread), false);
    }

    /** What a scheduled run does first: give up unless the job is queued. Stored proposals stay with it. */
    method BeginRun() returns (begun: bool)
      requires OneAtATime(Now()) && tail != [] && jobs[tail[0]].status !in {Running, Applying}
      modifies this`jobs, this`tail
      ensures begun ==> Enabled(old(Now()), Start) && Now() == Next(old(Now()), Start)
      ensures !begun ==> Enabled(old(Now()), Skip) && Now() == Next(old(Now()), Skip)
    {
      var i := tail[0];
      if jobs[i].status != Queued {
        tail := tail[1..];
        return false;
      }
      jobs := jobs[i := Started(jobs[i])];
      return true;
    }

    /**
     * The range as it is now, and what of it counts: the messages are what the executor will be given, unless there are
     * proposals to go by.
     */
    method ReadRange() returns (messages: set<nat>, asks: bool)
      requires HeadRuns(Now()) && !jobs[tail[0]].input.Read?
      modifies this`jobs
      ensures messages == RangeOf(old(Now()), old(jobs)[tail[0]])
      ensures asks <==> !old(jobs)[tail[0]].input.Stored?
      ensures asks ==> Enabled(old(Now()), Resolve) && Now() == Next(old(Now()), Resolve)
      ensures !asks ==> Now() == old(Now())
    {
      var i := tail[0];
      var job := jobs[i];
      messages := set n | n in completed && job.first <= n <= job.last;
      assert messages == RangeOf(Now(), job);
      asks := !job.input.Stored?;
      if asks { jobs := jobs[i := job.(input := Read(messages))]; }
    }

    /** The executor has answered, or had before: its proposals are on the job before anything is written. */
    method BeginWrites() returns (stored: bool)
      requires HeadRuns(Now()) && !jobs[tail[0]].input.Unread?
      modifies this`jobs
      ensures stored <==> old(jobs)[tail[0]].input.Read?
      ensures stored ==> Enabled(old(Now()), Store) && Enabled(Next(old(Now()), Store), Apply)
      ensures stored ==> Now() == Next(Next(old(Now()), Store), Apply)
      ensures !stored ==> Enabled(old(Now()), Apply) && Now() == Next(old(Now()), Apply)
    {
      var i := tail[0];
      stored := jobs[i].input.Read?;
      if stored { jobs := jobs[i := jobs[i].(input := Stored(jobs[i].input.messages))]; }
      jobs := jobs[i := jobs[i].(status := Applying)];
    }

    method EndRun(outcome: Status)
      requires Enabled(Now(), Finish(outcome))
      modifies this`jobs, this`tail
      ensures Now() == Next(old(Now()), Finish(outcome))
    {
      jobs, tail := jobs[tail[0] := jobs[tail[0]].(status := outcome)], tail[1..];
    }

    /** Failed and cancelled jobs only; whatever proposals they have stay. */
    method RetryJob(i: nat) returns (r: Result<Status, Error>)
      modifies this`jobs, this`tail
      ensures r.Ok? <==> Enabled(old(Now()), Retry(i))
      ensures r.Ok? ==> Now() == Next(old(Now()), Retry(i))
      ensures r.Err? ==> Now() == old(Now()) && r.error == if i < |jobs| then Conflict else NotFound
    {
      if i >= |jobs| { return Err(NotFound); }
      if jobs[i].status != Failed && jobs[i].status != Cancelled { return Err(Conflict); }
      jobs, tail := jobs[i := jobs[i].(status := Queued)], tail + [i];
      return Ok(Queued);
    }
  }
}
