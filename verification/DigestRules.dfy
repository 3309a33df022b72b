/** What callers and the log have to keep to, runs that do, and what can still come of the jobs under way. */
module DigestRules {
  import opened DigestJobs

  // -------------------------------------------------------------- ranges apart

  /** An incremental job that is digested, or still can be. */
  predicate Live(job: Job) { job.incremental && (Active(job) || job.status == Succeeded) }

  /** The ranges do not meet; when `ordered`, the first is also below the second. */
  predicate Clear(a: Job, b: Job, ordered: bool) { a.last < b.first || (!ordered && b.last < a.first) }

  ghost predicate LiveApart(jobs: seq<Job>, ordered: bool) {
    forall i, j :: 0 <= i < j < |jobs| && Live(jobs[i]) && Live(jobs[j]) ==> Clear(jobs[i], jobs[j], ordered)
  }

  /** The i-th job has its range apart from those of all other live jobs. */
  ghost predicate Fits(jobs: seq<Job>, i: nat, ordered: bool)
    requires i < |jobs|
  {
    && (forall k :: 0 <= k < i && Live(jobs[k]) ==> Clear(jobs[k], jobs[i], ordered))
    && (forall k :: i < k < |jobs| && Live(jobs[k]) ==> Clear(jobs[i], jobs[k], ordered))
  }

  /** What a caller has to see to: an incremental job is retried, or given a range, only apart from the live ones. */
  ghost predicate Free(s: State, a: Action, ordered: bool) {
    match a
    case Retry(i) => i < |s.jobs| && s.jobs[i].incremental ==> Fits(s.jobs, i, ordered)
    case Enqueue(job, window) =>
      !window && job.incremental ==> forall k :: 0 <= k < |s.jobs| && Live(s.jobs[k]) ==> Clear(s.jobs[k], job, ordered)
    case _ => true
  }

  // ------------------------------------------------------- messages taken once

  /** No two live jobs take the same message. */
  ghost predicate TakesApart(s: State) {
    forall i, j :: 0 <= i < j < |s.jobs| && Live(s.jobs[i]) && Live(s.jobs[j]) ==> Takes(s, s.jobs[i]) !! Takes(s, s.jobs[j])
  }

  /** These messages are taken by no live job but, possibly, the i-th. */
  ghost predicate Untaken(s: State, messages: set<nat>, i: nat) {
    forall k :: 0 <= k < |s.jobs| && k != i && Live(s.jobs[k]) ==> Takes(s, s.jobs[k]) !! messages
  }

  /** A live job that has not settled what it takes and would take this message as well. */
  predicate Wants(job: Job, n: nat) { Live(job) && !Fixed(job) && Spans(job, n) }

  /**
   * What keeps messages from being digested twice: a job is retried, or given a range, only when no live job takes
   * what it takes; a message completes within the range of one unsettled job at most; and a restart, which makes a
   * running job read again, finds what has completed in its range since taken by no other.
   */
  ghost predicate Once(s: State, a: Action) {
    match a
    case Complete(n) => forall i, j :: 0 <= i < j < |s.jobs| && Wants(s.jobs[i], n) ==> !Wants(s.jobs[j], n)
    case Retry(i) =>
      i < |s.jobs| && s.jobs[i].incremental ==> Untaken(s, Takes(s, s.jobs[i].(status := Queued)), i)
    case Enqueue(job, window) => !window && job.incremental ==> Untaken(s, RangeOf(s, job), |s.jobs|)
    case Restart =>
      forall i :: 0 <= i < |s.jobs| && s.jobs[i].incremental && s.jobs[i].status == Running && s.jobs[i].input.Read? ==>
        Untaken(s, RangeOf(s, s.jobs[i]), i)
    case _ => true
  }

  // ---------------------------------------------------------- nothing left out

  ghost predicate Skipped(s: State, n: nat) { n in s.completed && Past(s.jobs, n) && !Covered(s.jobs, n) }

  /** Everything completed below the watermark has been digested. */
  ghost predicate NoneSkipped(s: State) { forall n :: n in s.completed ==> !Skipped(s, n) }

  /** Succeeding from here, the job takes whatever is completed up to its end and above the watermark. */
  ghost predicate TakesAll(s: State, job: Job) {
    forall n :: n in s.completed && n <= job.last && !Past(s.jobs, n) ==> n in Takes(s, job)
  }

  ghost predicate Ready(s: State) {
    NoneSkipped(s)
    && forall i :: 0 <= i < |s.jobs| && s.jobs[i].incremental && Active(s.jobs[i]) ==> TakesAll(s, s.jobs[i])
  }

  /** An active job minds a completion up to its end, unless it reads its range afterwards and the range spans it. */
  predicate Minds(job: Job, n: nat) {
    job.incremental && Active(job) && n <= job.last && (Fixed(job) || n < job.first)
  }

  /**
   * Messages complete above the watermark, and above the ends of the active incremental jobs, or in the range of one
   * that has yet to read it; an incremental job is retried, or given a range, only when it takes everything completed
   * up to its end and above the watermark, which stored proposals may no longer do.
   */
  ghost predicate Timely(s: State, a: Action) {
    match a
    case Complete(n) =>
      && !Past(s.jobs, n)
      && forall i :: 0 <= i < |s.jobs| ==> !Minds(s.jobs[i], n)
    case Retry(i) => i < |s.jobs| && s.jobs[i].incremental ==> TakesAll(s, s.jobs[i].(status := Queued))
    case Enqueue(job, _) => job.incremental ==> TakesAll(s, job)
    case _ => true
  }

  // ---------------------------------------------------------------- whole runs

  /** Running what is scheduled, whatever comes of it. */
  predicate Settling(a: Action) { a.Start? || a.Resolve? || a.Store? || a.Apply? || a.Finish? || a.Skip? }

  /** What a run sticks to. */
  datatype Rules = Rules(free: bool, ordered: bool, once: bool, timely: bool, settling: bool)

  const SETTLING_ONLY := Rules(false, false, false, false, true)

  const ALL_RULES := Rules(true, true, true, true, false)

  ghost predicate Follows(s: State, a: Action, rules: Rules) {
    && (rules.free ==> Free(s, a, false)) && (rules.ordered ==> Free(s, a, true))
    && (rules.once ==> Once(s, a)) && (rules.timely ==> Timely(s, a)) && (rules.settling ==> Settling(a))
  }

  ghost predicate Run(s: State, actions: seq<Action>, t: State, rules: Rules) {
    if actions == [] then s == t
    else
      var n := |actions| - 1;
      exists u :: Run(s, actions[..n], u, rules) && Enabled(u, actions[n]) && Follows(u, actions[n], rules)
        && t == Next(u, actions[n])
  }

  lemma RunStep(s: State, actions: seq<Action>, t: State, a: Action, rules: Rules)
    requires Run(s, actions, t, rules) && Enabled(t, a) && Follows(t, a, rules)
    ensures Run(s, actions + [a], Next(t, a), rules)
  {
    assert (actions + [a])[..|actions|] == actions;
  }

  lemma SnocConcat(before: seq<Action>, after: seq<Action>)
    requires after != []
    ensures before + after == before + after[..|after| - 1] + [after[|after| - 1]]
  {
  }

  lemma RunLast(s: State, actions: seq<Action>, t: State, rules: Rules) returns (u: State)
    requires actions != [] && Run(s, actions, t, rules)
    ensures var n := |actions| - 1;
      Run(s, actions[..n], u, rules) && Enabled(u, actions[n]) && Follows(u, actions[n], rules) && t == Next(u, actions[n])
  {
    var n := |actions| - 1;
    u :| Run(s, actions[..n], u, rules) && Enabled(u, actions[n]) && Follows(u, actions[n], rules) && t == Next(u, actions[n]);
  }

  lemma {:induction false} RunConcat(s: State, before: seq<Action>, u: State, after: seq<Action>, t: State, rules: Rules)
    requires Run(s, before, u, rules) && Run(u, after, t, rules)
    ensures Run(s, before + after, t, rules)
  {
    if after == [] {
      assert before + after == before;
    } else {
      var n := |after| - 1;
      var v := RunLast(u, after, t, rules);
      RunConcat(s, before, u, after[..n], v, rules);
      RunStep(s, before + after[..n], v, after[n], rules);
      SnocConcat(before, after);
    }
  }

  // ------------------------------------------------- what can still come of it

  /** A job once everything scheduled has run, when the active jobs in `wins` succeed and the others fail. */
  function Outcome(s: State, i: nat, wins: nat -> bool): Job
    requires i < |s.jobs|
  {
    var job := s.jobs[i];
    if !Active(job) then job
    else job.(status := if wins(i) then Succeeded else Failed, input := Stored(Takes(s, job)))
  }

  ghost predicate Settled(s: State, wins: nat -> bool, t: State) {
    && t.tail == [] && t.completed == s.completed && |t.jobs| == |s.jobs|
    && forall i :: 0 <= i < |s.jobs| ==> t.jobs[i] == Outcome(s, i, wins)
  }

  lemma OutcomeStays(s: State, a: Action, wins: nat -> bool, i: nat)
    requires Sound(s) && Enabled(s, a) && Settling(a) && i < |s.jobs|
    requires a.Finish? ==> s.jobs[s.tail[0]].status == Applying && a.outcome == if wins(s.tail[0]) then Succeeded else Failed
    ensures Outcome(Next(s, a), i, wins) == Outcome(s, i, wins)
  {
  }

  lemma SettledEarlier(s: State, a: Action, wins: nat -> bool, t: State)
    requires Sound(s) && Enabled(s, a) && Settling(a)
    requires a.Finish? ==> s.jobs[s.tail[0]].status == Applying && a.outcome == if wins(s.tail[0]) then Succeeded else Failed
    requires Settled(Next(s, a), wins, t)
    ensures Settled(s, wins, t)
  {
    forall i | 0 <= i < |s.jobs| ensures t.jobs[i] == Outcome(s, i, wins) {
      OutcomeStays(s, a, wins, i);
    }
  }

  /** The next thing to do for what is scheduled. */
  function NextStep(s: State, wins: nat -> bool): Action
    requires s.tail != [] && s.tail[0] < |s.jobs|
  {
    var job := s.jobs[s.tail[0]];
    match job.status
    case Queued => Start
    case Running => if job.input.Unread? then Resolve else if job.input.Read? then Store else Apply
    case Applying => Finish(if wins(s.tail[0]) then Succeeded else Failed)
    case _ => Skip
  }

  function StepsLeft(s: State): nat {
    if s.tail == [] || s.tail[0] >= |s.jobs| then 0
    else
      var job := s.jobs[s.tail[0]];
      match job.status
      case Queued => 4
      case Running => if job.input.Unread? then 3 else if job.input.Read? then 2 else 1
      case _ => 0
  }

  /** Whatever is to succeed of the active jobs, the schedule can run out that way. */
  lemma {:induction false} Settle(s: State, wins: nat -> bool) returns (actions: seq<Action>, t: State)
    requires Sound(s)
    ensures Run(s, actions, t, SETTLING_ONLY) && Settled(s, wins, t)
    decreases |s.tail|, StepsLeft(s)
  {
    if s.tail == [] {
      actions, t := [], s;
    } else {
      var a := NextStep(s, wins);
      SoundKept(s, a);
      var rest;
      rest, t := Settle(Next(s, a), wins);
      SettledEarlier(s, a, wins, t);
      RunStep(s, [], s, a, SETTLING_ONLY);
      assert [] + [a] == [a];
      RunConcat(s, [a], Next(s, a), rest, t, SETTLING_ONLY);
      actions := [a] + rest;
    }
  }

  ghost predicate DigestedApart(jobs: seq<Job>, ordered: bool) {
    forall i, j :: 0 <= i < j < |jobs| && Digested(jobs[i]) && Digested(jobs[j]) ==> Clear(jobs[i], jobs[j], ordered)
  }

  /** However the scheduled runs end, the digested ranges are apart. */
  ghost predicate EndsApart(s: State, ordered: bool) {
    forall actions, t :: Run(s, actions, t, SETTLING_ONLY) ==> DigestedApart(t.jobs, ordered)
  }

  ghost predicate TakenBy(s: State, i: int, n: nat) {
    0 <= i < |s.jobs| && Digested(s.jobs[i]) && n in Taken(s.jobs[i])
  }

  /** However the scheduled runs end, no message is digested twice. */
  ghost predicate EndsOnce(s: State) {
    forall actions, t, i, j, n :: Run(s, actions, t, SETTLING_ONLY) && TakenBy(t, i, n) && TakenBy(t, j, n) ==> i == j
  }

  /** However the scheduled runs end, nothing is skipped. */
  ghost predicate EndsComplete(s: State) {
    forall actions, t :: Run(s, actions, t, SETTLING_ONLY) ==> NoneSkipped(t)
  }
}
