/** The digests of whole runs: how they tile the log, and two runs in which they do not. */
module DigestTiling {
  import opened DigestJobs
  import opened DigestRules
  import opened DigestOnce
  import opened DigestTimely

  lemma {:induction false} RunInv(s: State, actions: seq<Action>, t: State, rules: Rules)
    requires Sound(s) && Run(s, actions, t, rules)
    ensures Sound(t)
    ensures rules.free && LiveApart(s.jobs, false) ==> LiveApart(t.jobs, false)
    ensures rules.ordered && LiveApart(s.jobs, true) ==> LiveApart(t.jobs, true)
    ensures rules.timely && Ready(s) ==> Ready(t)
    ensures rules.once && TakesApart(s) ==> TakesApart(t)
  {
    if actions != [] {
      var n := |actions| - 1;
      var u := RunLast(s, actions, t, rules);
      RunInv(s, actions[..n], u, rules);
      SoundKept(u, actions[n]);
      if rules.free && LiveApart(s.jobs, false) { ApartExact(u, actions[n], false); }
      if rules.ordered && LiveApart(s.jobs, true) { ApartExact(u, actions[n], true); }
      if rules.timely && Ready(s) { TimelyExact(u, actions[n]); }
      if rules.once && TakesApart(s) { TakesExact(u, actions[n]); }
    }
  }

  lemma InitSound(s: State)
    requires Init(s)
    ensures Sound(s) && Ready(s) && TakesApart(s) && LiveApart(s.jobs, true) && LiveApart(s.jobs, false)
  {
  }

  /** In every run, retries and restarts included, at most one job is running or applying. */
  lemma OneUnderWay(s: State, actions: seq<Action>, t: State, rules: Rules, i: nat, j: nat)
    requires Init(s) && Run(s, actions, t, rules)
    requires i < |t.jobs| && j < |t.jobs|
    requires t.jobs[i].status in {Running, Applying} && t.jobs[j].status in {Running, Applying}
    ensures i == j
  {
    InitSound(s);
    RunInv(s, actions, t, rules);
  }

  /**
   * The succeeded incremental ranges tile the log: disjoint while retries and ranges are free, in order as well while
   * they keep the order; no message is digested twice while that is so, or while every step sees to it; and every
   * completed message below the watermark is digested while everything is timely.
   */
  lemma Tiling(s: State, actions: seq<Action>, t: State, rules: Rules)
    requires Init(s) && Run(s, actions, t, rules)
    ensures rules.free ==> DigestedApart(t.jobs, false)
    ensures rules.ordered ==> DigestedApart(t.jobs, true)
    ensures rules.free || rules.once ==> forall i, j, n :: TakenBy(t, i, n) && TakenBy(t, j, n) ==> i == j
    ensures rules.timely ==> forall n :: n in t.completed && Past(t.jobs, n) ==> Covered(t.jobs, n)
  {
    InitSound(s);
    RunInv(s, actions, t, rules);
    if rules.free { ApartTakesApart(t); }
    if rules.free || rules.once {
      forall i, j, n | TakenBy(t, i, n) && TakenBy(t, j, n) ensures i == j { TakenOnce(t, i, j, n); }
    }
    if rules.timely {
      forall n | n in t.completed && Past(t.jobs, n) ensures Covered(t.jobs, n) { assert !Skipped(t, n); }
    }
  }

  // -------------------------------------------------------- two runs that fail

  lemma Do(s: State, actions: seq<Action>, t: State, a: Action, rules: Rules) returns (more: seq<Action>, u: State)
    requires Run(s, actions, t, rules) && Enabled(t, a) && Follows(t, a, rules)
    ensures more == actions + [a] && u == Next(t, a) && Run(s, more, u, rules)
  {
    RunStep(s, actions, t, a, rules);
    more, u := actions + [a], Next(t, a);
  }

  lemma FirstMessage(s: State, rules: Rules) returns (actions: seq<Action>, u: State)
    requires Init(s) && !rules.settling
    ensures Run(s, actions, u, rules) && u == State({0}, {}, 1, [], [])
  {
    actions, u := Do(s, [], s, Arrive, rules);
    actions, u := Do(s, actions, u, Complete(0), rules);
  }

  lemma FirstFails(s: State, before: seq<Action>, t: State, job: Job, rules: Rules) returns (actions: seq<Action>, u: State)
    requires Run(s, before, t, rules) && !rules.settling && t == State({0}, {}, 1, [], [])
    requires job == Job(true, 0, 0, job.fingerprint, Queued, Unread)
    ensures Run(s, actions, u, rules) && u == State({0}, {}, 1, [job.(status := Failed)], [])
  {
    actions, u := Do(s, before, t, Enqueue(job, true), rules);
    actions, u := Do(s, actions, u, Start, rules);
    actions, u := Do(s, actions, u, Finish(Failed), rules);
  }

  /** A running job alone in the schedule comes to have its proposals stored. */
  lemma StoresInput(s: State, before: seq<Action>, t: State, i: nat, rules: Rules) returns (actions: seq<Action>, u: State)
    requires Run(s, before, t, rules) && t.tail == [i] && i < |t.jobs| && t.jobs[i].status == Running
    requires !t.jobs[i].input.Read?
    ensures Run(s, actions, u, rules)
    ensures u == t.(jobs := t.jobs[i := t.jobs[i].(input := Stored(Takes(t, t.jobs[i])))])
  {
    if t.jobs[i].input.Stored? {
      actions, u := before, t;
      assert t.jobs[i := t.jobs[i]] == t.jobs;
    } else {
      actions, u := Do(s, before, t, Resolve, rules);
      actions, u := Do(s, actions, u, Store, rules);
    }
  }

  /** A job alone in the schedule runs up to its writes. */
  lemma RunsToApply(s: State, before: seq<Action>, t: State, i: nat, rules: Rules) returns (actions: seq<Action>, u: State)
    requires Run(s, before, t, rules) && t.tail == [i] && i < |t.jobs| && t.jobs[i].status == Queued
    ensures Run(s, actions, u, rules)
    ensures u == t.(jobs := t.jobs[i := t.jobs[i].(status := Applying, input := Stored(Takes(t, t.jobs[i])))])
  {
    var job := t.jobs[i];
    actions, u := Do(s, before, t, Start, rules);
    assert u == t.(jobs := t.jobs[i := Started(job)]) && Takes(u, Started(job)) == Takes(t, job);
    actions, u := StoresInput(s, actions, u, i, rules);
    assert u == t.(jobs := t.jobs[i := job.(status := Running, input := Stored(Takes(t, job)))]);
    actions, u := Do(s, actions, u, Apply, rules);
  }

  /** A job alone in the schedule runs and succeeds. */
  lemma RunsAlone(s: State, before: seq<Action>, t: State, i: nat, rules: Rules) returns (actions: seq<Action>, u: State)
    requires Run(s, before, t, rules) && t.tail == [i] && i < |t.jobs| && t.jobs[i].status == Queued
    ensures Run(s, actions, u, rules)
    ensures u == t.(jobs := t.jobs[i := t.jobs[i].(status := Succeeded, input := Stored(Takes(t, t.jobs[i])))], tail := [])
  {
    actions, u := RunsToApply(s, before, t, i, rules);
    actions, u := Do(s, actions, u, Finish(Succeeded), rules);
  }

  lemma SecondSucceeds(s: State, before: seq<Action>, t: State, earlier: Job, job: Job, rules: Rules)
      returns (actions: seq<Action>, u: State)
    requires Run(s, before, t, rules) && !rules.settling
    requires earlier == Job(true, 0, 0, earlier.fingerprint, Failed, Unread)
    requires job == Job(true, 0, 0, job.fingerprint, Queued, Unread) && job.fingerprint != earlier.fingerprint
    requires t == State({0}, {}, 1, [earlier], [])
    ensures Run(s, actions, u, rules)
    ensures u == State({0}, {}, 1, [earlier, job.(status := Succeeded, input := Stored({0}))], [])
  {
    assert InRange({0}, 0, 0) == {0};
    actions, u := Do(s, before, t, Enqueue(job, true), rules);
    assert u.jobs == [earlier, job] && u.tail == [1];
    actions, u := RunsAlone(s, actions, u, 1, rules);
  }

  /**
   * Digested twice: a job fails, the window is enqueued again with another fingerprint and succeeds, and then the old
   * job is retried. Everything up to the retry keeps all the rules.
   */
  lemma OldRetryOverlaps(s: State, f: string, g: string) returns (before: seq<Action>, u: State, after: seq<Action>, t: State)
    requires Init(s) && f != g
    ensures Run(s, before, u, ALL_RULES) && Enabled(u, Retry(0)) && !Free(u, Retry(0), false) && !Once(u, Retry(0))
    ensures Run(Next(u, Retry(0)), after, t, SETTLING_ONLY) && TakenBy(t, 0, 0) && TakenBy(t, 1, 0)
  {
    var job := Job(true, 0, 0, f, Queued, Unread);
    before, u := FirstMessage(s, ALL_RULES);
    before, u := FirstFails(s, before, u, job, ALL_RULES);
    before, u := SecondSucceeds(s, before, u, job.(status := Failed), job.(fingerprint := g), ALL_RULES);
    assert InRange({0}, 0, 0) == {0};
    assert Live(u.jobs[1]) && !Clear(u.jobs[0], u.jobs[1], false);
    assert 0 in Takes(u, u.jobs[1]) && 0 in Takes(u, u.jobs[0].(status := Queued));
    var retried := Next(u, Retry(0));
    after, t := RunsAlone(retried, [], retried, 0, SETTLING_ONLY);
  }

  lemma ThreeArrive(s: State, rules: Rules) returns (actions: seq<Action>, u: State)
    requires Init(s) && !rules.settling
    ensures Run(s, actions, u, rules) && u == State({}, {0, 1, 2}, 3, [], [])
  {
    actions, u := Do(s, [], s, Arrive, rules);
    actions, u := Do(s, actions, u, Arrive, rules);
    actions, u := Do(s, actions, u, Arrive, rules);
  }

  lemma OuterComplete(s: State, before: seq<Action>, t: State, rules: Rules) returns (actions: seq<Action>, u: State)
    requires Run(s, before, t, rules) && !rules.settling && t == State({}, {0, 1, 2}, 3, [], [])
    ensures Run(s, actions, u, rules) && u == State({0, 2}, {1}, 3, [], [])
  {
    actions, u := Do(s, before, t, Complete(0), rules);
    actions, u := Do(s, actions, u, Complete(2), rules);
  }

  lemma FirstEnqueued(s: State, before: seq<Action>, t: State, job: Job, rules: Rules) returns (actions: seq<Action>, u: State)
    requires Run(s, before, t, rules) && !rules.settling && t == State({0, 2}, {1}, 3, [], [])
    requires job == Job(true, 0, 2, job.fingerprint, Queued, Unread)
    ensures Run(s, actions, u, rules) && u == State({0, 2}, {1}, 3, [job], [0])
  {
    actions, u := Do(s, before, t, Enqueue(job, true), rules);
  }

  lemma RetryFollows(u: State)
    requires |u.jobs| == 1 && u.jobs[0].status == Failed && u.jobs[0].input == Stored(u.completed)
    ensures Enabled(u, Retry(0)) && Follows(u, Retry(0), ALL_RULES)
  {
  }

  /** The only job's writes fail, and it is retried: its proposals stay. */
  lemma FailsAndRetries(s: State, before: seq<Action>, t: State) returns (actions: seq<Action>, u: State)
    requires Run(s, before, t, ALL_RULES) && |t.jobs| == 1 && t.tail == [0]
    requires t.jobs[0].status == Applying && t.jobs[0].input == Stored(t.completed)
    ensures Run(s, actions, u, ALL_RULES) && u == t.(jobs := [t.jobs[0].(status := Queued)])
  {
    actions, u := Do(s, before, t, Finish(Failed), ALL_RULES);
    assert u == t.(jobs := [t.jobs[0].(status := Failed)], tail := []);
    RetryFollows(u);
    actions, u := Do(s, actions, u, Retry(0), ALL_RULES);
  }

  lemma RetriedWithProposals(s: State, job: Job) returns (actions: seq<Action>, u: State)
    requires Init(s) && job == Job(true, 0, 2, job.fingerprint, Queued, Unread)
    ensures Run(s, actions, u, ALL_RULES) && u == State({0, 2}, {1}, 3, [job.(input := Stored({0, 2}))], [0])
  {
    actions, u := ThreeArrive(s, ALL_RULES);
    actions, u := OuterComplete(s, actions, u, ALL_RULES);
    actions, u := FirstEnqueued(s, actions, u, job, ALL_RULES);
    assert InRange({0, 2}, 0, 2) == {0, 2};
    actions, u := RunsToApply(s, actions, u, 0, ALL_RULES);
    actions, u := FailsAndRetries(s, actions, u);
  }

  /** A job that is alone, with stored proposals, succeeds without whatever completes in its range meanwhile. */
  lemma LeavesLater(u: State, n: nat) returns (after: seq<Action>, t: State)
    requires |u.jobs| == 1 && u.tail == [0] && u.jobs[0].status == Queued && u.jobs[0].input.Stored?
    requires n in u.pending && Spans(u.jobs[0], n) && n !in u.jobs[0].input.messages
    ensures !Past(u.jobs, n) && !Timely(u, Complete(n))
    ensures Run(Next(u, Complete(n)), after, t, SETTLING_ONLY) && Lost(t, n)
  {
    assert Minds(u.jobs[0], n);
    var later := Next(u, Complete(n));
    after, t := RunsAlone(later, [], later, 0, SETTLING_ONLY);
    assert t.jobs == [u.jobs[0].(status := Succeeded)];
    assert Digested(t.jobs[0]) && n <= t.jobs[0].last;
  }

  /**
   * Skipped: a job stores its proposals, its writes fail, and it is retried. A message that completes in its range now
   * is above the watermark, and the job has not started; but its next attempt does not ask for proposals again.
   */
  lemma StoredProposalsSkip(s: State, f: string) returns (before: seq<Action>, u: State, after: seq<Action>, t: State)
    requires Init(s)
    ensures Run(s, before, u, ALL_RULES) && Enabled(u, Complete(1)) && !Past(u.jobs, 1) && !Timely(u, Complete(1))
    ensures |u.jobs| == 1 && u.jobs[0].status == Queued && Spans(u.jobs[0], 1)
    ensures Run(Next(u, Complete(1)), after, t, SETTLING_ONLY) && Lost(t, 1)
  {
    before, u := RetriedWithProposals(s, Job(true, 0, 2, f, Queued, Unread));
    after, t := LeavesLater(u, 1);
  }
}
