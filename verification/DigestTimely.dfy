/** When nothing completed below the watermark is left out, and how long a message stays left out. */
module DigestTimely {
  import opened DigestJobs
  import opened DigestRules
  import opened DigestOnce

  /** The digested jobs are the same ones. */
  ghost predicate SameDigested(a: seq<Job>, b: seq<Job>) {
    && |a| <= |b|
    && (forall i :: 0 <= i < |a| ==> (Digested(a[i]) <==> Digested(b[i])) && (Digested(a[i]) ==> a[i] == b[i]))
    && (forall i :: |a| <= i < |b| ==> !Digested(b[i]))
  }

  lemma SameCoverage(a: seq<Job>, b: seq<Job>, n: nat)
    requires SameDigested(a, b)
    ensures Past(a, n) <==> Past(b, n)
    ensures Covered(a, n) <==> Covered(b, n)
  {
    if Past(a, n) {
      var i :| 0 <= i < |a| && Digested(a[i]) && n <= a[i].last;
      assert Digested(b[i]) && n <= b[i].last;
    }
    if Covered(a, n) {
      var i :| 0 <= i < |a| && Digested(a[i]) && n in Taken(a[i]);
      assert Digested(b[i]) && n in Taken(b[i]);
    }
    if Past(b, n) {
      var i :| 0 <= i < |b| && Digested(b[i]) && n <= b[i].last;
      assert Digested(a[i]) && n <= a[i].last;
    }
    if Covered(b, n) {
      var i :| 0 <= i < |b| && Digested(b[i]) && n in Taken(b[i]);
      assert Digested(a[i]) && n in Taken(a[i]);
    }
  }

  lemma SameWatermark(s: State, t: State)
    requires SameDigested(s.jobs, t.jobs) && t.completed == s.completed
    ensures forall n :: Past(s.jobs, n) <==> Past(t.jobs, n)
    ensures NoneSkipped(s) <==> NoneSkipped(t)
  {
    forall n: nat ensures Past(s.jobs, n) <==> Past(t.jobs, n) { SameCoverage(s.jobs, t.jobs, n); }
    forall n | n in s.completed ensures Skipped(s, n) <==> Skipped(t, n) { SameCoverage(s.jobs, t.jobs, n); }
  }

  lemma CompleteReady(s: State, n: nat)
    requires Sound(s) && Ready(s) && n in s.pending && Timely(s, Complete(n))
    ensures Ready(Next(s, Complete(n)))
  {
    var t := Next(s, Complete(n));
    forall m | m in t.completed ensures !Skipped(t, m) { assert m in s.completed ==> !Skipped(s, m); }
    forall i | 0 <= i < |s.jobs| && s.jobs[i].incremental && Active(s.jobs[i]) ensures TakesAll(t, s.jobs[i]) {
      assert TakesAll(s, s.jobs[i]) && !Minds(s.jobs[i], n);
    }
  }

  lemma CompleteTimely(s: State, n: nat)
    requires Sound(s) && Ready(s) && n in s.pending
    ensures Ready(Next(s, Complete(n))) <==> Timely(s, Complete(n))
  {
    var t := Next(s, Complete(n));
    LateIsSkipped(s, n);
    if Timely(s, Complete(n)) { CompleteReady(s, n); }
    if Ready(t) {
      assert n in t.completed && !Skipped(t, n);
      forall i | 0 <= i < |s.jobs| ensures !Minds(s.jobs[i], n) {
        TakenInRange(s, i, n);
        assert s.jobs[i].incremental && Active(s.jobs[i]) ==> TakesAll(t, t.jobs[i]);
      }
    }
  }

  /** A message that completes below the watermark is skipped at once, and no other is. */
  lemma LateIsSkipped(s: State, n: nat)
    requires Ranged(s) && n in s.pending
    ensures Skipped(Next(s, Complete(n)), n) <==> Past(s.jobs, n)
  {
    forall i | 0 <= i < |s.jobs| ensures n !in Taken(s.jobs[i]) { TakenInRange(s, i, n); }
  }

  lemma EnqueueTimely(s: State, job: Job, window: bool)
    requires Sound(s) && Ready(s) && Enabled(s, Enqueue(job, window))
    ensures Ready(Next(s, Enqueue(job, window))) <==> Timely(s, Enqueue(job, window))
  {
    var t := Next(s, Enqueue(job, window));
    SameWatermark(s, t);
    assert t.jobs[|s.jobs|] == job;
    if Ready(t) && job.incremental { assert TakesAll(t, job); }
  }

  lemma RetryTimely(s: State, i: nat)
    requires Sound(s) && Ready(s) && Enabled(s, Retry(i))
    ensures Ready(Next(s, Retry(i))) <==> Timely(s, Retry(i))
  {
    var t := Next(s, Retry(i));
    SameWatermark(s, t);
    if Ready(t) && s.jobs[i].incremental { assert TakesAll(t, t.jobs[i]); }
  }

  /** Jobs that change without being digested: those still active take as much as before, or all there is. */
  lemma SettlingTimely(s: State, a: Action)
    requires Sound(s) && Ready(s) && Enabled(s, a) && (a.Cancel? || a.Restart? || (Settling(a) && !a.Skip?))
    requires a.Finish? ==> a.outcome != Succeeded || !s.jobs[s.tail[0]].incremental
    ensures Ready(Next(s, a))
  {
    var t := Next(s, a);
    SameWatermark(s, t);
    forall i | 0 <= i < |t.jobs| && t.jobs[i].incremental && Active(t.jobs[i]) ensures TakesAll(t, t.jobs[i]) {
      MoreTaken(s, a, i);
      assert TakesAll(s, s.jobs[i]);
    }
  }

  /** Through such a step an active job stays one, and takes no less. */
  lemma MoreTaken(s: State, a: Action, i: nat)
    requires Sound(s) && Enabled(s, a) && (a.Cancel? || a.Restart? || (Settling(a) && !a.Skip?))
    requires i < |s.jobs| && Active(Next(s, a).jobs[i])
    ensures var job := Next(s, a).jobs[i];
      && Active(s.jobs[i]) && job.incremental == s.jobs[i].incremental && job.last == s.jobs[i].last
      && Takes(s, s.jobs[i]) <= Takes(Next(s, a), job)
  {
    if a.Restart? { assert Next(s, a).jobs[i] == Requeued(s.jobs[i]); }
  }

  lemma DigestCovers(a: seq<Job>, b: seq<Job>, k: nat, n: nat)
    requires k < |a| && b == a[k := a[k].(status := Succeeded)] && a[k].incremental && a[k].status != Succeeded
    ensures Covered(b, n) <==> Covered(a, n) || n in Taken(a[k])
    ensures Past(b, n) <==> Past(a, n) || n <= a[k].last
  {
    if Covered(a, n) {
      var i :| 0 <= i < |a| && Digested(a[i]) && n in Taken(a[i]);
      assert i != k && Digested(b[i]) && n in Taken(b[i]);
    }
    if Past(a, n) {
      var i :| 0 <= i < |a| && Digested(a[i]) && n <= a[i].last;
      assert i != k && Digested(b[i]) && n <= b[i].last;
    }
    assert Digested(b[k]) && Taken(b[k]) == Taken(a[k]) && b[k].last == a[k].last;
    if Covered(b, n) {
      var i :| 0 <= i < |b| && Digested(b[i]) && n in Taken(b[i]);
      assert i != k ==> Digested(a[i]) && n in Taken(a[i]);
    }
    if Past(b, n) {
      var i :| 0 <= i < |b| && Digested(b[i]) && n <= b[i].last;
      assert i != k ==> Digested(a[i]) && n <= a[i].last;
    }
  }

  lemma SucceedTimely(s: State)
    requires Sound(s) && Ready(s) && Enabled(s, Finish(Succeeded)) && s.jobs[s.tail[0]].incremental
    ensures Ready(Next(s, Finish(Succeeded)))
  {
    var t, k := Next(s, Finish(Succeeded)), s.tail[0];
    assert TakesAll(s, s.jobs[k]);
    forall n | n in t.completed ensures !Skipped(t, n) {
      DigestCovers(s.jobs, t.jobs, k, n);
      assert !Skipped(s, n);
    }
    forall i | 0 <= i < |t.jobs| && t.jobs[i].incremental && Active(t.jobs[i]) ensures TakesAll(t, t.jobs[i]) {
      assert t.jobs[i] == s.jobs[i] && TakesAll(s, s.jobs[i]);
      forall n: nat ensures Past(s.jobs, n) ==> Past(t.jobs, n) { DigestCovers(s.jobs, t.jobs, k, n); }
    }
  }

  /** Readiness is kept exactly by what is timely. */
  lemma TimelyExact(s: State, a: Action)
    requires Sound(s) && Ready(s) && Enabled(s, a)
    ensures Ready(Next(s, a)) <==> Timely(s, a)
  {
    match a
    case Arrive => assert Ready(Next(s, a));
    case Skip => assert Ready(Next(s, a));
    case Complete(n) => CompleteTimely(s, n);
    case Enqueue(job, window) => EnqueueTimely(s, job, window);
    case Retry(i) => RetryTimely(s, i);
    case Finish(outcome) =>
      if outcome == Succeeded && s.jobs[s.tail[0]].incremental { SucceedTimely(s); } else { SettlingTimely(s, a); }
    case _ => SettlingTimely(s, a);
  }

  lemma {:induction false} SettlingReady(s: State, actions: seq<Action>, t: State)
    requires Sound(s) && Ready(s) && Run(s, actions, t, SETTLING_ONLY)
    ensures Sound(t) && Ready(t)
  {
    if actions != [] {
      var n := |actions| - 1;
      var u := RunLast(s, actions, t, SETTLING_ONLY);
      SettlingReady(s, actions[..n], u);
      SoundKept(u, actions[n]);
      TimelyExact(u, actions[n]);
    }
  }

  /** A job that would leave a message out, and then is the only one to succeed. */
  lemma LeavesOut(s: State, i: nat, n: nat, t: State)
    requires Sound(s) && i < |s.jobs| && s.jobs[i].incremental && Active(s.jobs[i]) && Settled(s, k => k == i, t)
    requires n in s.completed && n <= s.jobs[i].last && !Past(s.jobs, n)
    requires n !in Takes(s, s.jobs[i])
    ensures Skipped(t, n)
  {
    assert t.jobs[i] == Outcome(s, i, k => k == i) && Digested(t.jobs[i]);
    TakenInRange(s, i, n);
    if Covered(t.jobs, n) {
      var j :| 0 <= j < |t.jobs| && Digested(t.jobs[j]) && n in Taken(t.jobs[j]);
      assert t.jobs[j] == Outcome(s, j, k => k == i);
      if j != i {
        assert t.jobs[j] == s.jobs[j];
        TakenInRange(s, j, n);
      }
    }
  }

  lemma ReadyMeans(s: State)
    requires Sound(s)
    ensures Ready(s) <==> EndsComplete(s)
  {
    if Ready(s) {
      forall actions, t | Run(s, actions, t, SETTLING_ONLY) ensures NoneSkipped(t) { SettlingReady(s, actions, t); }
    }
    if EndsComplete(s) {
      assert Run(s, [], s, SETTLING_ONLY);
      forall i, n | 0 <= i < |s.jobs| && s.jobs[i].incremental && Active(s.jobs[i])
          && n in s.completed && n <= s.jobs[i].last && !Past(s.jobs, n)
        ensures n in Takes(s, s.jobs[i])
      {
        var actions, t := Settle(s, k => k == i);
        assert !Skipped(t, n);
        if n !in Takes(s, s.jobs[i]) {
          LeavesOut(s, i, n, t);
        }
      }
    }
  }

  /**
   * The condition on completions, retries and ranges is exact: with it no outcome of the jobs under way leaves a
   * completed message below the watermark undigested, and without it some outcome does.
   */
  lemma TimelyMeans(s: State, a: Action)
    requires Sound(s) && Ready(s) && Enabled(s, a)
    ensures Timely(s, a) <==> EndsComplete(Next(s, a))
  {
    SoundKept(s, a);
    TimelyExact(s, a);
    ReadyMeans(Next(s, a));
  }

  // --------------------------------------------------------- left out for good

  /** Skipped, and no active job takes it. */
  ghost predicate Lost(s: State, n: nat) {
    Skipped(s, n)
    && forall i :: 0 <= i < |s.jobs| && s.jobs[i].incremental && Active(s.jobs[i]) ==> n !in Takes(s, s.jobs[i])
  }

  /**
   * No later window reaches back. A retry brings the message back when the job still takes it, which it does not with
   * proposals stored without it; so does a range of the caller's that spans it; and so does a restart that makes a job
   * read again that had read its range before the message completed.
   */
  ghost predicate Recalls(s: State, a: Action, n: nat) {
    match a
    case Retry(i) => i < |s.jobs| && s.jobs[i].incremental && n in Takes(s, s.jobs[i].(status := Queued))
    case Enqueue(job, window) => !window && Spans(job, n)
    case Restart => exists i :: 0 <= i < |s.jobs| && s.jobs[i].status == Running && s.jobs[i].input.Read? && Spans(s.jobs[i], n)
    case _ => false
  }

  lemma DigestedStays(s: State, a: Action, i: nat)
    requires Sound(s) && Enabled(s, a) && i < |s.jobs| && Digested(s.jobs[i])
    ensures Next(s, a).jobs[i] == s.jobs[i]
  {
  }

  lemma LostCovered(s: State, a: Action, n: nat)
    requires Sound(s) && Enabled(s, a) && Lost(s, n)
    ensures !Covered(Next(s, a).jobs, n)
  {
    var t := Next(s, a);
    forall i | 0 <= i < |t.jobs| && Digested(t.jobs[i]) ensures n !in Taken(t.jobs[i]) {
      assert Digested(s.jobs[i]) || n !in Takes(s, s.jobs[i]);
    }
  }

  lemma LostSkipped(s: State, a: Action, n: nat)
    requires Sound(s) && Enabled(s, a) && Lost(s, n)
    ensures Skipped(Next(s, a), n)
  {
    LostCovered(s, a, n);
    var p :| 0 <= p < |s.jobs| && Digested(s.jobs[p]) && n <= s.jobs[p].last;
    DigestedStays(s, a, p);
  }

  lemma LostExact(s: State, a: Action, n: nat)
    requires Sound(s) && Enabled(s, a) && Lost(s, n)
    ensures Lost(Next(s, a), n) <==> !Recalls(s, a, n)
  {
    var t := Next(s, a);
    LostSkipped(s, a, n);
    match a
    case Retry(i) => assert Active(t.jobs[i]) && (forall k :: 0 <= k < |s.jobs| && k != i ==> t.jobs[k] == s.jobs[k]);
    case Enqueue(job, window) =>
      assert t.jobs[|s.jobs|] == job;
      if window { assert !Past(s.jobs, job.first); }
    case Restart => RestartLost(s, n);
    case Complete(m) => assert m != n;
    case _ =>
      forall i | 0 <= i < |s.jobs| && t.jobs[i].incremental && Active(t.jobs[i]) ensures n !in Takes(t, t.jobs[i]) {
        SettlingTakes(s, a, i);
      }
  }

  lemma RestartLost(s: State, n: nat)
    requires Sound(s) && Lost(s, n) && Skipped(Next(s, Restart), n)
    ensures Lost(Next(s, Restart), n) <==> !Recalls(s, Restart, n)
  {
    var t := Next(s, Restart);
    forall i | 0 <= i < |s.jobs| && s.jobs[i].incremental && Active(s.jobs[i])
      ensures n in Takes(t, t.jobs[i]) <==> s.jobs[i].status == Running && s.jobs[i].input.Read? && Spans(s.jobs[i], n)
    {
      assert t.jobs[i] == Requeued(s.jobs[i]) && n !in Takes(s, s.jobs[i]);
    }
    if Recalls(s, Restart, n) {
      var i :| 0 <= i < |s.jobs| && s.jobs[i].status == Running && s.jobs[i].input.Read? && Spans(s.jobs[i], n);
      assert Active(t.jobs[i]) && n in Takes(t, t.jobs[i]);
    }
  }
}
